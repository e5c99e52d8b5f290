/** The two ingest paths together: whole webhook requests and backfill iterations, in any order and with repeats. */
module Ingest {
  import opened Sums
  import opened Kobo
  import opened Ledger
  import opened Store
  import opened Posting
  import opened Webhook
  import opened Backfill
  import opened BackfillTheorems

  datatype Arrival =
    | Pushed(ev: Event, now: int, f: WebhookFaults)
    | Pulled(p: Pull)
    | Closing(number: string)

  function Take(t: Tables, a: Arrival): Tables {
    match a
    case Pushed(ev, now, f) => AfterWebhook(t, ev, now, f)
    case Pulled(p) => PullOne(t, p)
    case Closing(n) =>
      if n in t.accounts then t.(accounts := t.accounts[n := t.accounts[n].(status := Closed)]) else t
  }

  function TakeAll(t: Tables, arrivals: seq<Arrival>): Tables {
    if arrivals == [] then t else Take(TakeAll(t, arrivals[..|arrivals| - 1]), arrivals[|arrivals| - 1])
  }

  function AllPulled(pulls: seq<Pull>): seq<Arrival> {
    seq(|pulls|, i requires 0 <= i < |pulls| => Pulled(pulls[i]))
  }

  /** A whole backfill run is the arrival of its transactions one after the other. */
  lemma {:induction false} BackfillArrives(t: Tables, before: seq<Arrival>, pulls: seq<Pull>)
    ensures TakeAll(t, before + AllPulled(pulls)) == PullAll(TakeAll(t, before), pulls)
  {
    var all := before + AllPulled(pulls);
    if pulls == [] {
      assert all == before;
    } else {
      var front := pulls[..|pulls| - 1];
      BackfillArrives(t, before, front);
      assert all[..|all| - 1] == before + AllPulled(front);
    }
  }

  // ----- at most once -----

  predicate MarkIsKept(a: Arrival) {
    a.Pulled? ==> a.p.markUp
  }

  lemma WebhookPostings(t: Tables, ev: Event, now: int, f: WebhookFaults, txn: string)
    ensures var t' := AfterWebhook(t, ev, now, f);
      && t.processed <= t'.processed
      && t'.processed <= t.processed + {ev.txn}
      && (Postings(t', txn) == Postings(t, txn)
          || (ev.txn == txn && txn !in t.processed && txn in t'.processed && Postings(t', txn) == Postings(t, txn) + 1))
  {
    if f.markUp && ev.txn !in t.processed && ev.eventType == PAYMENT_SUCCESS {
      var marked := Marked(t, ev.txn);
      var dest := Route(marked, ev, f.lookupUp);
      if Commits(marked, ev, dest, now, f) {
        var w := PostingOf(txn);
        if dest.ToSuspense? {
          var leg := SuspenseLeg(dest.org, NairaToKobo(ev.naira), ev.txn, now, marked.nextId);
          SumAppend(t.entries, leg[0], w);
        } else {
          var legs := CreditBatch(marked, CreditOf(ev, dest.org, dest.account), now);
          SumAppendTwo(t.entries, legs[0], legs[1], w);
        }
      }
    }
  }

  lemma TakePostings(t: Tables, a: Arrival, txn: string)
    ensures var t' := Take(t, a);
      && t.processed <= t'.processed
      && (Postings(t', txn) == Postings(t, txn)
          || (txn !in t.processed && Postings(t', txn) == Postings(t, txn) + 1 &&
              (MarkIsKept(a) ==> txn in t'.processed)))
  {
    match a
    case Pushed(ev, now, f) => WebhookPostings(t, ev, now, f, txn);
    case Pulled(p) =>
      PullOneEffect(t, p);
      if Eligible(t.accounts, p) && p.txn.id !in t.processed {
        PullOneShifts(t, p, Everyone(), txn);
      }
    case Closing(_) =>
  }

  /** Each id is posted at most once over any sequence of arrivals, through whichever path came first. */
  lemma {:induction false} AtMostOnePosting(t: Tables, arrivals: seq<Arrival>, txn: string)
    requires Postings(t, txn) <= (if txn in t.processed then 1 else 0)
    requires forall a <- arrivals :: MarkIsKept(a)
    ensures var t' := TakeAll(t, arrivals); Postings(t', txn) <= (if txn in t'.processed then 1 else 0)
  {
    if arrivals != [] {
      var front := arrivals[..|arrivals| - 1];
      AtMostOnePosting(t, front, txn);
      TakePostings(TakeAll(t, front), arrivals[|arrivals| - 1], txn);
    }
  }

  // ----- how often, whatever becomes of the marks -----

  /** Whether the arrival posts the id when that is not marked. */
  predicate Adds(t: Tables, a: Arrival, txn: string) {
    match a
    case Pushed(ev, now, f) =>
      var marked := Marked(t, txn);
      && ev.txn == txn && f.markUp && ev.eventType == PAYMENT_SUCCESS
      && Commits(marked, ev, Route(marked, ev, f.lookupUp), now, f)
    case Pulled(p) => p.txn.id == txn && Eligible(t.accounts, p)
    case Closing(_) => false
  }

  /** Whether the arrival leaves the id marked. */
  predicate Marks(t: Tables, a: Arrival, txn: string) {
    match a
    case Pushed(ev, _, f) => ev.txn == txn && f.markUp
    case Pulled(p) => p.txn.id == txn && p.markUp && Eligible(t.accounts, p)
    case Closing(_) => false
  }

  // Arrival i of a history from t finds the tables as the earlier ones left them.
  predicate AddsAt(t: Tables, arrivals: seq<Arrival>, i: int, txn: string) {
    0 <= i < |arrivals| && Adds(TakeAll(t, arrivals[..i]), arrivals[i], txn)
  }

  predicate MarksAt(t: Tables, arrivals: seq<Arrival>, i: int, txn: string) {
    0 <= i < |arrivals| && Marks(TakeAll(t, arrivals[..i]), arrivals[i], txn)
  }

  /** The arrivals that would post the id, up to and including the first one that marks it. */
  ghost function AddedAt(t: Tables, arrivals: seq<Arrival>, txn: string): set<int> {
    set i | 0 <= i < |arrivals| && AddsAt(t, arrivals, i, txn) &&
      forall k :: 0 <= k < i ==> !MarksAt(t, arrivals, k, txn)
  }

  lemma TakeUnmarked(t: Tables, a: Arrival, txn: string)
    requires txn !in t.processed
    ensures Postings(Take(t, a), txn) == Postings(t, txn) + (if Adds(t, a, txn) then 1 else 0)
    ensures txn in Take(t, a).processed <==> Marks(t, a, txn)
  {
    match a
    case Pushed(ev, now, f) => PushUnmarked(t, ev, now, f, txn);
    case Pulled(p) =>
      PullOneEffect(t, p);
      if Eligible(t.accounts, p) && p.txn.id !in t.processed {
        PullOneShifts(t, p, Everyone(), txn);
      }
    case Closing(_) =>
  }

  lemma PushUnmarked(t: Tables, ev: Event, now: int, f: WebhookFaults, txn: string)
    requires txn !in t.processed
    ensures Postings(AfterWebhook(t, ev, now, f), txn) ==
      Postings(t, txn) + (if Adds(t, Pushed(ev, now, f), txn) then 1 else 0)
  {
    if f.markUp && ev.txn !in t.processed && ev.eventType == PAYMENT_SUCCESS {
      var marked := Marked(t, ev.txn);
      var dest := Route(marked, ev, f.lookupUp);
      if Commits(marked, ev, dest, now, f) {
        if dest.ToSuspense? {
          var leg := SuspenseLeg(dest.org, NairaToKobo(ev.naira), ev.txn, now, marked.nextId);
          SumAppend(t.entries, leg[0], PostingOf(txn));
        } else {
          var legs := CreditBatch(marked, CreditOf(ev, dest.org, dest.account), now);
          SumAppendTwo(t.entries, legs[0], legs[1], PostingOf(txn));
        }
      }
    }
  }

  lemma AddedAtStep(t: Tables, front: seq<Arrival>, a: Arrival, txn: string)
    ensures var all, marked := front + [a], exists k :: MarksAt(t, front, k, txn);
      && ((exists k :: MarksAt(t, all, k, txn)) <==> marked || Marks(TakeAll(t, front), a, txn))
      && AddedAt(t, all, txn) ==
           if !marked && Adds(TakeAll(t, front), a, txn) then AddedAt(t, front, txn) + {|front|}
           else AddedAt(t, front, txn)
  {
    var all, last := front + [a], |front|;
    assert all[..last] == front;
    forall i | 0 <= i < last
      ensures AddsAt(t, all, i, txn) <==> AddsAt(t, front, i, txn)
      ensures MarksAt(t, all, i, txn) <==> MarksAt(t, front, i, txn)
    {
      assert all[..i] == front[..i];
    }
    assert MarksAt(t, all, last, txn) <==> Marks(TakeAll(t, front), a, txn);
  }

  /** The law of both paths together: an unmarked id is posted by exactly these arrivals, and is marked in the end
      exactly when one of the arrivals marks it. */
  lemma {:induction false} ArrivalLaw(t: Tables, arrivals: seq<Arrival>, txn: string)
    requires txn !in t.processed
    ensures Postings(TakeAll(t, arrivals), txn) == Postings(t, txn) + |AddedAt(t, arrivals, txn)|
    ensures txn in TakeAll(t, arrivals).processed <==> exists k :: MarksAt(t, arrivals, k, txn)
  {
    if arrivals != [] {
      var front, a := arrivals[..|arrivals| - 1], arrivals[|arrivals| - 1];
      ArrivalLaw(t, front, txn);
      assert arrivals == front + [a];
      AddedAtStep(t, front, a, txn);
      var mid := TakeAll(t, front);
      if txn in mid.processed {
        MarkIsFinal(mid, [a], txn);
        TakeOne(mid, a);
      } else {
        TakeUnmarked(mid, a, txn);
      }
    }
  }

  lemma TakeOne(t: Tables, a: Arrival)
    ensures TakeAll(t, [a]) == Take(t, a)
  {
    assert [a][..0] == [];
  }

  // A backfill iteration that posts the unmarked id and loses its mark.
  predicate LosesMark(t: Tables, arrivals: seq<Arrival>, i: int, txn: string) {
    AddsAt(t, arrivals, i, txn) && arrivals[i].Pulled? && !arrivals[i].p.markUp
  }

  ghost predicate NoLostMarkRepeats(t: Tables, arrivals: seq<Arrival>, txn: string) {
    forall i, k :: 0 <= i < k && LosesMark(t, arrivals, i, txn) ==> k !in AddedAt(t, arrivals, txn)
  }

  // Only a lost mark lets an arrival post and a later one post again.
  lemma EarlierLosesMark(t: Tables, arrivals: seq<Arrival>, i: int, k: int, txn: string)
    requires i in AddedAt(t, arrivals, txn) && k in AddedAt(t, arrivals, txn) && i < k
    ensures LosesMark(t, arrivals, i, txn)
  {
    assert !MarksAt(t, arrivals, i, txn);
  }

  lemma EarlierAdds(t: Tables, arrivals: seq<Arrival>, i: int, k: int, txn: string)
    requires 0 <= i < k && LosesMark(t, arrivals, i, txn) && k in AddedAt(t, arrivals, txn)
    ensures i in AddedAt(t, arrivals, txn)
  {
  }

  lemma AddedOnceMeans(t: Tables, arrivals: seq<Arrival>, txn: string)
    ensures |AddedAt(t, arrivals, txn)| <= 1 <==> NoLostMarkRepeats(t, arrivals, txn)
  {
    var added := AddedAt(t, arrivals, txn);
    AtMostOneElement(added);
    if NoLostMarkRepeats(t, arrivals, txn) {
      forall i, k | i in added && k in added ensures i == k {
        if i < k {
          EarlierLosesMark(t, arrivals, i, k, txn);
        } else if k < i {
          EarlierLosesMark(t, arrivals, k, i, txn);
        }
      }
    } else {
      var i, k :| 0 <= i < k && LosesMark(t, arrivals, i, txn) && k in added;
      EarlierAdds(t, arrivals, i, k, txn);
    }
  }

  /** An unmarked id is posted at most once exactly when no backfill posting whose mark is lost comes before another
      arrival that posts it while it is still unmarked. */
  lemma ArrivesOnceIff(t: Tables, arrivals: seq<Arrival>, txn: string)
    requires txn !in t.processed
    ensures Postings(TakeAll(t, arrivals), txn) <= Postings(t, txn) + 1 <==> NoLostMarkRepeats(t, arrivals, txn)
  {
    ArrivalLaw(t, arrivals, txn);
    AddedOnceMeans(t, arrivals, txn);
  }

  /** A mark is final: no later arrival, on any path and with any faults, posts an id that is already marked. */
  lemma {:induction false} MarkIsFinal(t: Tables, arrivals: seq<Arrival>, txn: string)
    requires txn in t.processed
    ensures txn in TakeAll(t, arrivals).processed && Postings(TakeAll(t, arrivals), txn) == Postings(t, txn)
  {
    if arrivals != [] {
      var front := arrivals[..|arrivals| - 1];
      MarkIsFinal(t, front, txn);
      TakePostings(TakeAll(t, front), arrivals[|arrivals| - 1], txn);
    }
  }

  /** Because the mark comes first, a credit whose transaction fails is lost: neither a retried webhook
      nor any later backfill posts it. */
  lemma FailedCreditIsLost(t: Tables, ev: Event, now: int, f: WebhookFaults, later: seq<Arrival>)
    requires ReplyTo(t, ev, now, f) == FailedToPost && Postings(t, ev.txn) == 0
    ensures Postings(TakeAll(AfterWebhook(t, ev, now, f), later), ev.txn) == 0
  {
    MarkIsFinal(AfterWebhook(t, ev, now, f), later, ev.txn);
  }

  /** Backfill never looks at the account status: closing an account before or after a run makes no difference, so the
      run also credits closed accounts, where a webhook would have used suspense. */
  lemma {:induction false} BackfillIgnoresClosure(t: Tables, number: string, pulls: seq<Pull>)
    ensures PullAll(Take(t, Closing(number)), pulls) == Take(PullAll(t, pulls), Closing(number))
    ensures Take(t, Closing(number)) ==
      if number in t.accounts
      then t.(accounts := t.accounts[number := t.accounts[number].(status := Closed)]) else t
  {
    if pulls != [] {
      var front, p := pulls[..|pulls| - 1], pulls[|pulls| - 1];
      BackfillIgnoresClosure(t, number, front);
      PullIgnoresClosure(PullAll(t, front), number, p);
    }
  }

  lemma PullIgnoresClosure(t: Tables, number: string, p: Pull)
    ensures PullOne(Take(t, Closing(number)), p) == Take(PullOne(t, p), Closing(number))
  {
    if Known(t.accounts, p.txn) {
      assert PullBatch(Take(t, Closing(number)), p.txn) == PullBatch(t, p.txn);
    }
  }

  // ----- order independence -----

  // The account and amount that every event of an id agrees on.
  datatype Due = Due(account: AccountId, kobo: int)

  function DueTo(world: map<string, Due>, a: AccountId): string -> int {
    (txn: string) => if txn in world && world[txn].account == a && world[txn].kobo > 0 then world[txn].kobo else 0
  }

  /** A fault-free arrival for an active account that agrees with the other events of its id. */
  predicate Agrees(t: Tables, world: map<string, Due>, a: Arrival) {
    match a
    case Pushed(ev, _, f) =>
      && f == NO_WEBHOOK_FAULT && ev.eventType == PAYMENT_SUCCESS
      && ev.alias in t.accounts && t.accounts[ev.alias].status == Active
      && System(t.accounts[ev.alias].org, Pool) in t.systemAccounts
      && ev.txn in world && world[ev.txn] == Due(Virtual(t.accounts[ev.alias].id), NairaToKobo(ev.naira))
    case Pulled(p) =>
      && p == FaultFree(p.txn)
      && (SuccessfulCredit(p.txn) ==>
          && Known(t.accounts, p.txn) && p.txn.id in world
          && world[p.txn.id] == Due(Virtual(t.accounts[AccountNumber(p.txn)].id), NairaToKobo(p.txn.naira)))
    case Closing(_) => false
  }

  function SeenIn(a: Arrival): set<string> {
    match a
    case Pushed(ev, _, _) => {ev.txn}
    case Pulled(p) => if SuccessfulCredit(p.txn) then {p.txn.id} else {}
    case Closing(_) => {}
  }

  /** The distinct ids that arrived. */
  function Seen(arrivals: seq<Arrival>): set<string> {
    if arrivals == [] then {} else Seen(arrivals[..|arrivals| - 1]) + SeenIn(arrivals[|arrivals| - 1])
  }

  lemma PushShift(t: Tables, world: map<string, Due>, a: Arrival, acct: AccountId)
    requires a.Pushed? && Agrees(t, world, a) && acct.Virtual?
    requires a.ev.txn !in t.processed
    ensures var t' := Take(t, a);
      && t'.accounts == t.accounts && t'.systemAccounts == t.systemAccounts && t'.processed == t.processed + {a.ev.txn}
      && Balance(t'.entries, acct) == Balance(t.entries, acct) + DueTo(world, acct)(a.ev.txn)
  {
    var marked := Marked(t, a.ev.txn);
    var dest := Route(marked, a.ev, true);
    var req := CreditOf(a.ev, dest.org, dest.account);
    if Commits(marked, a.ev, dest, a.now, a.f) {
      CreditShifts(t.entries, Only(acct), dest.org, dest.account, req.amount, req.ref, InboundCredit, a.now,
        marked.nextId);
    } else {
      var batch := CreditBatch(marked, req, a.now);
      assert batch[0].amount == batch[1].amount == req.amount;
      assert !Accepts(batch, None);
    }
  }

  lemma PullShift(t: Tables, world: map<string, Due>, a: Arrival, acct: AccountId)
    requires a.Pulled? && Agrees(t, world, a)
    ensures var t' := Take(t, a);
      && t'.accounts == t.accounts && t'.systemAccounts == t.systemAccounts
      && t'.processed == t.processed + (set x | x in SeenIn(a) && world[x].kobo > 0)
      && Balance(t'.entries, acct) ==
           Balance(t.entries, acct) +
             (if SuccessfulCredit(a.p.txn) && a.p.txn.id !in t.processed then DueTo(world, acct)(a.p.txn.id) else 0)
  {
    PullOneEffect(t, a.p);
    if Eligible(t.accounts, a.p) && a.p.txn.id !in t.processed {
      PullOneShifts(t, a.p, Only(acct), "");
    }
  }

  // The progress of ingestion: seen ids with money due are marked, and the balance holds what the new ones are due.
  ghost predicate Caught(t: Tables, t': Tables, world: map<string, Due>, seen: set<string>, acct: AccountId) {
    && t'.accounts == t.accounts && t'.systemAccounts == t.systemAccounts
    && t.processed <= t'.processed <= t.processed + seen
    && (forall x <- seen :: x in world && (world[x].kobo > 0 ==> x in t'.processed))
    && Balance(t'.entries, acct) == Balance(t.entries, acct) + SumOver(seen - t.processed, DueTo(world, acct))
  }

  lemma CaughtOne(t: Tables, world: map<string, Due>, seen: set<string>, x: string, acct: AccountId)
    ensures var s := seen - t.processed; var s' := (seen + {x}) - t.processed;
      SumOver(s', DueTo(world, acct)) ==
        SumOver(s, DueTo(world, acct)) + (if x in seen || x in t.processed then 0 else DueTo(world, acct)(x))
  {
    var s := seen - t.processed;
    if x in seen || x in t.processed {
      assert (seen + {x}) - t.processed == s;
    } else {
      assert (seen + {x}) - t.processed == s + {x};
      SumOverInsert(s, x, DueTo(world, acct));
    }
  }

  lemma CaughtStep(t: Tables, t': Tables, world: map<string, Due>, seen: set<string>, a: Arrival, acct: AccountId)
    requires Caught(t, t', world, seen, acct) && Agrees(t, world, a) && acct.Virtual?
    ensures Caught(t, Take(t', a), world, seen + SeenIn(a), acct)
  {
    assert Agrees(t', world, a);
    if a.Pushed? {
      CaughtOne(t, world, seen, a.ev.txn, acct);
      if a.ev.txn !in t'.processed {
        PushShift(t', world, a, acct);
      }
    } else {
      PullShift(t', world, a, acct);
      if SuccessfulCredit(a.p.txn) {
        CaughtOne(t, world, seen, a.p.txn.id, acct);
      } else {
        assert seen + SeenIn(a) == seen;
      }
    }
  }

  lemma {:induction false} CaughtAll(t: Tables, world: map<string, Due>, arrivals: seq<Arrival>, acct: AccountId)
    requires acct.Virtual? && forall a <- arrivals :: Agrees(t, world, a)
    ensures Caught(t, TakeAll(t, arrivals), world, Seen(arrivals), acct)
  {
    if arrivals == [] {
      assert {} - t.processed == {};
    } else {
      var front := arrivals[..|arrivals| - 1];
      CaughtAll(t, world, front, acct);
      CaughtStep(t, TakeAll(t, front), world, Seen(front), arrivals[|arrivals| - 1], acct);
    }
  }

  /** A customer balance grows by the sum over the distinct new ids, whichever path brought them first. */
  lemma BalanceOfArrivals(t: Tables, world: map<string, Due>, arrivals: seq<Arrival>, acct: AccountId)
    requires acct.Virtual? && forall a <- arrivals :: Agrees(t, world, a)
    ensures Balance(TakeAll(t, arrivals).entries, acct) ==
            Balance(t.entries, acct) + SumOver(Seen(arrivals) - t.processed, DueTo(world, acct))
  {
    CaughtAll(t, world, arrivals, acct);
  }

  /** Two histories that bring the same ids, in any order, path and number of repeats, give the same balances. */
  lemma OrderIndependence(t: Tables, world: map<string, Due>, xs: seq<Arrival>, ys: seq<Arrival>, acct: AccountId)
    requires acct.Virtual? && Seen(xs) == Seen(ys)
    requires forall a <- xs + ys :: Agrees(t, world, a)
    ensures Balance(TakeAll(t, xs).entries, acct) == Balance(TakeAll(t, ys).entries, acct)
  {
    assert forall a <- xs :: a in xs + ys;
    assert forall a <- ys :: a in xs + ys;
    BalanceOfArrivals(t, world, xs, acct);
    BalanceOfArrivals(t, world, ys, acct);
  }
}
