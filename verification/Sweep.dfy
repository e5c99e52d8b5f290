/** Sweep coverage: overlapping backfill windows, over any number of sweeps with webhooks in between and a provider
    whose list changes from sweep to sweep. */
module Sweep {
  import opened Kobo
  import opened Ledger
  import opened Store
  import opened Backfill
  import opened BackfillTheorems
  import opened Ingest

  // One sweep of an org at time `at`, after whatever else arrived since the previous one; `world` holds the
  // transactions that the provider knows by then, with the status they have by then, and the wallet check that
  // follows the backfill may go either way.
  datatype Round = Round(
    org: OrgId, at: int, world: seq<ProviderTxn>, runAt: int, wallet: WalletInput, before: seq<Arrival>)

  // The provider's list when all database calls made for it succeed.
  function Fates(world: seq<ProviderTxn>): seq<Pull> {
    seq(|world|, i requires 0 <= i < |world| => FaultFree(world[i]))
  }

  function InputOf(r: Round): SweepInput {
    SweepInput(r.org, r.at, Some(Fates(r.world)), r.runAt, r.wallet)
  }

  /** The worker's sweep of the round. */
  function AfterRound(t: Tables, interval: nat, r: Round): Tables {
    AfterSweep(TakeAll(t, r.before), interval, InputOf(r))
  }

  function AfterRounds(t: Tables, interval: nat, rounds: seq<Round>): Tables {
    if rounds == [] then t
    else AfterRound(AfterRounds(t, interval, rounds[..|rounds| - 1]), interval, rounds[|rounds| - 1])
  }

  /** At most 100 transactions fall into the two intervals before any of the sweeps. */
  predicate WindowsFit(interval: nat, rounds: seq<Round>) {
    forall r <- rounds :: |Window(Fates(r.world), r.at - 2 * interval, r.at)| <= 100
  }

  /** Consecutive sweeps are in order and at most `gap` apart. */
  predicate Regular(gap: int, rounds: seq<Round>) {
    forall i :: 0 < i < |rounds| ==> rounds[i - 1].at <= rounds[i].at <= rounds[i - 1].at + gap
  }

  /** Every sweep from time `settled` on lists x as the successful credit it is. */
  predicate ListedFrom(settled: int, rounds: seq<Round>, x: ProviderTxn) {
    forall r <- rounds :: settled <= r.at ==> x in r.world
  }

  predicate CreditDue(accounts: map<string, VirtualAccount>, x: ProviderTxn) {
    SuccessfulCredit(x) && Known(accounts, x) && NairaToKobo(x.naira) > 0
  }

  /** The window holds exactly the transactions created within it. */
  lemma {:induction false} InWindow(provider: seq<Pull>, since: int, until: int, p: Pull)
    ensures p in Window(provider, since, until) <==> p in provider && since <= p.txn.createdAt <= until
  {
    if provider != [] {
      var last := |provider| - 1;
      InWindow(provider[..last], since, until, p);
      assert p in provider <==> p in provider[..last] || p == provider[last];
    }
  }

  /** The list is the window when that holds at most 100 transactions, and its first 100 otherwise. */
  lemma FirstHundred(provider: seq<Pull>, since: int, until: int)
    ensures var window, page := Window(provider, since, until), Listing(provider, since, until);
      && |page| <= 100 && (|window| <= 100 ==> page == window)
      && (|window| > 100 ==> |page| == 100 && page == window[..100])
  {
  }

  lemma InFates(world: seq<ProviderTxn>, x: ProviderTxn)
    ensures x in world <==> FaultFree(x) in Fates(world)
    ensures forall p <- Fates(world) :: p == FaultFree(p.txn) && p.txn in world
  {
    if i :| 0 <= i < |world| && world[i] == x {
      assert Fates(world)[i] == FaultFree(x);
    }
  }

  lemma Listed(world: seq<ProviderTxn>, since: int, until: int, x: ProviderTxn)
    requires x in world && since <= x.createdAt <= until
    requires |Window(Fates(world), since, until)| <= 100
    ensures FaultFree(x) in Listing(Fates(world), since, until)
  {
    InFates(world, x);
    InWindow(Fates(world), since, until, FaultFree(x));
    FirstHundred(Fates(world), since, until);
  }

  lemma OnlyFates(world: seq<ProviderTxn>, since: int, until: int, p: Pull)
    requires p in Listing(Fates(world), since, until)
    ensures p == FaultFree(p.txn) && p.txn in world && since <= p.txn.createdAt <= until
  {
    FirstHundred(Fates(world), since, until);
    InWindow(Fates(world), since, until, p);
    InFates(world, p.txn);
  }

  lemma {:induction false} SameNumbers(t: Tables, arrivals: seq<Arrival>)
    ensures TakeAll(t, arrivals).accounts.Keys == t.accounts.Keys
    ensures t.processed <= TakeAll(t, arrivals).processed
  {
    if arrivals != [] {
      var front, a := arrivals[..|arrivals| - 1], arrivals[|arrivals| - 1];
      SameNumbers(t, front);
      TakePostings(TakeAll(t, front), a, "");
      if a.Pulled? {
        PullOneEffect(TakeAll(t, front), a.p);
      }
    }
  }

  lemma RoundEffect(t: Tables, interval: nat, r: Round, txn: string)
    ensures var mid, t' := TakeAll(t, r.before), AfterRound(t, interval, r);
      var ids := NewIds(mid.accounts, mid.processed, Looked(interval, InputOf(r)));
      && t'.accounts.Keys == t.accounts.Keys
      && t.processed <= mid.processed && t'.processed == mid.processed + ids
      && Postings(t', txn) == Postings(mid, txn) + (if txn in ids then 1 else 0)
  {
    SameNumbers(t, r.before);
    var pulls := Looked(interval, InputOf(r));
    forall p <- pulls ensures p.markUp {
      OnlyFates(r.world, r.at - 2 * interval, r.at, p);
    }
    BackfillExact(TakeAll(t, r.before), pulls, Everyone(), txn);
  }

  /** The worker's sweep marks every due credit of the two intervals before it. */
  lemma RoundMarks(t: Tables, interval: nat, r: Round, x: ProviderTxn)
    requires x in r.world && r.at - 2 * interval <= x.createdAt <= r.at && CreditDue(t.accounts, x)
    requires |Window(Fates(r.world), r.at - 2 * interval, r.at)| <= 100
    ensures x.id in AfterRound(t, interval, r).processed
  {
    RoundEffect(t, interval, r, x.id);
    Listed(r.world, r.at - 2 * interval, r.at, x);
    var mid := TakeAll(t, r.before);
    SameNumbers(t, r.before);
    assert Eligible(mid.accounts, FaultFree(x));
  }

  lemma {:induction false} RoundsKeep(t: Tables, interval: nat, rounds: seq<Round>)
    ensures AfterRounds(t, interval, rounds).accounts.Keys == t.accounts.Keys
  {
    if rounds != [] {
      var front := rounds[..|rounds| - 1];
      RoundsKeep(t, interval, front);
      RoundEffect(AfterRounds(t, interval, front), interval, rounds[|rounds| - 1], "");
    }
  }

  lemma EarlierRounds(interval: nat, gap: int, settled: int, rounds: seq<Round>, x: ProviderTxn)
    requires rounds != [] && Regular(gap, rounds) && WindowsFit(interval, rounds) && ListedFrom(settled, rounds, x)
    ensures var front := rounds[..|rounds| - 1];
      Regular(gap, front) && WindowsFit(interval, front) && ListedFrom(settled, front, x)
  {
  }

  lemma RoundKeepsMarks(t: Tables, interval: nat, r: Round)
    ensures t.processed <= AfterRound(t, interval, r).processed
  {
    RoundEffect(t, interval, r, "");
  }

  // The first sweep after the settlement sees the credit.
  lemma SeenAfterSettling(interval: nat, gap: int, settled: int, rounds: seq<Round>, x: ProviderTxn)
    requires rounds != [] && Regular(gap, rounds) && ListedFrom(settled, rounds, x)
    requires x.createdAt <= settled && gap + (settled - x.createdAt) <= 2 * interval
    requires rounds[0].at - 2 * interval <= x.createdAt && settled <= rounds[|rounds| - 1].at
    requires |rounds| > 1 ==> rounds[|rounds| - 2].at < settled
    ensures Sees(interval, rounds[|rounds| - 1], x)
  {
    var last := |rounds| - 1;
    assert rounds[last] in rounds;
    if last > 0 {
      assert rounds[last].at <= rounds[last - 1].at + gap;
    }
  }

  /** A credit that settles at most 2 * interval - gap after its creation time, not before the first window opens and
      by the last sweep, is marked: every such lag is absorbed by the overlap of the windows. */
  lemma {:induction false} Coverage(
      t: Tables, interval: nat, gap: int, settled: int, rounds: seq<Round>, x: ProviderTxn)
    requires rounds != [] && Regular(gap, rounds) && WindowsFit(interval, rounds)
    requires CreditDue(t.accounts, x) && ListedFrom(settled, rounds, x)
    requires x.createdAt <= settled && gap + (settled - x.createdAt) <= 2 * interval
    requires rounds[0].at - 2 * interval <= x.createdAt && settled <= rounds[|rounds| - 1].at
    ensures x.id in AfterRounds(t, interval, rounds).processed
  {
    var last := |rounds| - 1;
    var front := rounds[..last];
    if last > 0 && settled <= rounds[last - 1].at {
      EarlierRounds(interval, gap, settled, rounds, x);
      Coverage(t, interval, gap, settled, front, x);
      RoundKeepsMarks(AfterRounds(t, interval, front), interval, rounds[last]);
    } else {
      SeenAfterSettling(interval, gap, settled, rounds, x);
      RoundsKeep(t, interval, front);
      RoundMarks(AfterRounds(t, interval, front), interval, rounds[last], x);
    }
  }

  predicate NotPushed(arrivals: seq<Arrival>, txn: string) {
    forall a <- arrivals :: MarkIsKept(a) && (a.Pushed? ==> a.ev.txn != txn)
  }

  // Unless a webhook marks it, an id is marked only together with a posting.
  lemma {:induction false} PostedWhenMarked(t: Tables, arrivals: seq<Arrival>, txn: string)
    requires NotPushed(arrivals, txn)
    requires Postings(t, txn) == if txn in t.processed then 1 else 0
    ensures var t' := TakeAll(t, arrivals); Postings(t', txn) == if txn in t'.processed then 1 else 0
  {
    if arrivals != [] {
      var front, a := arrivals[..|arrivals| - 1], arrivals[|arrivals| - 1];
      PostedWhenMarked(t, front, txn);
      var mid := TakeAll(t, front);
      match a
      case Pushed(ev, now, f) => WebhookPostings(mid, ev, now, f, txn);
      case Pulled(p) =>
        PullOneEffect(mid, p);
        if Eligible(mid.accounts, p) && p.txn.id !in mid.processed {
          PullOneShifts(mid, p, Everyone(), txn);
        }
      case Closing(_) =>
    }
  }

  /** And a credit that was neither marked nor posted before, and that no webhook brings, is posted exactly once. */
  lemma {:induction false} CoveredExactlyOnce(t: Tables, interval: nat, rounds: seq<Round>, txn: string)
    requires txn !in t.processed && Postings(t, txn) == 0
    requires forall r <- rounds :: NotPushed(r.before, txn)
    ensures var t' := AfterRounds(t, interval, rounds); Postings(t', txn) == if txn in t'.processed then 1 else 0
  {
    if rounds != [] {
      var front, r := rounds[..|rounds| - 1], rounds[|rounds| - 1];
      CoveredExactlyOnce(t, interval, front, txn);
      var before := AfterRounds(t, interval, front);
      PostedWhenMarked(before, r.before, txn);
      RoundEffect(before, interval, r, txn);
    }
  }

  /** Coverage and exactness together, for a credit that is listed as soon as it exists. */
  lemma SweepTheorem(t: Tables, interval: nat, rounds: seq<Round>, x: ProviderTxn)
    requires rounds != [] && Regular(2 * interval, rounds) && WindowsFit(interval, rounds)
    requires CreditDue(t.accounts, x) && ListedFrom(x.createdAt, rounds, x)
    requires rounds[0].at - 2 * interval <= x.createdAt <= rounds[|rounds| - 1].at
    ensures x.id in AfterRounds(t, interval, rounds).processed
    ensures x.id !in t.processed && Postings(t, x.id) == 0 && (forall r <- rounds :: NotPushed(r.before, x.id)) ==>
      Postings(AfterRounds(t, interval, rounds), x.id) == 1
  {
    Coverage(t, interval, 2 * interval, x.createdAt, rounds, x);
    if x.id !in t.processed && Postings(t, x.id) == 0 && forall r <- rounds :: NotPushed(r.before, x.id) {
      CoveredExactlyOnce(t, interval, rounds, x.id);
    }
  }

  /** A sweep lists x as a successful credit among those of the last two intervals. */
  predicate Sees(interval: nat, r: Round, x: ProviderTxn) {
    x in r.world && r.at - 2 * interval <= x.createdAt <= r.at
  }

  // While x is pending the provider lists it, if at all, under its id and as something other than a successful credit.
  predicate OnlyAs(world: seq<ProviderTxn>, x: ProviderTxn) {
    forall y <- world :: y.id == x.id ==> y == x || !SuccessfulCredit(y)
  }

  lemma RoundMisses(t: Tables, interval: nat, r: Round, x: ProviderTxn)
    requires r.before == [] && OnlyAs(r.world, x) && !Sees(interval, r, x)
    ensures x.id in AfterRound(t, interval, r).processed <==> x.id in t.processed
  {
    RoundEffect(t, interval, r, x.id);
    var mid, pulls := TakeAll(t, r.before), Looked(interval, InputOf(r));
    forall p <- pulls | p.txn.id == x.id ensures !Eligible(mid.accounts, p) {
      OnlyFates(r.world, r.at - 2 * interval, r.at, p);
    }
    assert x.id !in NewIds(mid.accounts, mid.processed, pulls);
  }

  ghost predicate SeenBySome(interval: nat, rounds: seq<Round>, x: ProviderTxn) {
    exists r <- rounds :: Sees(interval, r, x)
  }

  lemma InLastOrEarlier(interval: nat, front: seq<Round>, r: Round, x: ProviderTxn)
    ensures SeenBySome(interval, front + [r], x) <==> SeenBySome(interval, front, x) || Sees(interval, r, x)
  {
    assert r in front + [r];
    assert forall q <- front :: q in front + [r];
  }

  /** With sweeps alone, a due credit is marked exactly when some sweep lists it settled inside its window: a longer gap
      or a later settlement does lose credits. */
  lemma {:induction false} MarkedIffSeen(t: Tables, interval: nat, rounds: seq<Round>, x: ProviderTxn)
    requires WindowsFit(interval, rounds) && forall r <- rounds :: r.before == [] && OnlyAs(r.world, x)
    requires CreditDue(t.accounts, x) && x.id !in t.processed
    ensures x.id in AfterRounds(t, interval, rounds).processed <==> SeenBySome(interval, rounds, x)
  {
    if rounds != [] {
      var front, r := rounds[..|rounds| - 1], rounds[|rounds| - 1];
      MarkedIffSeen(t, interval, front, x);
      var before := AfterRounds(t, interval, front);
      if Sees(interval, r, x) {
        RoundsKeep(t, interval, front);
        RoundMarks(before, interval, r, x);
      } else {
        RoundMisses(before, interval, r, x);
      }
      assert rounds == front + [r];
      InLastOrEarlier(interval, front, r, x);
    }
  }

  // ----- all orgs -----

  /** Everything the orgs of one sweep look at, in order. */
  function AllLooked(interval: nat, inputs: seq<SweepInput>): seq<Pull> {
    if inputs == [] then []
    else AllLooked(interval, inputs[..|inputs| - 1]) + Looked(interval, inputs[|inputs| - 1])
  }

  lemma {:induction false} PullIgnoresRuns(t: Tables, runs: seq<ReconciliationRun>, pulls: seq<Pull>)
    ensures PullAll(t.(runs := runs), pulls) == PullAll(t, pulls).(runs := runs)
    ensures PullAll(t, pulls).runs == t.runs && PullAll(t, pulls).systemAccounts == t.systemAccounts
  {
    if pulls != [] {
      PullIgnoresRuns(t, runs, pulls[..|pulls| - 1]);
    }
  }

  lemma {:induction false} PullConcat(t: Tables, xs: seq<Pull>, ys: seq<Pull>)
    ensures PullAll(t, xs + ys) == PullAll(PullAll(t, xs), ys)
  {
    if ys == [] {
      assert xs + ys == xs;
    } else {
      PullConcat(t, xs, ys[..|ys| - 1]);
      assert (xs + ys)[..|xs + ys| - 1] == xs + ys[..|ys| - 1];
    }
  }

  /** A sweep of all orgs posts and marks what one backfill over all their lists does, whatever the wallet checks
      say. */
  lemma {:induction false} SweepsBackfill(t: Tables, interval: nat, inputs: seq<SweepInput>)
    ensures var t' := AfterSweeps(t, interval, inputs); t' == PullAll(t, AllLooked(interval, inputs)).(runs := t'.runs)
  {
    if inputs != [] {
      var front, input := inputs[..|inputs| - 1], inputs[|inputs| - 1];
      SweepsBackfill(t, interval, front);
      var before := AfterSweeps(t, interval, front);
      PullIgnoresRuns(PullAll(t, AllLooked(interval, front)), before.runs, Looked(interval, input));
      PullConcat(t, AllLooked(interval, front), Looked(interval, input));
    } else {
      assert PullAll(t, []) == t;
    }
  }

  /** A due credit in the list of any one org is marked, whatever fails for the others. */
  lemma SweepsMark(t: Tables, interval: nat, inputs: seq<SweepInput>, k: nat, x: ProviderTxn)
    requires k < |inputs| && FaultFree(x) in Looked(interval, inputs[k]) && CreditDue(t.accounts, x)
    ensures x.id in AfterSweeps(t, interval, inputs).processed
  {
    SweepsBackfill(t, interval, inputs);
    InAllLooked(interval, inputs, k, FaultFree(x));
    BackfillLaw(t, AllLooked(interval, inputs), Everyone(), x.id);
    assert x.id in MarkedIds(t.accounts, AllLooked(interval, inputs));
  }

  lemma {:induction false} InAllLooked(interval: nat, inputs: seq<SweepInput>, k: nat, p: Pull)
    requires k < |inputs| && p in Looked(interval, inputs[k])
    ensures p in AllLooked(interval, inputs)
  {
    if k < |inputs| - 1 {
      InAllLooked(interval, inputs[..|inputs| - 1], k, p);
    }
  }

  /** The orgs among the first n of the sweep whose wallet check reaches its end. */
  function Checked(t: Tables, inputs: seq<SweepInput>): seq<SweepInput> {
    if inputs == [] then []
    else
      var rest, input := Checked(t, inputs[..|inputs| - 1]), inputs[|inputs| - 1];
      var w := input.wallet;
      if w.clientUp && w.wallet.Some? && System(input.org, Pool) in t.systemAccounts && w.storeUp && w.persistUp
      then rest + [input] else rest
  }

  /** One row for every such org, in order, and no other row. */
  lemma {:induction false} SweepsRecord(t: Tables, interval: nat, inputs: seq<SweepInput>)
    ensures var rows, checked := AfterSweeps(t, interval, inputs).runs, Checked(t, inputs);
      && |rows| == |t.runs| + |checked| && rows[..|t.runs|] == t.runs
      && forall i :: 0 <= i < |checked| ==> rows[|t.runs| + i].org == checked[i].org
    ensures AfterSweeps(t, interval, inputs).systemAccounts == t.systemAccounts
  {
    if inputs != [] {
      var front, input := inputs[..|inputs| - 1], inputs[|inputs| - 1];
      SweepsRecord(t, interval, front);
      var before := AfterSweeps(t, interval, front);
      PullIgnoresRuns(before, before.runs, Looked(interval, input));
    }
  }

  /** The row of an org compares its wallet with its pool as its own backfill left it. */
  lemma SweepRecords(t: Tables, interval: nat, input: SweepInput)
    requires var w := input.wallet;
      w.clientUp && w.wallet.Some? && System(input.org, Pool) in t.systemAccounts && w.storeUp && w.persistUp
    ensures var t', kobo := AfterSweep(t, interval, input), NairaToKobo(input.wallet.wallet.value);
      var pool := Balance(PullAll(t, Looked(interval, input)).entries, System(input.org, Pool));
      && |t'.runs| == |t.runs| + 1 && t'.runs[..|t.runs|] == t.runs
      && var row := t'.runs[|t.runs|];
         && row.org == input.org && row.runAt == input.runAt
         && row.walletKobo == kobo && row.poolKobo == pool && row.delta == kobo - pool
         && (row.status == Ok <==> kobo == pool)
  {
    PullIgnoresRuns(t, t.runs, Looked(interval, input));
  }
}
