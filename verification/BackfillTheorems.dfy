/** What one backfill run posts: exactly one entry for each new eligible id, whatever the list repeats. */
module BackfillTheorems {
  import opened Sums
  import opened Kobo
  import opened Ledger
  import opened Store
  import opened Posting
  import opened Backfill

  /** The rows that bring in outside money under an external reference. */
  function PostingOf(txn: string): Entry -> int {
    (e: Entry) =>
      if e.ref == txn && (e.entryType.InboundCredit? || e.entryType.SuspenseCredit? || e.entryType.BackfillCredit?)
      then 1 else 0
  }

  function Postings(t: Tables, txn: string): int {
    Sum(t.entries, PostingOf(txn))
  }

  /** Whether the loop would post this listed transaction if its id were new. */
  predicate Eligible(accounts: map<string, VirtualAccount>, p: Pull) {
    SuccessfulCredit(p.txn) && p.checkUp && p.lookupUp && Known(accounts, p.txn) &&
    NairaToKobo(p.txn.naira) > 0 && p.insert.failAt != Some(0) && p.insert.commits
  }

  predicate MarksSucceed(pulls: seq<Pull>) {
    forall p <- pulls :: p.markUp
  }

  /** The ids whose mark a run over the list makes persist. */
  ghost function MarkedIds(accounts: map<string, VirtualAccount>, pulls: seq<Pull>): set<string> {
    set p | p in pulls && Eligible(accounts, p) && p.markUp :: p.txn.id
  }

  ghost function NewIds(accounts: map<string, VirtualAccount>, processed: set<string>, pulls: seq<Pull>): set<string> {
    set p | p in pulls && Eligible(accounts, p) && p.txn.id !in processed :: p.txn.id
  }

  predicate Occurs(accounts: map<string, VirtualAccount>, pulls: seq<Pull>, i: int, txn: string) {
    0 <= i < |pulls| && Eligible(accounts, pulls[i]) && pulls[i].txn.id == txn
  }

  /** The eligible occurrences of an id up to and including the first whose mark persists. */
  ghost function PostedAt(accounts: map<string, VirtualAccount>, pulls: seq<Pull>, txn: string): set<int> {
    set i | 0 <= i < |pulls| && Occurs(accounts, pulls, i, txn) &&
      forall k :: 0 <= k < i && Occurs(accounts, pulls, k, txn) ==> !pulls[k].markUp
  }

  /** These occurrences for all new ids, in list order. */
  function Kept(accounts: map<string, VirtualAccount>, processed: set<string>, pulls: seq<Pull>): seq<Pull> {
    if pulls == [] then []
    else
      var front, p := pulls[..|pulls| - 1], pulls[|pulls| - 1];
      var kept := Kept(accounts, processed, front);
      if Eligible(accounts, p) && p.txn.id !in processed &&
         forall q <- front :: Eligible(accounts, q) && q.txn.id == p.txn.id ==> !q.markUp
      then kept + [p] else kept
  }

  function KoboInto(accounts: map<string, VirtualAccount>, scope: Scope): Pull -> int {
    (p: Pull) =>
      if Known(accounts, p.txn) && scope(Virtual(accounts[AccountNumber(p.txn)].id))
      then NairaToKobo(p.txn.naira) else 0
  }

  lemma PullOneEffect(t: Tables, p: Pull)
    ensures Eligible(t.accounts, p) && p.txn.id !in t.processed ==>
      var posted := Appended(t, PullBatch(t, p.txn));
      PullOne(t, p) == if p.markUp then Marked(posted, p.txn.id) else posted
    ensures !(Eligible(t.accounts, p) && p.txn.id !in t.processed) ==> PullOne(t, p) == t
  {
  }

  lemma PullOneShifts(t: Tables, p: Pull, scope: Scope, txn: string)
    requires Eligible(t.accounts, p) && p.txn.id !in t.processed
    ensures Total(PullOne(t, p).entries, scope) == Total(t.entries, scope) + KoboInto(t.accounts, scope)(p)
    ensures Postings(PullOne(t, p), txn) == Postings(t, txn) + (if p.txn.id == txn then 1 else 0)
  {
    PullOneEffect(t, p);
    var leg := PullBatch(t, p.txn)[0];
    assert PullOne(t, p).entries == t.entries + [leg];
    SingleLegShifts(t.entries, scope, leg);
    SumAppend(t.entries, leg, PostingOf(txn));
  }

  lemma MarkedIdsStep(accounts: map<string, VirtualAccount>, front: seq<Pull>, p: Pull)
    ensures var ids := MarkedIds(accounts, front);
      MarkedIds(accounts, front + [p]) == if Eligible(accounts, p) && p.markUp then ids + {p.txn.id} else ids
  {
    assert forall q <- front :: q in front + [p];
    assert p in front + [p];
  }

  lemma NewIdsStep(accounts: map<string, VirtualAccount>, processed: set<string>, front: seq<Pull>, p: Pull)
    ensures var ids := NewIds(accounts, processed, front);
      NewIds(accounts, processed, front + [p]) ==
        if Eligible(accounts, p) && p.txn.id !in processed then ids + {p.txn.id} else ids
  {
    assert forall q <- front :: q in front + [p];
    assert p in front + [p];
  }

  lemma KeptStep(accounts: map<string, VirtualAccount>, processed: set<string>, front: seq<Pull>, p: Pull)
    ensures Kept(accounts, processed, front + [p]) ==
      if Eligible(accounts, p) && p.txn.id !in processed + MarkedIds(accounts, front)
      then Kept(accounts, processed, front) + [p] else Kept(accounts, processed, front)
  {
    assert (front + [p])[..|front|] == front;
  }

  lemma PostedAtStep(accounts: map<string, VirtualAccount>, front: seq<Pull>, p: Pull, txn: string)
    ensures PostedAt(accounts, front + [p], txn) ==
      if Eligible(accounts, p) && p.txn.id == txn && txn !in MarkedIds(accounts, front)
      then PostedAt(accounts, front, txn) + {|front|} else PostedAt(accounts, front, txn)
  {
    var pulls, last := front + [p], |front|;
    assert forall i :: 0 <= i < last ==> (Occurs(accounts, pulls, i, txn) <==> Occurs(accounts, front, i, txn));
    if txn in MarkedIds(accounts, front) {
      var q :| q in front && Eligible(accounts, q) && q.markUp && q.txn.id == txn;
      var k :| 0 <= k < last && front[k] == q;
      assert Occurs(accounts, pulls, k, txn);
    } else {
      assert forall k :: 0 <= k < last && Occurs(accounts, front, k, txn) ==> front[k] in front;
    }
  }

  /** What one run does, whether or not its marks persist. */
  ghost predicate Backfills(t: Tables, t': Tables, pulls: seq<Pull>, scope: Scope, txn: string) {
    var kept := Kept(t.accounts, t.processed, pulls);
    && t'.accounts == t.accounts
    && t'.processed == t.processed + MarkedIds(t.accounts, pulls)
    && t.entries <= t'.entries && |t'.entries| == |t.entries| + |kept|
    && Postings(t', txn) == Postings(t, txn) + (if txn in t.processed then 0 else |PostedAt(t.accounts, pulls, txn)|)
    && Total(t'.entries, scope) == Total(t.entries, scope) + Sum(kept, KoboInto(t.accounts, scope))
  }

  lemma OneMorePosted(
      t: Tables, t': Tables, t'': Tables, front: seq<Pull>, p: Pull, leg: Entry, scope: Scope, txn: string)
    requires Backfills(t, t', front, scope, txn)
    requires Eligible(t.accounts, p) && p.txn.id !in t'.processed
    requires t''.accounts == t'.accounts && t''.entries == t'.entries + [leg]
    requires t''.processed == if p.markUp then t'.processed + {p.txn.id} else t'.processed
    requires Postings(t'', txn) == Postings(t', txn) + (if p.txn.id == txn then 1 else 0)
    requires Total(t''.entries, scope) == Total(t'.entries, scope) + KoboInto(t.accounts, scope)(p)
    ensures Backfills(t, t'', front + [p], scope, txn)
  {
    MarkedIdsStep(t.accounts, front, p);
    KeptStep(t.accounts, t.processed, front, p);
    PostedAtStep(t.accounts, front, p, txn);
    SumAppend(Kept(t.accounts, t.processed, front), p, KoboInto(t.accounts, scope));
  }

  lemma BackfillStepPosts(t: Tables, t': Tables, front: seq<Pull>, p: Pull, scope: Scope, txn: string)
    requires Backfills(t, t', front, scope, txn)
    requires Eligible(t.accounts, p) && p.txn.id !in t'.processed
    ensures Backfills(t, PullOne(t', p), front + [p], scope, txn)
  {
    PullOneEffect(t', p);
    PullOneShifts(t', p, scope, txn);
    OneMorePosted(t, t', PullOne(t', p), front, p, PullBatch(t', p.txn)[0], scope, txn);
  }

  lemma BackfillStepSkips(t: Tables, t': Tables, front: seq<Pull>, p: Pull, scope: Scope, txn: string)
    requires Backfills(t, t', front, scope, txn)
    requires !(Eligible(t.accounts, p) && p.txn.id !in t'.processed)
    ensures Backfills(t, PullOne(t', p), front + [p], scope, txn)
  {
    PullOneEffect(t', p);
    MarkedIdsStep(t.accounts, front, p);
    KeptStep(t.accounts, t.processed, front, p);
    PostedAtStep(t.accounts, front, p, txn);
  }

  /** The law of the loop, for any list and any marks: an unmarked id is posted once for each eligible occurrence up to
      and including the first whose mark persists, and money comes in from exactly these occurrences. */
  lemma {:induction false} BackfillLaw(t: Tables, pulls: seq<Pull>, scope: Scope, txn: string)
    ensures Backfills(t, PullAll(t, pulls), pulls, scope, txn)
  {
    if pulls != [] {
      var front, p := pulls[..|pulls| - 1], pulls[|pulls| - 1];
      BackfillLaw(t, front, scope, txn);
      assert pulls == front + [p];
      var t' := PullAll(t, front);
      if Eligible(t.accounts, p) && p.txn.id !in t'.processed {
        BackfillStepPosts(t, t', front, p, scope, txn);
      } else {
        BackfillStepSkips(t, t', front, p, scope, txn);
      }
    }
  }

  lemma {:induction false} NextOccurrence(
      accounts: map<string, VirtualAccount>, pulls: seq<Pull>, from: nat, m: nat, txn: string) returns (k: nat)
    requires from <= m && Occurs(accounts, pulls, m, txn)
    ensures from <= k <= m && Occurs(accounts, pulls, k, txn)
    ensures forall i :: from <= i < k ==> !Occurs(accounts, pulls, i, txn)
  {
    k := from;
    while !Occurs(accounts, pulls, k, txn)
      invariant from <= k <= m
      invariant forall i :: from <= i < k ==> !Occurs(accounts, pulls, i, txn)
      decreases m - k
    {
      k := k + 1;
    }
  }

  predicate IsFirst(accounts: map<string, VirtualAccount>, pulls: seq<Pull>, k: int, txn: string) {
    Occurs(accounts, pulls, k, txn) && forall i :: 0 <= i < k ==> !Occurs(accounts, pulls, i, txn)
  }

  /** The mark of the first eligible occurrence persists, or no other eligible occurrence follows. */
  ghost predicate FirstMarkCounts(accounts: map<string, VirtualAccount>, pulls: seq<Pull>, txn: string) {
    forall k, m :: k < m && IsFirst(accounts, pulls, k, txn) && Occurs(accounts, pulls, m, txn) ==> pulls[k].markUp
  }

  lemma FirstIsPosted(accounts: map<string, VirtualAccount>, pulls: seq<Pull>, m: nat, txn: string) returns (k: nat)
    requires Occurs(accounts, pulls, m, txn)
    ensures k <= m && IsFirst(accounts, pulls, k, txn) && k in PostedAt(accounts, pulls, txn)
  {
    k := NextOccurrence(accounts, pulls, 0, m, txn);
  }

  lemma NoOtherPosting(accounts: map<string, VirtualAccount>, pulls: seq<Pull>, m: int, txn: string)
    requires FirstMarkCounts(accounts, pulls, txn) && m in PostedAt(accounts, pulls, txn)
    ensures IsFirst(accounts, pulls, m, txn)
  {
    var k := FirstIsPosted(accounts, pulls, m, txn);
    assert k == m;
  }

  lemma PostedOnceMeans(accounts: map<string, VirtualAccount>, pulls: seq<Pull>, txn: string)
    ensures |PostedAt(accounts, pulls, txn)| <= 1 <==> FirstMarkCounts(accounts, pulls, txn)
  {
    var posted := PostedAt(accounts, pulls, txn);
    AtMostOneElement(posted);
    if FirstMarkCounts(accounts, pulls, txn) {
      forall x, y | x in posted && y in posted ensures x == y {
        NoOtherPosting(accounts, pulls, x, txn);
        NoOtherPosting(accounts, pulls, y, txn);
      }
    } else {
      var k, m :| k < m && IsFirst(accounts, pulls, k, txn) && Occurs(accounts, pulls, m, txn) && !pulls[k].markUp;
      var next := NextOccurrence(accounts, pulls, k + 1, m, txn);
      assert k in posted && next in posted;
    }
  }

  /** The ignored error of the mark is what at-most-once hangs on: a run posts an unmarked id at most once exactly when
      the mark of its first eligible occurrence persists or no other one follows. */
  lemma PostedOnceIff(t: Tables, pulls: seq<Pull>, txn: string)
    requires txn !in t.processed
    ensures Postings(PullAll(t, pulls), txn) <= Postings(t, txn) + 1 <==> FirstMarkCounts(t.accounts, pulls, txn)
  {
    BackfillLaw(t, pulls, Everyone(), txn);
    PostedOnceMeans(t.accounts, pulls, txn);
  }

  /** The condition does fail: from any tables, a posting whose mark is lost is followed by a second one. */
  lemma LostMarkPostsTwice(t: Tables, p: Pull, q: Pull)
    requires Eligible(t.accounts, p) && Eligible(t.accounts, q) && p.txn.id == q.txn.id && p.txn.id !in t.processed
    requires !p.markUp
    ensures !FirstMarkCounts(t.accounts, [p, q], p.txn.id)
    ensures Postings(PullAll(t, [p, q]), p.txn.id) == Postings(t, p.txn.id) + 2
  {
    var pulls, id := [p, q], p.txn.id;
    assert IsFirst(t.accounts, pulls, 0, id) && Occurs(t.accounts, pulls, 1, id);
    BackfillLaw(t, pulls, Everyone(), id);
    assert PostedAt(t.accounts, pulls, id) == {0, 1};
  }

  /** With persisting marks: one mark and one posting for each new eligible id. */
  ghost predicate BackfillsExactly(t: Tables, t': Tables, pulls: seq<Pull>, scope: Scope, txn: string) {
    var ids := NewIds(t.accounts, t.processed, pulls);
    && t'.accounts == t.accounts
    && t'.processed == t.processed + ids
    && t.entries <= t'.entries && |t'.entries| == |t.entries| + |ids|
    && Postings(t', txn) == Postings(t, txn) + (if txn in ids then 1 else 0)
    && Total(t'.entries, scope) ==
         Total(t.entries, scope) + Sum(Kept(t.accounts, t.processed, pulls), KoboInto(t.accounts, scope))
  }

  // When the marks succeed, the marked ids and the new ids differ only by ids that were marked before.
  lemma MarkedIsNew(accounts: map<string, VirtualAccount>, processed: set<string>, pulls: seq<Pull>)
    requires MarksSucceed(pulls)
    ensures processed + MarkedIds(accounts, pulls) == processed + NewIds(accounts, processed, pulls)
  {
  }

  lemma {:induction false} KeptOncePerId(
      accounts: map<string, VirtualAccount>, processed: set<string>, pulls: seq<Pull>)
    requires MarksSucceed(pulls)
    ensures |Kept(accounts, processed, pulls)| == |NewIds(accounts, processed, pulls)|
  {
    if pulls != [] {
      var front, p := pulls[..|pulls| - 1], pulls[|pulls| - 1];
      KeptOncePerId(accounts, processed, front);
      assert pulls == front + [p];
      NewIdsStep(accounts, processed, front, p);
      KeptStep(accounts, processed, front, p);
      MarkedIsNew(accounts, processed, front);
    }
  }

  lemma PostedIffNew(t: Tables, pulls: seq<Pull>, txn: string)
    requires MarksSucceed(pulls) && txn !in t.processed
    ensures |PostedAt(t.accounts, pulls, txn)| == if txn in NewIds(t.accounts, t.processed, pulls) then 1 else 0
  {
    var posted := PostedAt(t.accounts, pulls, txn);
    assert forall k :: 0 <= k < |pulls| ==> pulls[k] in pulls;
    PostedOnceMeans(t.accounts, pulls, txn);
    if txn in NewIds(t.accounts, t.processed, pulls) {
      var p :| p in pulls && Eligible(t.accounts, p) && p.txn.id == txn;
      var m :| 0 <= m < |pulls| && pulls[m] == p;
      var k := FirstIsPosted(t.accounts, pulls, m, txn);
    } else {
      assert posted == {};
    }
  }

  /** One run over any list, with repeats and mixed types, when the marks succeed. */
  lemma BackfillExact(t: Tables, pulls: seq<Pull>, scope: Scope, txn: string)
    requires MarksSucceed(pulls)
    ensures BackfillsExactly(t, PullAll(t, pulls), pulls, scope, txn)
  {
    BackfillLaw(t, pulls, scope, txn);
    KeptOncePerId(t.accounts, t.processed, pulls);
    MarkedIsNew(t.accounts, t.processed, pulls);
    if txn !in t.processed {
      PostedIffNew(t, pulls, txn);
    }
  }

  lemma {:induction false} NothingToPull(t: Tables, pulls: seq<Pull>)
    requires forall p <- pulls :: Eligible(t.accounts, p) ==> p.txn.id in t.processed
    ensures PullAll(t, pulls) == t
  {
    if pulls != [] {
      NothingToPull(t, pulls[..|pulls| - 1]);
      PullOneEffect(t, pulls[|pulls| - 1]);
    }
  }

  /** A second run over the same list changes nothing at all. */
  lemma BackfillTwice(t: Tables, pulls: seq<Pull>)
    requires MarksSucceed(pulls)
    ensures PullAll(PullAll(t, pulls), pulls) == PullAll(t, pulls)
  {
    BackfillExact(t, pulls, Everyone(), "");
    var t' := PullAll(t, pulls);
    forall p <- pulls | Eligible(t'.accounts, p)
      ensures p.txn.id in t'.processed
    {
      assert p.txn.id in t.processed || p.txn.id in NewIds(t.accounts, t.processed, pulls);
    }
    NothingToPull(t', pulls);
  }
}
