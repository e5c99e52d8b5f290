/** The tier history as it is listed, newest `upgraded_at` first, against the order in which the upgrades took place. */
module TierListing {
  import opened Ledger
  import opened Kyc

  /** An answer of ORDER BY upgraded_at DESC, with ties in any order. */
  ghost predicate IsListing(order: seq<Change>, rows: seq<Change>) {
    multiset(order) == multiset(rows) && Descends(order)
  }

  ghost predicate Descends(order: seq<Change>) {
    forall i, j :: 0 <= i < j < |order| ==> order[i].at >= order[j].at
  }

  /** The last upgrade first. */
  function Reversed(rows: seq<Change>): seq<Change> {
    if rows == [] then [] else [rows[|rows| - 1]] + Reversed(rows[..|rows| - 1])
  }

  /** Each upgrade carries a later time than the one before. */
  predicate Ascends(rows: seq<Change>) {
    forall k :: 0 < k < |rows| ==> rows[k - 1].at < rows[k].at
  }

  /** Every answer of the listing shows the upgrades in the order in which they took place. */
  ghost predicate ListedInOrder(rows: seq<Change>) {
    forall order :: IsListing(order, rows) ==> order == Reversed(rows)
  }

  lemma {:induction false} ReversedAt(rows: seq<Change>, k: nat)
    requires k < |rows|
    ensures |Reversed(rows)| == |rows| && Reversed(rows)[k] == rows[|rows| - 1 - k]
  {
    var front := rows[..|rows| - 1];
    if front != [] {
      ReversedAt(front, if k > 0 then k - 1 else 0);
    }
  }

  lemma {:induction false} AscendsAll(rows: seq<Change>, i: nat, j: nat)
    requires Ascends(rows) && i < j < |rows|
    ensures rows[i].at < rows[j].at
  {
    if i + 1 < j {
      AscendsAll(rows, i, j - 1);
    }
  }

  lemma FirstIsLatest(rows: seq<Change>, order: seq<Change>)
    requires rows != [] && Ascends(rows) && IsListing(order, rows)
    ensures order != [] && order[0] == rows[|rows| - 1]
  {
    var last := rows[|rows| - 1];
    assert last in multiset(order);
    var k :| 0 <= k < |order| && order[k] == last;
    assert order[0] in multiset(rows);
    var m :| 0 <= m < |rows| && rows[m] == order[0];
    if m < |rows| - 1 {
      AscendsAll(rows, m, |rows| - 1);
    }
  }

  lemma TailListing(front: seq<Change>, last: Change, order: seq<Change>)
    requires IsListing(order, front + [last]) && order != [] && order[0] == last
    ensures IsListing(order[1..], front)
  {
    assert order == [last] + order[1..];
    assert multiset(order[1..]) == multiset(order) - multiset{last};
    assert multiset(front) == multiset(front + [last]) - multiset{last};
  }

  lemma {:induction false} AscendingIsListedInOrder(rows: seq<Change>, order: seq<Change>)
    requires Ascends(rows) && IsListing(order, rows)
    ensures order == Reversed(rows)
  {
    if rows == [] {
      assert |multiset(order)| == 0;
    } else {
      var front, last := rows[..|rows| - 1], rows[|rows| - 1];
      FirstIsLatest(rows, order);
      assert rows == front + [last];
      TailListing(front, last, order);
      AscendingIsListedInOrder(front, order[1..]);
    }
  }

  lemma InsertPermutes(order: seq<Change>, k: nat, c: Change)
    requires k <= |order|
    ensures multiset(order[..k] + [c] + order[k..]) == multiset(order) + multiset{c}
  {
    assert order == order[..k] + order[k..];
  }

  lemma InsertDescends(order: seq<Change>, k: nat, c: Change)
    requires Descends(order) && k <= |order| && (k < |order| ==> order[k].at <= c.at)
    requires forall i :: 0 <= i < k ==> order[i].at > c.at
    ensures Descends(order[..k] + [c] + order[k..])
  {
    var wider := order[..k] + [c] + order[k..];
    forall i, j | 0 <= i < j < |wider| ensures wider[i].at >= wider[j].at {
      assert j < k ==> wider[j] == order[j];
      assert i < k ==> wider[i] == order[i];
      assert j > k ==> wider[j] == order[j - 1] && order[k].at >= order[j - 1].at;
      assert i > k ==> wider[i] == order[i - 1];
    }
  }

  // Where a change belongs in a listing: before everything that is not later.
  lemma Place(order: seq<Change>, c: Change) returns (k: nat)
    ensures k <= |order| && (forall i :: 0 <= i < k ==> order[i].at > c.at) && (k < |order| ==> order[k].at <= c.at)
  {
    k := 0;
    while k < |order| && order[k].at > c.at
      invariant 0 <= k <= |order|
      invariant forall i :: 0 <= i < k ==> order[i].at > c.at
    {
      k := k + 1;
    }
  }

  lemma {:induction false} SomeListing(rows: seq<Change>) returns (order: seq<Change>)
    ensures IsListing(order, rows)
  {
    if rows == [] {
      order := [];
    } else {
      var last := |rows| - 1;
      var front := SomeListing(rows[..last]);
      var k := Place(front, rows[last]);
      order := front[..k] + [rows[last]] + front[k..];
      InsertPermutes(front, k, rows[last]);
      InsertDescends(front, k, rows[last]);
      assert rows == rows[..last] + [rows[last]];
    }
  }

  // Two neighbours of equal time can be listed either way round.
  lemma NeighboursSwap(order: seq<Change>, rows: seq<Change>, m: nat)
    requires IsListing(order, rows) && m + 1 < |order| && order[m].at == order[m + 1].at
    ensures var swapped := order[m := order[m + 1]][m + 1 := order[m]];
      IsListing(swapped, rows) && swapped[m] == order[m + 1]
  {
    var swapped := order[m := order[m + 1]][m + 1 := order[m]];
    assert multiset(swapped) == multiset(order);
    forall i, j | 0 <= i < j < |swapped| ensures swapped[i].at >= swapped[j].at {
      assert swapped[i].at == order[i].at && swapped[j].at == order[j].at;
    }
  }

  // Where there is only one listing, neighbours that differ have different times.
  lemma NoTies(rows: seq<Change>, listed: seq<Change>, m: nat)
    requires IsListing(listed, rows) && forall order :: IsListing(order, rows) ==> order == listed
    requires m + 1 < |listed| && listed[m] != listed[m + 1]
    ensures listed[m].at > listed[m + 1].at
  {
    if listed[m].at == listed[m + 1].at {
      NeighboursSwap(listed, rows, m);
    }
  }

  /** The listing of a customer's history shows the upgrades in the order in which they took place if and only if each
      read a later time than the one before. */
  lemma ListedInOrderIff(c: Customer)
    requires Chain(c)
    ensures ListedInOrder(c.rows) <==> Ascends(c.rows)
  {
    var rows := c.rows;
    if Ascends(rows) {
      forall order | IsListing(order, rows) ensures order == Reversed(rows) {
        AscendingIsListedInOrder(rows, order);
      }
    } else if ListedInOrder(rows) {
      var order := SomeListing(rows);
      forall k | 0 < k < |rows| ensures rows[k - 1].at < rows[k].at {
        assert rows[k - 1].from < rows[k - 1].to == rows[k].from;
        var m := |rows| - 1 - k;
        ReversedAt(rows, m);
        ReversedAt(rows, m + 1);
        NoTies(rows, Reversed(rows), m);
      }
    }
  }

  // ----- whole runs -----

  /** Times are read before their commits, and no later than now. */
  ghost predicate Timed(s: State) {
    && s.commits.Keys == s.customers.Keys
    && (forall conn <- s.open :: s.open[conn].at <= s.clock)
    && forall id <- s.customers :: TimedRows(s.customers[id].rows, s.commits[id], s.clock)
  }

  ghost predicate TimedRows(rows: seq<Change>, commits: seq<int>, clock: int) {
    |commits| == |rows| && forall k :: 0 <= k < |rows| ==> rows[k].at <= commits[k] <= clock
  }

  lemma StepTimed(s: State, l: Label)
    requires Timed(s)
    ensures Timed(Step(s, l))
  {
  }

  lemma {:induction false} RunTimed(ls: seq<Label>)
    ensures Timed(Run(INIT, ls))
  {
    if ls != [] {
      RunTimed(ls[..|ls| - 1]);
      StepTimed(Run(INIT, ls[..|ls| - 1]), ls[|ls| - 1]);
    }
  }

  /** Each upgrade of the customer read its time after the previous one had committed. */
  ghost predicate OneAtATime(s: State, id: nat)
    requires id in s.customers
  {
    forall k :: 0 < k < |s.customers[id].rows| && k <= |CommitsOf(s, id)| ==>
      CommitsOf(s, id)[k - 1] < s.customers[id].rows[k].at
  }

  /** In every run whose upgrades of a customer do not overlap, that customer's listing is in order. */
  lemma SerialUpgradesListedInOrder(ls: seq<Label>, id: nat)
    requires id in Run(INIT, ls).customers && OneAtATime(Run(INIT, ls), id)
    ensures ListedInOrder(Run(INIT, ls).customers[id].rows)
  {
    RunTimed(ls);
    RunSound(ls);
    var s := Run(INIT, ls);
    assert TimedRows(s.customers[id].rows, s.commits[id], s.clock);
    ListedInOrderIff(s.customers[id]);
  }

  // The upgrade to `high` reads its time first, the one to `low` overtakes it.
  function Overtaken(org: OrgId, id: nat, a: nat, b: nat, low: int, high: int, wait: nat): seq<Label> {
    [Begin(a, org, id, high), Wait(wait), Begin(b, org, id, low)] + [SelectForUpdate(b), Commit(b)] +
      [SelectForUpdate(a), Commit(a)]
  }

  function Served(s: State, conn: nat): State {
    Step(Step(s, SelectForUpdate(conn)), Commit(conn))
  }

  lemma OvertakenSteps(s: State, org: OrgId, id: nat, a: nat, b: nat, low: int, high: int, wait: nat)
    ensures Run(s, Overtaken(org, id, a, b, low, high, wait)) ==
      Served(Served(Step(Step(Step(s, Begin(a, org, id, high)), Wait(wait)), Begin(b, org, id, low)), b), a)
  {
    var begins := [Begin(a, org, id, high), Wait(wait), Begin(b, org, id, low)];
    assert [] + begins == begins;
    RunThree(s, [], begins[0], begins[1], begins[2]);
    RunTwo(s, begins, SelectForUpdate(b), Commit(b));
    RunTwo(s, begins + [SelectForUpdate(b), Commit(b)], SelectForUpdate(a), Commit(a));
  }

  lemma OvertakenRows(s: State, org: OrgId, id: nat, a: nat, b: nat, low: int, high: int, wait: nat)
    requires Found(s.customers, org, id) && id !in s.locks && a != b && a !in s.open && b !in s.open
    requires s.customers[id].tier < low < high <= MAX_TIER && InRange(low)
    ensures var s' := Run(s, Overtaken(org, id, a, b, low, high, wait));
      id in s'.customers &&
      s'.customers[id] == Raised(Raised(s.customers[id], s.customers[id].tier, low, s.clock + wait), low, high, s.clock)
  {
    OvertakenSteps(s, org, id, a, b, low, high, wait);
    var first, second := Request(org, id, high, s.clock), Request(org, id, low, s.clock + wait);
    TwoRequests(s, org, id, a, b, low, high, wait);
    TwoCommits(s.(clock := s.clock + wait, open := s.open[a := first][b := second]), a, b);
  }

  lemma TwoRequests(s: State, org: OrgId, id: nat, a: nat, b: nat, low: int, high: int, wait: nat)
    requires a != b && a !in s.open && b !in s.open
    ensures Step(Step(Step(s, Begin(a, org, id, high)), Wait(wait)), Begin(b, org, id, low)) ==
      s.(clock := s.clock + wait,
         open := s.open[a := Request(org, id, high, s.clock)][b := Request(org, id, low, s.clock + wait)])
  {
  }

  // Two open requests of one customer, the lower served first.
  lemma TwoCommits(s: State, a: nat, b: nat)
    requires a != b && a in s.open && b in s.open && s.open[a].customer == s.open[b].customer
    requires s.open[a].org == s.open[b].org && Found(s.customers, s.open[a].org, s.open[a].customer)
    requires s.open[a].customer !in s.locks && InRange(s.open[a].to) && InRange(s.open[b].to)
    requires s.customers[s.open[a].customer].tier < s.open[b].to < s.open[a].to
    ensures var ra, rb, id := s.open[a], s.open[b], s.open[a].customer;
      var s2 := Served(Served(s, b), a);
      id in s2.customers &&
      s2.customers[id] == Raised(Raised(s.customers[id], s.customers[id].tier, rb.to, rb.at), rb.to, ra.to, ra.at)
  {
    LockAndCommit(s, b);
    LockAndCommit(Served(s, b), a);
  }

  /** From every state with two tiers to go, an overtaking upgrade leaves a history whose later row carries the earlier
      or equal time, and whose listing is therefore out of order. */
  lemma OvertakingBreaksListing(s: State, org: OrgId, id: nat, a: nat, b: nat, low: int, high: int, wait: nat)
    requires Sound(s) && Found(s.customers, org, id) && id !in s.locks && a != b && a !in s.open && b !in s.open
    requires s.customers[id].tier < low < high <= MAX_TIER
    ensures var c, s' := s.customers[id], Run(s, Overtaken(org, id, a, b, low, high, wait));
      && id in s'.customers
      && s'.customers[id].rows == c.rows + [Change(c.tier, low, s.clock + wait), Change(low, high, s.clock)]
      && !ListedInOrder(s'.customers[id].rows)
  {
    OvertakenRows(s, org, id, a, b, low, high, wait);
    var c := s.customers[id];
    var once := Raised(c, c.tier, low, s.clock + wait);
    var twice := Raised(once, low, high, s.clock);
    RaisedIsChain(c, low, s.clock + wait);
    RaisedIsChain(once, high, s.clock);
    assert twice.rows[|c.rows|].at >= twice.rows[|c.rows| + 1].at;
    ListedInOrderIff(twice);
  }

  lemma TwoMore<T>(xs: seq<T>, a: T, b: T)
    ensures xs + [a] + [b] == xs + [a, b]
  {
  }

  lemma RunTwo(s: State, ls: seq<Label>, a: Label, b: Label)
    ensures Run(s, ls + [a, b]) == Step(Step(Run(s, ls), a), b)
  {
    RunAppend(s, ls, a);
    RunAppend(s, ls + [a], b);
    TwoMore(ls, a, b);
  }
}
