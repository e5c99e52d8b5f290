/** KYC tiers: upgrades under a row lock, each leaving one row in an append-only history. */
module Kyc {
  import opened Ledger

  const MIN_TIER := 1
  const MAX_TIER := 3

  datatype Change = Change(from: int, to: int, at: int)

  // `created` is the tier the customer was created with; the rows are in commit order.
  datatype Customer = Customer(org: OrgId, created: int, tier: int, rows: seq<Change>)

  datatype Request = Request(org: OrgId, customer: nat, to: int, at: int)

  // The row lock that SELECT ... FOR UPDATE takes, and the tier it returned.
  datatype RowLock = RowLock(conn: nat, read: int)

  // `open` holds the request behind each open transaction, `locks` the locked customer rows, and `commits`, a record of
  // the environment, when each row of a history was committed.
  datatype State = State(
    clock: int, customers: map<nat, Customer>, open: map<nat, Request>, locks: map<nat, RowLock>,
    commits: map<nat, seq<int>>)

  // A request reads its time when it begins.
  datatype Label =
    | Wait(seconds: nat)
    | Create(id: nat, owner: OrgId, tier: int)
    | Begin(conn: nat, asking: OrgId, customer: nat, to: int)
    | SelectForUpdate(conn: nat)
    | Commit(conn: nat)
    | Rollback(conn: nat)

  const INIT := State(0, map[], map[], map[], map[])

  predicate InRange(tier: int) { MIN_TIER <= tier <= MAX_TIER }

  predicate Locked(s: State, conn: nat) {
    conn in s.open && s.open[conn].customer in s.locks && s.locks[s.open[conn].customer].conn == conn
  }

  predicate Found(customers: map<nat, Customer>, org: OrgId, id: nat) {
    id in customers && customers[id].org == org
  }

  function Raised(c: Customer, from: int, to: int, at: int): Customer {
    c.(tier := to, rows := c.rows + [Change(from, to, at)])
  }

  // The transaction ends and gives up the lock it may hold.
  function Ended(s: State, conn: nat): State {
    s.(open := s.open - {conn}, locks := if Locked(s, conn) then s.locks - {s.open[conn].customer} else s.locks)
  }

  function Selected(s: State, conn: nat): State
    requires conn in s.open
  {
    var r := s.open[conn];
    if !Found(s.customers, r.org, r.customer) then Ended(s, conn)
    else if r.customer in s.locks then s
    else if r.to <= s.customers[r.customer].tier then Ended(s, conn)
    else s.(locks := s.locks[r.customer := RowLock(conn, s.customers[r.customer].tier)])
  }

  function CommitsOf(s: State, id: nat): seq<int> {
    if id in s.commits then s.commits[id] else []
  }

  function Committed(s: State, conn: nat): State
    requires Locked(s, conn)
  {
    var r := s.open[conn];
    if r.customer !in s.customers || !InRange(r.to) then Ended(s, conn)
    else
      var raised := Raised(s.customers[r.customer], s.locks[r.customer].read, r.to, r.at);
      State(s.clock, s.customers[r.customer := raised], s.open - {conn}, s.locks - {r.customer},
            s.commits[r.customer := CommitsOf(s, r.customer) + [s.clock]])
  }

  // A label that is not enabled leaves the state as it is: a SELECT waits for the lock, a finished connection does
  // nothing.
  function Step(s: State, l: Label): State {
    match l
    case Wait(seconds) => s.(clock := s.clock + seconds)
    case Create(id, org, tier) =>
      if id in s.customers || !InRange(tier) then s
      else s.(customers := s.customers[id := Customer(org, tier, tier, [])], commits := s.commits[id := []])
    case Begin(conn, org, id, to) =>
      if conn in s.open then s else s.(open := s.open[conn := Request(org, id, to, s.clock)])
    case SelectForUpdate(conn) => if conn in s.open then Selected(s, conn) else s
    case Commit(conn) => if Locked(s, conn) then Committed(s, conn) else s
    case Rollback(conn) => Ended(s, conn)
  }

  function Run(s: State, ls: seq<Label>): State {
    if ls == [] then s else Step(Run(s, ls[..|ls| - 1]), ls[|ls| - 1])
  }

  /** The rows lead from the creation tier to the current tier, each starting where the one before ended, always
      upwards. */
  ghost predicate Chain(c: Customer) {
    && (forall k :: 0 <= k < |c.rows| ==> c.rows[k].from < c.rows[k].to)
    && (forall k :: 0 <= k < |c.rows| - 1 ==> c.rows[k].to == c.rows[k + 1].from)
    && (if c.rows == [] then c.created == c.tier else c.rows[0].from == c.created && c.rows[|c.rows| - 1].to == c.tier)
  }

  ghost predicate Histories(s: State) {
    forall id <- s.customers ::
      Chain(s.customers[id]) && InRange(s.customers[id].created) && InRange(s.customers[id].tier)
  }

  /** While a row is locked, the tier that was read is its current tier. */
  ghost predicate LocksHold(s: State) {
    forall id <- s.locks ::
      && id in s.customers && s.locks[id].conn in s.open
      && var r := s.open[s.locks[id].conn];
         r.customer == id && r.org == s.customers[id].org && s.locks[id].read == s.customers[id].tier < r.to
  }

  ghost predicate Sound(s: State) {
    Histories(s) && LocksHold(s)
  }

  lemma RaisedIsChain(c: Customer, to: int, at: int)
    requires Chain(c) && c.tier < to
    ensures Chain(Raised(c, c.tier, to, at))
  {
  }

  lemma SelectedSound(s: State, conn: nat)
    requires Sound(s) && conn in s.open
    ensures Sound(Selected(s, conn))
  {
  }

  lemma EndedSound(s: State, conn: nat)
    requires Sound(s)
    ensures Sound(Ended(s, conn))
  {
  }

  lemma BegunSound(s: State, conn: nat, r: Request)
    requires Sound(s) && conn !in s.open
    ensures Sound(s.(open := s.open[conn := r]))
  {
  }

  lemma CommittedSound(s: State, conn: nat)
    requires Sound(s) && Locked(s, conn)
    ensures Sound(Committed(s, conn))
  {
    var r := s.open[conn];
    RaisedIsChain(s.customers[r.customer], r.to, r.at);
  }

  lemma StepSound(s: State, l: Label)
    requires Sound(s)
    ensures Sound(Step(s, l))
  {
    match l
    case Wait(_) =>
    case Create(_, _, _) =>
    case Begin(conn, org, id, to) =>
      if conn !in s.open {
        BegunSound(s, conn, Request(org, id, to, s.clock));
      }
    case SelectForUpdate(conn) =>
      if conn in s.open {
        SelectedSound(s, conn);
      }
    case Commit(conn) =>
      if Locked(s, conn) {
        CommittedSound(s, conn);
      }
    case Rollback(conn) => EndedSound(s, conn);
  }

  lemma {:induction false} RunSound(ls: seq<Label>)
    ensures Sound(Run(INIT, ls))
  {
    if ls != [] {
      RunSound(ls[..|ls| - 1]);
      StepSound(Run(INIT, ls[..|ls| - 1]), ls[|ls| - 1]);
    }
  }

  /** Under any interleaving of locked upgrades, crashes and rollbacks, every customer's history is such a chain,
      and no open upgrade holds a lock on a tier that has changed since it was read. */
  lemma HistoriesAreChains(ls: seq<Label>, id: nat)
    requires id in Run(INIT, ls).customers
    ensures var s := Run(INIT, ls);
      && Chain(s.customers[id]) && InRange(s.customers[id].tier)
      && (id in s.locks ==> s.locks[id].read == s.customers[id].tier)
  {
    RunSound(ls);
  }

  lemma {:induction false} ChainClimbs(c: Customer, k: nat)
    requires Chain(c) && k < |c.rows|
    ensures c.created + k <= c.rows[k].from
    ensures c.created + |c.rows| <= c.tier || k < |c.rows| - 1
  {
    if k > 0 {
      ChainClimbs(c, k - 1);
    }
  }

  /** Whatever was requested, a customer is upgraded at most twice, and never past tier 3. */
  lemma AtMostTwoUpgrades(ls: seq<Label>, id: nat)
    requires id in Run(INIT, ls).customers
    ensures var c := Run(INIT, ls).customers[id];
      |c.rows| <= c.tier - c.created <= MAX_TIER - MIN_TIER
  {
    RunSound(ls);
    var c := Run(INIT, ls).customers[id];
    if c.rows != [] {
      ChainClimbs(c, |c.rows| - 1);
    }
  }

  lemma RunAppend(s: State, ls: seq<Label>, l: Label)
    ensures Run(s, ls + [l]) == Step(Run(s, ls), l)
  {
    assert (ls + [l])[..|ls|] == ls;
  }

  lemma ThreeMore<T>(xs: seq<T>, a: T, b: T, c: T)
    ensures xs + [a] + [b] + [c] == xs + [a, b, c]
  {
  }

  lemma RunThree(s: State, ls: seq<Label>, a: Label, b: Label, c: Label)
    ensures Run(s, ls + [a, b, c]) == Step(Step(Step(Run(s, ls), a), b), c)
  {
    RunAppend(s, ls, a);
    RunAppend(s, ls + [a], b);
    RunAppend(s, ls + [a] + [b], c);
    ThreeMore(ls, a, b, c);
  }

  /** A lock and a commit with no other lock in between raise the tier by exactly the request, or reject it. */
  lemma LockAndCommit(s: State, conn: nat)
    requires conn in s.open
    requires var r := s.open[conn]; Found(s.customers, r.org, r.customer) && InRange(r.to) && r.customer !in s.locks
    ensures var r := s.open[conn];
      var c := s.customers[r.customer];
      Step(Step(s, SelectForUpdate(conn)), Commit(conn)) ==
        if c.tier < r.to
        then State(s.clock, s.customers[r.customer := Raised(c, c.tier, r.to, r.at)], s.open - {conn}, s.locks,
                   s.commits[r.customer := CommitsOf(s, r.customer) + [s.clock]])
        else s.(open := s.open - {conn})
  {
    var r := s.open[conn];
    if s.customers[r.customer].tier < r.to {
      var s1 := s.(locks := s.locks[r.customer := RowLock(conn, s.customers[r.customer].tier)]);
      assert Selected(s, conn) == s1 && s1.locks - {r.customer} == s.locks;
    }
  }

  // ----- one upgrade, start to end -----

  datatype UpgradeResult = Upgraded(change: Change) | BadTier | Downgrade | NoCustomer | StoreError

  class CustomerStore {
    var customers: map<nat, Customer>

    constructor ()
      ensures customers == map[]
    {
      customers := map[];
    }

    /** The request with its range check and the transaction behind it. `readUp` is false when BEGIN or the SELECT
        fails, `writeUp` when a statement after it or the commit does. */
    method UpgradeKYCTier(
        org: OrgId, id: nat, newTier: int, now: int, readUp: bool, writeUp: bool) returns (r: UpgradeResult)
      modifies this
      ensures r == BadTier <==> newTier < 1 || 3 < newTier
      ensures r == StoreError <==>
        1 <= newTier <= 3 &&
        (!readUp || (id in old(customers) && old(customers)[id].org == org &&
                     old(customers)[id].tier < newTier && !writeUp))
      ensures r == NoCustomer <==>
        1 <= newTier <= 3 && readUp && !(id in old(customers) && old(customers)[id].org == org)
      ensures r == Downgrade <==>
        1 <= newTier <= 3 && readUp &&
        id in old(customers) && old(customers)[id].org == org && newTier <= old(customers)[id].tier
      ensures r.Upgraded? <==>
        1 <= newTier <= 3 && readUp &&
        id in old(customers) && old(customers)[id].org == org && old(customers)[id].tier < newTier && writeUp
      ensures r.Upgraded? ==>
        var was := old(customers)[id];
        r.change == Change(was.tier, newTier, now) &&
        customers == old(customers)[id := was.(tier := newTier, rows := was.rows + [r.change])]
      ensures !r.Upgraded? ==> customers == old(customers)
    {
      if !InRange(newTier) {
        return BadTier;
      }
      if !readUp {
        return StoreError;
      }
      if id !in customers || customers[id].org != org {
        return NoCustomer;
      }
      var current := customers[id].tier;
      if newTier <= current {
        return Downgrade;
      }
      if !writeUp {
        return StoreError;
      }
      var change := Change(current, newTier, now);
      customers := customers[id := customers[id].(tier := newTier, rows := customers[id].rows + [change])];
      r := Upgraded(change);
    }
  }

  /** An upgrade that runs alone is one begin, one lock and one commit of the interleaved model. */
  lemma UpgradeIsASchedule(s: State, conn: nat, org: OrgId, id: nat, newTier: int)
    requires conn !in s.open && id in s.customers && s.customers[id].org == org
    requires 1 <= newTier <= 3 && id !in s.locks
    ensures var s' := Run(s, [Begin(conn, org, id, newTier), SelectForUpdate(conn), Commit(conn)]);
      var was := s.customers[id];
      && s'.open == s.open && s'.locks == s.locks
      && s'.customers ==
           if was.tier < newTier
           then s.customers[id := was.(tier := newTier, rows := was.rows + [Change(was.tier, newTier, s.clock)])]
           else s.customers
  {
    var r := Request(org, id, newTier, s.clock);
    var labels := [Begin(conn, org, id, newTier), SelectForUpdate(conn), Commit(conn)];
    assert [] + labels == labels;
    RunThree(s, [], Begin(conn, org, id, newTier), SelectForUpdate(conn), Commit(conn));
    var s1 := s.(open := s.open[conn := r]);
    assert s1.open - {conn} == s.open;
    LockAndCommit(s1, conn);
  }
}
