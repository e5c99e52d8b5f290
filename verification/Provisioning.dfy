/** Virtual account provisioning: one account per customer for ever, under overlapping creates and closes. */
module Provisioning {
  import opened Ledger
  import opened Store

  // The account_ref of a row is its customer's id.
  datatype Row = Row(id: nat, org: OrgId, customer: nat, number: string, status: AccountStatus)

  // A create that found no active account and is on its way to the provider and the insert.
  datatype Creating = Asked(org: OrgId, customer: nat) | Over

  // `replies` records every (customer, account id) that a create returned.
  datatype State = State(
    customers: map<nat, OrgId>, rows: seq<Row>, creating: seq<Creating>, replies: seq<(nat, nat)>, nextId: nat)

  datatype Label =
    | Register(customer: nat, owner: OrgId)
    | Look(asking: OrgId, customer: nat, listUp: bool)
    | Persist(j: nat, number: string, rowUp: bool, versionUp: bool)
    | Stop(j: nat)
    | Close(asking: OrgId, id: nat)

  const INIT := State(map[], [], [], [], 0)

  predicate IsActive(r: Row, org: OrgId, customer: nat) {
    r.customer == customer && r.org == org && r.status == Active
  }

  /** The newest active account of the customer. */
  function FirstActive(rows: seq<Row>, org: OrgId, customer: nat): Option<Row> {
    if rows == [] then None
    else if IsActive(rows[|rows| - 1], org, customer) then Some(rows[|rows| - 1])
    else FirstActive(rows[..|rows| - 1], org, customer)
  }

  predicate HasActive(rows: seq<Row>, org: OrgId, customer: nat) {
    exists r <- rows :: r.customer == customer && r.org == org && r.status == Active
  }

  /** UNIQUE (account_ref) and UNIQUE (bank_account_number). */
  predicate Unique(rows: seq<Row>, customer: nat, number: string) {
    forall r <- rows :: r.customer != customer && r.number != number
  }

  // Whether the provider and the row insert both work out.
  predicate Persists(rows: seq<Row>, customer: nat, number: string, rowUp: bool) {
    rowUp && Unique(rows, customer, number)
  }

  function CloseRow(rows: seq<Row>, org: OrgId, id: nat): seq<Row> {
    seq(|rows|, i requires 0 <= i < |rows| =>
      if rows[i].id == id && rows[i].org == org then rows[i].(status := Closed) else rows[i])
  }

  function StepLook(s: State, org: OrgId, customer: nat, listUp: bool): State {
    if customer !in s.customers || s.customers[customer] != org then s
    else
      var found := FirstActive(s.rows, org, customer);
      if listUp && found.Some? then s.(replies := s.replies + [(customer, found.value.id)])
      else s.(creating := s.creating + [Asked(org, customer)])
  }

  function StepPersist(s: State, j: nat, number: string, rowUp: bool, versionUp: bool): State {
    if j < |s.creating| && s.creating[j].Asked? then
      var Asked(org, customer) := s.creating[j];
      var over := s.(creating := s.creating[j := Over]);
      if !Persists(s.rows, customer, number, rowUp) then over
      else
        var added := over.(rows := s.rows + [Row(s.nextId, org, customer, number, Active)], nextId := s.nextId + 1);
        if versionUp then added.(replies := s.replies + [(customer, s.nextId)]) else added
    else s
  }

  function Step(s: State, l: Label): State {
    match l
    case Register(customer, org) => if customer in s.customers then s else s.(customers := s.customers[customer := org])
    case Look(org, customer, listUp) => StepLook(s, org, customer, listUp)
    case Persist(j, number, rowUp, versionUp) => StepPersist(s, j, number, rowUp, versionUp)
    case Stop(j) => if j < |s.creating| then s.(creating := s.creating[j := Over]) else s
    case Close(org, id) => s.(rows := CloseRow(s.rows, org, id))
  }

  function Run(s: State, ls: seq<Label>): State {
    if ls == [] then s else Step(Run(s, ls[..|ls| - 1]), ls[|ls| - 1])
  }

  // ----- one account per customer -----

  ghost predicate RowsOk(s: State) {
    && (forall i, j :: 0 <= i < j < |s.rows| ==>
          s.rows[i].customer != s.rows[j].customer && s.rows[i].number != s.rows[j].number &&
            s.rows[i].id != s.rows[j].id)
    && (forall i :: 0 <= i < |s.rows| ==> s.rows[i].id < s.nextId)
  }

  ghost predicate Belongs(rows: seq<Row>, customer: nat, id: nat) {
    exists i :: 0 <= i < |rows| && rows[i].customer == customer && rows[i].id == id
  }

  ghost predicate Sound(s: State) {
    RowsOk(s) && forall p <- s.replies :: Belongs(s.rows, p.0, p.1)
  }

  lemma {:induction false} FirstActiveFound(rows: seq<Row>, org: OrgId, customer: nat)
    ensures var found := FirstActive(rows, org, customer);
      && (found.Some? ==> exists i :: 0 <= i < |rows| && rows[i] == found.value && IsActive(rows[i], org, customer))
      && (found.None? ==> forall r <- rows :: !IsActive(r, org, customer))
  {
    if rows != [] {
      FirstActiveFound(rows[..|rows| - 1], org, customer);
    }
  }

  lemma BelongsLater(s: State, s': State)
    requires |s.rows| <= |s'.rows| && s'.replies == s.replies
    requires forall i :: 0 <= i < |s.rows| ==>
      s'.rows[i].customer == s.rows[i].customer && s'.rows[i].id == s.rows[i].id
    requires forall p <- s.replies :: Belongs(s.rows, p.0, p.1)
    ensures forall p <- s'.replies :: Belongs(s'.rows, p.0, p.1)
  {
    forall p <- s.replies ensures Belongs(s'.rows, p.0, p.1) {
      var i :| 0 <= i < |s.rows| && s.rows[i].customer == p.0 && s.rows[i].id == p.1;
      assert s'.rows[i].customer == p.0;
    }
  }

  lemma PersistSound(s: State, j: nat, number: string, rowUp: bool, versionUp: bool)
    requires Sound(s)
    ensures Sound(StepPersist(s, j, number, rowUp, versionUp))
  {
    var s' := StepPersist(s, j, number, rowUp, versionUp);
    if |s'.rows| > |s.rows| {
      BelongsLater(s, s'.(replies := s.replies));
      var row := s'.rows[|s.rows|];
      assert Belongs(s'.rows, row.customer, row.id);
    }
  }

  lemma StepSound(s: State, l: Label)
    requires Sound(s)
    ensures Sound(Step(s, l))
  {
    match l
    case Look(org, customer, _) => FirstActiveFound(s.rows, org, customer);
    case Persist(j, number, rowUp, versionUp) => PersistSound(s, j, number, rowUp, versionUp);
    case Close(org, id) => BelongsLater(s, Step(s, l));
    case _ =>
  }

  /** Every reachable state is sound. */
  lemma {:induction false} RunSound(ls: seq<Label>)
    ensures Sound(Run(INIT, ls))
  {
    if ls != [] {
      RunSound(ls[..|ls| - 1]);
      StepSound(Run(INIT, ls[..|ls| - 1]), ls[|ls| - 1]);
    }
  }

  /** However creates overlap, a customer never has two accounts, and all answers for one customer name the same
      account. */
  lemma OneAccountPerCustomer(ls: seq<Label>, i: nat, k: nat)
    ensures var s := Run(INIT, ls);
      && (i < |s.rows| && k < |s.rows| && s.rows[i].customer == s.rows[k].customer ==> i == k)
      && (i < |s.replies| && k < |s.replies| && s.replies[i].0 == s.replies[k].0 ==> s.replies[i].1 == s.replies[k].1)
  {
    RunSound(ls);
    var s := Run(INIT, ls);
    if i < |s.replies| && k < |s.replies| && s.replies[i].0 == s.replies[k].0 {
      var p, q := s.replies[i], s.replies[k];
      assert p in s.replies && q in s.replies;
      var m :| 0 <= m < |s.rows| && s.rows[m].customer == p.0 && s.rows[m].id == p.1;
      var n :| 0 <= n < |s.rows| && s.rows[n].customer == q.0 && s.rows[n].id == q.1;
      assert m == n;
    }
  }

  // ----- a closed account is the customer's last -----

  ghost predicate ClosedFor(s: State, m: nat, customer: nat) {
    m < |s.rows| && s.rows[m].customer == customer && s.rows[m].status == Closed
  }

  function AnswersTo(replies: seq<(nat, nat)>, customer: nat): nat {
    if replies == [] then 0
    else AnswersTo(replies[..|replies| - 1], customer) + (if replies[|replies| - 1].0 == customer then 1 else 0)
  }

  lemma AnswersAppend(replies: seq<(nat, nat)>, p: (nat, nat), customer: nat)
    ensures AnswersTo(replies + [p], customer) == AnswersTo(replies, customer) + (if p.0 == customer then 1 else 0)
  {
    assert (replies + [p])[..|replies|] == replies;
  }

  lemma ClosedStep(s: State, l: Label, m: nat, customer: nat)
    requires Sound(s) && ClosedFor(s, m, customer)
    ensures ClosedFor(Step(s, l), m, customer)
    ensures AnswersTo(Step(s, l).replies, customer) == AnswersTo(s.replies, customer)
  {
    match l
    case Look(org, c, _) =>
      FirstActiveFound(s.rows, org, c);
      var found := FirstActive(s.rows, org, c);
      if found.Some? {
        AnswersAppend(s.replies, (c, found.value.id), customer);
      }
    case Persist(j, number, _, _) =>
      if j < |s.creating| && s.creating[j].Asked? {
        assert s.rows[m] in s.rows;
        AnswersAppend(s.replies, (s.creating[j].customer, s.nextId), customer);
      }
    case _ =>
  }

  /** Once the account of a customer is closed no create ever answers that customer again: the unique account_ref
      refuses a second row, so create is idempotent only while the account is active. */
  lemma {:induction false} ClosedIsFinal(s: State, ls: seq<Label>, m: nat, customer: nat)
    requires Sound(s) && ClosedFor(s, m, customer)
    ensures var s' := Run(s, ls);
      Sound(s') && ClosedFor(s', m, customer) && AnswersTo(s'.replies, customer) == AnswersTo(s.replies, customer)
  {
    if ls != [] {
      var front, l := ls[..|ls| - 1], ls[|ls| - 1];
      ClosedIsFinal(s, front, m, customer);
      StepSound(Run(s, front), l);
      ClosedStep(Run(s, front), l, m, customer);
    }
  }

  // ----- one create, start to end -----

  // What happens outside during one create: the listing, the provider's answer, and the two inserts.
  datatype Outside = Outside(listUp: bool, clientUp: bool, number: Option<string>, rowUp: bool, versionUp: bool)

  class AccountService {
    var customers: map<nat, OrgId>
    var rows: seq<Row>
    var nextId: nat

    constructor (customers: map<nat, OrgId>)
      ensures this.customers == customers && rows == [] && nextId == 0
    {
      this.customers, rows, nextId := customers, [], 0;
    }

    ghost function View(): State
      reads this
    {
      State(customers, rows, [], [], nextId)
    }

    predicate IsCustomer(org: OrgId, customer: nat)
      reads this
    {
      customer in customers && customers[customer] == org
    }

    method Create(org: OrgId, customer: nat, env: Outside) returns (id: Option<nat>)
      modifies this`rows, this`nextId
      // An unknown customer, or a customer of another org.
      ensures !IsCustomer(org, customer) ==> id == None && rows == old(rows)
      // An active account is returned as it is.
      ensures IsCustomer(org, customer) && env.listUp && HasActive(old(rows), org, customer) ==>
        id.Some? && rows == old(rows) &&
        exists r <- rows :: r.id == id.value && r.customer == customer && r.org == org && r.status == Active
      // Otherwise one row is added, unless the provider or the insert fails or one of its unique columns is taken.
      ensures IsCustomer(org, customer) && !(env.listUp && HasActive(old(rows), org, customer)) ==>
        var added := env.clientUp && env.number.Some? && env.rowUp &&
          forall r <- old(rows) :: r.customer != customer && r.number != env.number.value;
        && rows == old(rows) + (if added then [Row(old(nextId), org, customer, env.number.value, Active)] else [])
        && id == if added && env.versionUp then Some(old(nextId)) else None
      ensures var s := StepLook(old(View()), org, customer, env.listUp);
        var s' :=
          if env.clientUp && env.number.Some? then StepPersist(s, 0, env.number.value, env.rowUp, env.versionUp) else s;
        && View() == s'.(creating := [], replies := [])
        && s'.replies == if id.Some? then [(customer, id.value)] else []
    {
      if customer !in customers || customers[customer] != org {
        return None;
      }
      FirstActiveFound(rows, org, customer);
      if env.listUp {
        var existing := Newest(rows, org, customer);
        if existing.Some? {
          return Some(existing.value.id);
        }
      }
      if !env.clientUp || env.number.None? {
        return None;
      }
      if !Persists(rows, customer, env.number.value, env.rowUp) {
        return None;
      }
      var va := Row(nextId, org, customer, env.number.value, Active);
      rows, nextId := rows + [va], nextId + 1;
      if !env.versionUp {
        return None;
      }
      id := Some(va.id);
    }

    static method Newest(rows: seq<Row>, org: OrgId, customer: nat) returns (found: Option<Row>)
      ensures found == FirstActive(rows, org, customer)
    {
      var i := |rows|;
      assert rows[..i] == rows;
      while i > 0
        invariant 0 <= i <= |rows| && FirstActive(rows, org, customer) == FirstActive(rows[..i], org, customer)
      {
        i := i - 1;
        assert rows[..i + 1][..i] == rows[..i];
        if IsActive(rows[i], org, customer) {
          return Some(rows[i]);
        }
      }
      found := None;
    }

    method CloseAccount(org: OrgId, id: nat, up: bool) returns (ok: bool)
      modifies this`rows
      ensures ok <==> up && exists r <- old(rows) :: r.id == id && r.org == org && r.status == Active
      ensures |rows| == |old(rows)|
      ensures forall i :: 0 <= i < |rows| ==>
        var was := old(rows)[i];
        rows[i] == if ok && was.id == id && was.org == org then was.(status := Closed) else was
    {
      ok := up && exists r <- rows :: r.id == id && r.org == org && r.status == Active;
      if ok {
        rows := CloseRow(rows, org, id);
      }
    }
  }

  /** In every reachable state a fault-free create answers exactly when the customer's account is active, or it has none
      and the number is new. */
  lemma CreateAnswersIff(ls: seq<Label>, org: OrgId, customer: nat, number: string)
    requires var s := Run(INIT, ls); customer in s.customers && s.customers[customer] == org
    ensures var s := Run(INIT, ls);
      var s' := StepPersist(StepLook(s, org, customer, true), |s.creating|, number, true, true);
      |s'.replies| > |s.replies| <==>
        || (exists r <- s.rows :: r.customer == customer && r.org == org && r.status == Active)
        || (forall r <- s.rows :: r.customer != customer && r.number != number)
  {
    FirstActiveFound(Run(INIT, ls).rows, org, customer);
  }
}
