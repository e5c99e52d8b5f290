/** Identity versions: every rename closes the current version and opens the next. */
module Identity {
  import opened Sums
  import opened Store

  datatype Version = Version(id: nat, name: string, from: int, to: Option<int>)

  function IsOpen(): Version -> int { (v: Version) => if v.to.None? then 1 else 0 }

  function OpenCount(vs: seq<Version>): int { Sum(vs, IsOpen()) }

  /** UNIQUE (customer_id, effective_to): no other version was closed at that very instant. */
  predicate CanClose(vs: seq<Version>, i: nat, at: int) {
    forall k :: 0 <= k < |vs| && k != i ==> vs[k].to != Some(at)
  }

  function CloseAt(vs: seq<Version>, i: nat, at: int): seq<Version>
    requires i < |vs|
  {
    vs[i := vs[i].(to := Some(at))]
  }

  function Renamed(vs: seq<Version>, i: nat, id: nat, name: string, now: int): seq<Version>
    requires i < |vs|
  {
    CloseAt(vs, i, now) + [Version(id, name, now, None)]
  }

  datatype RenameResult = Done | NoCurrentIdentity | CloseFailed | CreateFailed

  class CustomerStore {
    // The versions of each customer in insertion order.
    var versions: map<nat, seq<Version>>
    var nextId: nat

    constructor ()
      ensures versions == map[] && nextId == 0
    {
      versions, nextId := map[], 0;
    }

    function Of(customer: nat): seq<Version>
      reads this
    {
      if customer in versions then versions[customer] else []
    }

    method CreateIdentityVersion(customer: nat, name: string, from: int, up: bool) returns (ok: bool)
      modifies this
      ensures ok == up
      ensures versions ==
        if ok then old(versions)[customer := old(Of(customer)) + [Version(old(nextId), name, from, None)]]
        else old(versions)
      ensures nextId == if ok then old(nextId) + 1 else old(nextId)
    {
      ok := up;
      if ok {
        versions := versions[customer := Of(customer) + [Version(nextId, name, from, None)]];
        nextId := nextId + 1;
      }
    }

    method CloseIdentityVersion(customer: nat, i: nat, at: int, up: bool) returns (ok: bool)
      requires i < |Of(customer)|
      modifies this`versions
      ensures ok == (up && CanClose(old(Of(customer)), i, at))
      ensures versions == if ok then old(versions)[customer := CloseAt(old(Of(customer)), i, at)] else old(versions)
    {
      ok := up && CanClose(Of(customer), i, at);
      if ok {
        versions := versions[customer := CloseAt(Of(customer), i, at)];
      }
    }

    predicate HasOpen(customer: nat)
      reads this
    {
      exists v <- Of(customer) :: v.to.None?
    }

    /** The rename of the identity and of the account service. `pick` is the open version that LIMIT 1 returns. */
    method UpdateDisplayName(
        customer: nat, name: string, now: int, pick: nat, closeUp: bool, createUp: bool) returns (r: RenameResult)
      requires HasOpen(customer) ==> pick < |Of(customer)| && Of(customer)[pick].to.None?
      modifies this
      ensures r == NoCurrentIdentity <==> forall v <- old(Of(customer)) :: v.to.Some?
      ensures r == CloseFailed <==>
        old(HasOpen(customer)) &&
        (!closeUp || exists k ::
           0 <= k < |old(Of(customer))| && k != pick && old(Of(customer))[k].to == Some(now))
      ensures r in {Done, CreateFailed} ==>
        pick < |old(Of(customer))| &&
        var closed := old(Of(customer))[pick := old(Of(customer))[pick].(to := Some(now))];
        Of(customer) == if r == Done then closed + [Version(old(nextId), name, now, None)] else closed
      ensures r == Done ==>
        pick < |old(Of(customer))| && Of(customer) == Renamed(old(Of(customer)), pick, old(nextId), name, now)
      ensures r == Done <==>
        old(HasOpen(customer)) && closeUp && CanClose(old(Of(customer)), pick, now) && createUp
      ensures r == CreateFailed ==> pick < |old(Of(customer))| && Of(customer) == CloseAt(old(Of(customer)), pick, now)
      ensures r in {NoCurrentIdentity, CloseFailed} ==> versions == old(versions)
      ensures forall c :: c != customer ==> Of(c) == old(Of(c))
    {
      if !HasOpen(customer) {
        return NoCurrentIdentity;
      }
      var closed := CloseIdentityVersion(customer, pick, now, closeUp);
      if !closed {
        return CloseFailed;
      }
      var created := CreateIdentityVersion(customer, name, now, createUp);
      r := if created then Done else CreateFailed;
    }
  }

  /** A rename keeps the number of open versions, whatever it was. */
  lemma RenameKeepsOpenCount(vs: seq<Version>, i: nat, id: nat, name: string, now: int)
    requires i < |vs| && vs[i].to.None?
    ensures OpenCount(Renamed(vs, i, id, name, now)) == OpenCount(vs)
  {
    SumUpdate(vs, i, vs[i].(to := Some(now)), IsOpen());
    SumAppend(CloseAt(vs, i, now), Version(id, name, now, None), IsOpen());
  }

  /** A rename whose second write fails leaves one open version fewer; at zero no later rename succeeds. */
  lemma HalfRenameLosesOne(vs: seq<Version>, i: nat, now: int)
    requires i < |vs| && vs[i].to.None?
    ensures OpenCount(CloseAt(vs, i, now)) == OpenCount(vs) - 1
  {
    SumUpdate(vs, i, vs[i].(to := Some(now)), IsOpen());
  }

  // A rename of a version that is already closed leaves one open version more.
  lemma LateRenameAddsOne(vs: seq<Version>, i: nat, id: nat, name: string, now: int)
    requires i < |vs| && vs[i].to.Some?
    ensures OpenCount(Renamed(vs, i, id, name, now)) == OpenCount(vs) + 1
  {
    SumUpdate(vs, i, vs[i].(to := Some(now)), IsOpen());
    SumAppend(CloseAt(vs, i, now), Version(id, name, now, None), IsOpen());
  }

  // ----- the timeline of one customer -----

  /** The versions follow each other without gap or overlap, and only the last one is open. */
  ghost predicate Tiles(vs: seq<Version>) {
    && |vs| > 0 && vs[|vs| - 1].to.None?
    && forall k :: 0 <= k < |vs| - 1 ==> vs[k].to == Some(vs[k + 1].from) && vs[k].from < vs[k + 1].from
  }

  /** Such a history has one open version, the last, so that is the one a rename closes. */
  lemma TiledHasOneOpen(vs: seq<Version>)
    requires Tiles(vs)
    ensures OpenCount(vs) == 1
    ensures forall i :: 0 <= i < |vs| && vs[i].to.None? ==> i == |vs| - 1
  {
    var last := |vs| - 1;
    forall k | 0 <= k < last ensures vs[k].to.Some? {
      assert vs[k].to == Some(vs[k + 1].from);
    }
    SumZero(vs[..last], IsOpen());
    assert vs == vs[..last] + [vs[last]];
    SumAppend(vs[..last], vs[last], IsOpen());
  }

  predicate InForce(v: Version, t: int) {
    v.from <= t && (v.to.None? || t < v.to.value)
  }

  datatype Rename = Rename(id: nat, name: string, at: int)

  // Serial renames of a tiled history: the open version is the last one.
  function RenameAll(vs: seq<Version>, rs: seq<Rename>): (vs': seq<Version>)
    requires vs != []
    ensures vs' != []
  {
    if rs == [] then vs
    else
      var before, r := RenameAll(vs, rs[..|rs| - 1]), rs[|rs| - 1];
      Renamed(before, |before| - 1, r.id, r.name, r.at)
  }

  ghost predicate StrictClock(vs: seq<Version>, rs: seq<Rename>)
    requires vs != []
  {
    && (forall k :: 0 <= k < |rs| ==> vs[|vs| - 1].from < rs[k].at)
    && forall k, m :: 0 <= k < m < |rs| ==> rs[k].at < rs[m].at
  }

  // When the current version of the history started.
  function LastTime(vs: seq<Version>, rs: seq<Rename>): int
    requires vs != []
  {
    if rs == [] then vs[|vs| - 1].from else rs[|rs| - 1].at
  }

  lemma EarlierClock(vs: seq<Version>, rs: seq<Rename>)
    requires vs != [] && rs != [] && StrictClock(vs, rs)
    ensures StrictClock(vs, rs[..|rs| - 1]) && LastTime(vs, rs[..|rs| - 1]) < rs[|rs| - 1].at
  {
  }

  lemma RenameTiles(vs: seq<Version>, r: Rename)
    requires Tiles(vs) && vs[|vs| - 1].from < r.at
    ensures var vs' := Renamed(vs, |vs| - 1, r.id, r.name, r.at);
      && CanClose(vs, |vs| - 1, r.at) && Tiles(vs') && OpenCount(vs') == OpenCount(vs)
      && |vs'| == |vs| + 1 && vs'[|vs|] == Version(r.id, r.name, r.at, None)
  {
    RenameKeepsOpenCount(vs, |vs| - 1, r.id, r.name, r.at);
    TiledCanClose(vs, r.at);
  }

  /** The last version of such a history can be closed at any later time: no rename under a later clock is refused. */
  lemma TiledCanClose(vs: seq<Version>, now: int)
    requires Tiles(vs) && vs[|vs| - 1].from < now
    ensures CanClose(vs, |vs| - 1, now)
  {
    forall k | 0 <= k < |vs| - 1 ensures vs[k].to != Some(now) {
      FromsAscend(vs, k, |vs| - 1);
    }
  }

  lemma {:induction false} FromsAscend(vs: seq<Version>, i: nat, j: nat)
    requires Tiles(vs) && i <= j < |vs|
    ensures vs[i].from <= vs[j].from && (i < j ==> vs[i].to.Some? && vs[i].to.value <= vs[j].from)
  {
    if i < j {
      FromsAscend(vs, i, j - 1);
    }
  }

  /** At every instant since the first version exactly one version is in force. */
  lemma OneInForce(vs: seq<Version>, t: int) returns (k: nat)
    requires Tiles(vs) && vs[0].from <= t
    ensures k < |vs| && InForce(vs[k], t)
    ensures forall m :: 0 <= m < |vs| && InForce(vs[m], t) ==> m == k
  {
    k := |vs| - 1;
    while vs[k].from > t
      invariant k < |vs|
      invariant forall m :: k < m < |vs| ==> vs[m].from > t
    {
      k := k - 1;
    }
    assert k < |vs| - 1 ==> vs[k].to == Some(vs[k + 1].from);
    forall m | 0 <= m < |vs| && InForce(vs[m], t) ensures m == k {
      if m < k {
        FromsAscend(vs, m, k);
      }
    }
  }

  // Some version carrying this name is in force at t.
  ghost predicate Named(vs: seq<Version>, name: string, t: int) {
    exists k :: 0 <= k < |vs| && vs[k].name == name && InForce(vs[k], t)
  }

  /** Serial renames under a strictly increasing clock keep the timeline free of gaps and overlaps, with one version
      more each, and the last name given is the current one. */
  lemma {:induction false} HistoryTiles(vs: seq<Version>, rs: seq<Rename>)
    requires Tiles(vs) && StrictClock(vs, rs)
    ensures var vs' := RenameAll(vs, rs);
      && Tiles(vs') && OpenCount(vs') == OpenCount(vs) && |vs'| == |vs| + |rs|
      && vs'[|vs'| - 1].from == LastTime(vs, rs)
      && (if rs == [] then vs' == vs else vs'[|vs'| - 1].name == rs[|rs| - 1].name)
  {
    if rs != [] {
      var front, r := rs[..|rs| - 1], rs[|rs| - 1];
      EarlierClock(vs, rs);
      HistoryTiles(vs, front);
      RenameTiles(RenameAll(vs, front), r);
    }
  }

  /** No sequence of later renames changes which name was in force at an earlier instant. */
  lemma {:induction false} HistoryIsFaithful(vs: seq<Version>, rs: seq<Rename>, t: int, name: string)
    requires Tiles(vs) && StrictClock(vs, rs)
    requires forall k :: 0 <= k < |rs| ==> t < rs[k].at
    ensures Named(RenameAll(vs, rs), name, t) <==> Named(vs, name, t)
  {
    if rs != [] {
      var front, r := rs[..|rs| - 1], rs[|rs| - 1];
      EarlierClock(vs, rs);
      HistoryTiles(vs, front);
      HistoryIsFaithful(vs, front, t, name);
      PastUnchanged(RenameAll(vs, front), r, t, name);
    }
  }

  lemma PastUnchanged(vs: seq<Version>, r: Rename, t: int, name: string)
    requires Tiles(vs) && t < r.at
    ensures Named(Renamed(vs, |vs| - 1, r.id, r.name, r.at), name, t) <==> Named(vs, name, t)
  {
    var vs' := Renamed(vs, |vs| - 1, r.id, r.name, r.at);
    forall k | 0 <= k < |vs| ensures vs'[k].name == vs[k].name && (InForce(vs'[k], t) <==> InForce(vs[k], t)) {
    }
    assert !InForce(vs'[|vs|], t);
    if Named(vs, name, t) {
      var k :| 0 <= k < |vs| && vs[k].name == name && InForce(vs[k], t);
      assert vs'[k].name == name && InForce(vs'[k], t);
    }
  }
}
