/** Overlapping renames of one customer: the read, the close and the create of a rename are separate calls. */
module Renames {
  import opened Sums
  import opened Store
  import opened Identity

  // A rename after each of its calls; `first` says whether the version it closed was still open at that moment.
  datatype Phase =
    | Picked(i: nat, name: string, now: int)
    | ClosedIt(i: nat, name: string, now: int, first: bool)
    | Finished(i: nat, first: bool)
    | Half(i: nat, first: bool)
    | Dropped

  // `added` counts the versions that customer and account creation inserted.
  datatype State = State(versions: seq<Version>, renames: seq<Phase>, added: nat, nextId: nat)

  datatype Label =
    | Open(name: string, from: int)
    | Read(pick: nat, name: string, now: int)
    | CloseIt(r: nat, up: bool)
    | CreateIt(r: nat, up: bool)
    | Stop(r: nat)

  const INIT := State([], [], 0, 0)

  function Moved(s: State, r: nat, p: Phase): State
    requires r < |s.renames|
  {
    s.(renames := s.renames[r := p])
  }

  function StepClose(s: State, r: nat, up: bool): State {
    if r < |s.renames| && s.renames[r].Picked? && s.renames[r].i < |s.versions| then
      var Picked(i, name, now) := s.renames[r];
      if up && CanClose(s.versions, i, now)
      then Moved(s, r, ClosedIt(i, name, now, s.versions[i].to.None?)).(versions := CloseAt(s.versions, i, now))
      else Moved(s, r, Dropped)
    else s
  }

  function StepCreate(s: State, r: nat, up: bool): State {
    if r < |s.renames| && s.renames[r].ClosedIt? then
      var ClosedIt(i, name, now, first) := s.renames[r];
      if up
      then Moved(s, r, Finished(i, first)).(
             versions := s.versions + [Version(s.nextId, name, now, None)], nextId := s.nextId + 1)
      else Moved(s, r, Half(i, first))
    else s
  }

  function Step(s: State, l: Label): State {
    match l
    case Open(name, from) =>
      s.(versions := s.versions + [Version(s.nextId, name, from, None)], added := s.added + 1, nextId := s.nextId + 1)
    case Read(pick, name, now) =>
      if pick < |s.versions| && s.versions[pick].to.None?
      then s.(renames := s.renames + [Picked(pick, name, now)]) else s
    case CloseIt(r, up) => StepClose(s, r, up)
    case CreateIt(r, up) => StepCreate(s, r, up)
    case Stop(r) =>
      if r >= |s.renames| then s
      else if s.renames[r].Picked? then Moved(s, r, Dropped)
      else if s.renames[r].ClosedIt? then Moved(s, r, Half(s.renames[r].i, s.renames[r].first))
      else s
  }

  function Run(s: State, ls: seq<Label>): State {
    if ls == [] then s else Step(Run(s, ls[..|ls| - 1]), ls[|ls| - 1])
  }

  // ----- how many versions are open -----

  /** Renames that went through although another one had already closed their version. */
  function Redundant(): Phase -> int { (p: Phase) => if p.Finished? && !p.first then 1 else 0 }

  /** Renames that closed an open version and have not, or not yet, opened the next. */
  function Unfinished(): Phase -> int { (p: Phase) => if (p.ClosedIt? || p.Half?) && p.first then 1 else 0 }

  ghost predicate Counted(s: State) {
    OpenCount(s.versions) == s.added + Sum(s.renames, Redundant()) - Sum(s.renames, Unfinished())
  }

  lemma PhaseMoves(s: State, r: nat, p: Phase)
    requires r < |s.renames|
    ensures Sum(Moved(s, r, p).renames, Redundant()) ==
      Sum(s.renames, Redundant()) - Redundant()(s.renames[r]) + Redundant()(p)
    ensures Sum(Moved(s, r, p).renames, Unfinished()) ==
      Sum(s.renames, Unfinished()) - Unfinished()(s.renames[r]) + Unfinished()(p)
  {
    SumUpdate(s.renames, r, p, Redundant());
    SumUpdate(s.renames, r, p, Unfinished());
  }

  lemma CloseCounted(s: State, r: nat, up: bool)
    requires Counted(s)
    ensures Counted(StepClose(s, r, up))
  {
    if r < |s.renames| && s.renames[r].Picked? && s.renames[r].i < |s.versions| {
      var Picked(i, name, now) := s.renames[r];
      PhaseMoves(s, r, ClosedIt(i, name, now, s.versions[i].to.None?));
      PhaseMoves(s, r, Dropped);
      SumUpdate(s.versions, i, s.versions[i].(to := Some(now)), IsOpen());
    }
  }

  lemma CreateCounted(s: State, r: nat, up: bool)
    requires Counted(s)
    ensures Counted(StepCreate(s, r, up))
  {
    if r < |s.renames| && s.renames[r].ClosedIt? {
      var ClosedIt(i, name, now, first) := s.renames[r];
      PhaseMoves(s, r, Finished(i, first));
      PhaseMoves(s, r, Half(i, first));
      SumAppend(s.versions, Version(s.nextId, name, now, None), IsOpen());
    }
  }

  lemma StepCounted(s: State, l: Label)
    requires Counted(s)
    ensures Counted(Step(s, l))
  {
    match l
    case Open(name, from) => SumAppend(s.versions, Version(s.nextId, name, from, None), IsOpen());
    case Read(pick, name, now) =>
      SumAppend(s.renames, Picked(pick, name, now), Redundant());
      SumAppend(s.renames, Picked(pick, name, now), Unfinished());
    case CloseIt(r, up) => CloseCounted(s, r, up);
    case CreateIt(r, up) => CreateCounted(s, r, up);
    case Stop(r) =>
      if r < |s.renames| && s.renames[r].Picked? {
        PhaseMoves(s, r, Dropped);
      } else if r < |s.renames| && s.renames[r].ClosedIt? {
        PhaseMoves(s, r, Half(s.renames[r].i, s.renames[r].first));
      }
  }

  /** In every run of overlapping renames, crashes and failing writes included, the open versions are those that
      creation inserted, plus one for each redundant rename, minus one for each unfinished one. */
  lemma {:induction false} OpenVersionsCounted(ls: seq<Label>)
    ensures var s := Run(INIT, ls);
      OpenCount(s.versions) == s.added + Sum(s.renames, Redundant()) - Sum(s.renames, Unfinished())
  {
    if ls == [] {
      assert OpenCount([]) == 0;
    } else {
      OpenVersionsCounted(ls[..|ls| - 1]);
      StepCounted(Run(INIT, ls[..|ls| - 1]), ls[|ls| - 1]);
    }
  }

  // ----- which renames are redundant -----

  predicate HasClosed(p: Phase) { p.ClosedIt? || p.Finished? || p.Half? }

  /** Rename r is the one that closed version i while it was open. */
  predicate ClosedFirst(s: State, r: int, i: nat) {
    0 <= r < |s.renames| && HasClosed(s.renames[r]) && s.renames[r].i == i && s.renames[r].first
  }

  /** A version is closed exactly when one rename closed it first, and there is only one such rename. */
  ghost predicate FirstOnce(s: State) {
    && (forall r :: 0 <= r < |s.renames| && !s.renames[r].Dropped? ==> s.renames[r].i < |s.versions|)
    && (forall i :: 0 <= i < |s.versions| ==> (s.versions[i].to.Some? <==> exists r :: ClosedFirst(s, r, i)))
    && (forall i, r, q :: ClosedFirst(s, r, i) && ClosedFirst(s, q, i) ==> r == q)
    && (forall r :: 0 <= r < |s.renames| && HasClosed(s.renames[r]) ==> s.versions[s.renames[r].i].to.Some?)
  }

  lemma SameFirsts(s: State, s': State, r: nat)
    requires FirstOnce(s) && r < |s.renames| == |s'.renames| && |s.versions| <= |s'.versions|
    requires forall q :: 0 <= q < |s.renames| && q != r ==> s'.renames[q] == s.renames[q]
    requires forall i :: ClosedFirst(s', r, i) <==> ClosedFirst(s, r, i)
    requires forall i :: 0 <= i < |s.versions| ==> s'.versions[i].to.Some? == s.versions[i].to.Some?
    requires forall i :: |s.versions| <= i < |s'.versions| ==> s'.versions[i].to.None?
    requires !s'.renames[r].Dropped? ==> s'.renames[r].i < |s'.versions|
    requires HasClosed(s'.renames[r]) ==> s'.versions[s'.renames[r].i].to.Some?
    ensures FirstOnce(s')
  {
    forall i, q ensures ClosedFirst(s', q, i) <==> ClosedFirst(s, q, i) {
    }
    forall i | 0 <= i < |s'.versions| ensures s'.versions[i].to.Some? <==> exists q :: ClosedFirst(s', q, i) {
      if q :| ClosedFirst(s', q, i) {
        assert ClosedFirst(s, q, i);
      }
      if i < |s.versions| && s.versions[i].to.Some? {
        var q :| ClosedFirst(s, q, i);
        assert ClosedFirst(s', q, i);
      }
    }
  }

  lemma CloseFirstOnce(s: State, r: nat, up: bool)
    requires FirstOnce(s)
    ensures FirstOnce(StepClose(s, r, up))
  {
    var s' := StepClose(s, r, up);
    if r < |s.renames| && s.renames[r].Picked? && s.renames[r].i < |s.versions| {
      var Picked(i, name, now) := s.renames[r];
      if s'.renames[r].Dropped? || s.versions[i].to.Some? {
        SameFirsts(s, s', r);
      } else {
        NewFirst(s, r, i, name, now);
      }
    }
  }

  lemma NewFirst(s: State, r: nat, i: nat, name: string, now: int)
    requires FirstOnce(s) && r < |s.renames| && s.renames[r] == Picked(i, name, now)
    requires i < |s.versions| && s.versions[i].to.None?
    ensures FirstOnce(Moved(s, r, ClosedIt(i, name, now, true)).(versions := CloseAt(s.versions, i, now)))
  {
    var s' := Moved(s, r, ClosedIt(i, name, now, true)).(versions := CloseAt(s.versions, i, now));
    assert ClosedFirst(s', r, i);
    forall q, k ensures ClosedFirst(s', q, k) <==> ClosedFirst(s, q, k) || (q == r && k == i) {
    }
    forall k | 0 <= k < |s'.versions| ensures s'.versions[k].to.Some? <==> exists q :: ClosedFirst(s', q, k) {
      if k != i && s.versions[k].to.Some? {
        var q :| ClosedFirst(s, q, k);
        assert ClosedFirst(s', q, k);
      }
      if q :| ClosedFirst(s', q, k) {
        assert k == i || ClosedFirst(s, q, k);
      }
    }
  }

  lemma StepFirstOnce(s: State, l: Label)
    requires FirstOnce(s)
    ensures FirstOnce(Step(s, l))
  {
    var s' := Step(s, l);
    match l
    case Open(_, _) => Grown(s, s');
    case Read(_, _, _) => Grown(s, s');
    case CloseIt(r, up) => CloseFirstOnce(s, r, up);
    case CreateIt(r, _) =>
      if r < |s.renames| {
        SameFirsts(s, s', r);
      }
    case Stop(r) =>
      if r < |s.renames| {
        SameFirsts(s, s', r);
      }
  }

  // A new open version, or a new rename that has only read.
  lemma Grown(s: State, s': State)
    requires FirstOnce(s) && s.versions <= s'.versions && s.renames <= s'.renames
    requires forall i :: |s.versions| <= i < |s'.versions| ==> s'.versions[i].to.None?
    requires forall r :: |s.renames| <= r < |s'.renames| ==> s'.renames[r].Picked? && s'.renames[r].i < |s'.versions|
    ensures FirstOnce(s')
  {
    forall i, q ensures ClosedFirst(s', q, i) <==> ClosedFirst(s, q, i) {
    }
    forall i | 0 <= i < |s'.versions| ensures s'.versions[i].to.Some? <==> exists q :: ClosedFirst(s', q, i) {
      if q :| ClosedFirst(s', q, i) {
        assert ClosedFirst(s, q, i);
      }
      if i < |s.versions| && s.versions[i].to.Some? {
        var q :| ClosedFirst(s, q, i);
        assert ClosedFirst(s', q, i);
      }
    }
  }

  lemma {:induction false} RunFirstOnce(ls: seq<Label>)
    ensures FirstOnce(Run(INIT, ls))
  {
    if ls != [] {
      RunFirstOnce(ls[..|ls| - 1]);
      StepFirstOnce(Run(INIT, ls[..|ls| - 1]), ls[|ls| - 1]);
    }
  }

  // ----- redundancy on the labels -----

  /** Label k is the read with which rename r begins. */
  predicate ReadsAt(ls: seq<Label>, k: int, r: nat) {
    0 <= k < |ls| && ls[k].Read? &&
    var s := Run(INIT, ls[..k]);
    |s.renames| == r && ls[k].pick < |s.versions| && s.versions[ls[k].pick].to.None?
  }

  /** The label closes version i, and takes effect. */
  predicate Closing(s: State, l: Label, i: nat) {
    l.CloseIt? && l.up && l.r < |s.renames| && s.renames[l.r].Picked? && s.renames[l.r].i == i && i < |s.versions| &&
    CanClose(s.versions, i, s.renames[l.r].now)
  }

  /** Label m is such a close of version i, by rename r. */
  predicate ClosesAt(ls: seq<Label>, m: int, r: nat, i: nat) {
    0 <= m < |ls| && Closing(Run(INIT, ls[..m]), ls[m], i) && ls[m].r == r
  }

  ghost predicate ClosedBetween(ls: seq<Label>, k: int, m: int, i: nat) {
    exists n, q :: k < n < m && ClosesAt(ls, n, q, i)
  }

  lemma ClosesPrefix(ls: seq<Label>, n: nat, m: int, r: nat, i: nat)
    requires m < n <= |ls|
    ensures ClosesAt(ls[..n], m, r, i) <==> ClosesAt(ls, m, r, i)
  {
    if 0 <= m {
      assert ls[..n][..m] == ls[..m];
    }
  }

  // A version stays closed; an open one is closed by an effective close of it and by nothing else.
  lemma VersionStep(s: State, l: Label, i: nat)
    requires i < |s.versions|
    ensures i < |Step(s, l).versions|
    ensures Step(s, l).versions[i].to.Some? <==> s.versions[i].to.Some? || Closing(s, l, i)
  {
  }

  lemma OneLabelMore(ls: seq<Label>, n: nat)
    requires n < |ls|
    ensures Run(INIT, ls[..n + 1]) == Step(Run(INIT, ls[..n]), ls[n])
  {
    assert ls[..n + 1][..n] == ls[..n];
  }

  // A version that is open at k is closed at m exactly when some rename has closed it in between.
  lemma {:induction false} ClosedSince(ls: seq<Label>, k: nat, m: nat, i: nat)
    requires k < m <= |ls| && !ls[k].CloseIt?
    requires i < |Run(INIT, ls[..k]).versions| && Run(INIT, ls[..k]).versions[i].to.None?
    ensures i < |Run(INIT, ls[..m]).versions|
    ensures Run(INIT, ls[..m]).versions[i].to.Some? <==> ClosedBetween(ls, k, m, i)
  {
    OneLabelMore(ls, m - 1);
    if m == k + 1 {
      VersionStep(Run(INIT, ls[..k]), ls[k], i);
      assert !ClosedBetween(ls, k, m, i);
    } else {
      ClosedSince(ls, k, m - 1, i);
      VersionStep(Run(INIT, ls[..m - 1]), ls[m - 1], i);
      LastClose(ls, k, m, i);
    }
  }

  lemma LastClose(ls: seq<Label>, k: nat, m: nat, i: nat)
    requires k + 1 < m <= |ls|
    ensures ClosedBetween(ls, k, m, i) <==>
      ClosedBetween(ls, k, m - 1, i) || Closing(Run(INIT, ls[..m - 1]), ls[m - 1], i)
  {
    if Closing(Run(INIT, ls[..m - 1]), ls[m - 1], i) {
      assert ClosesAt(ls, m - 1, ls[m - 1].r, i);
    }
  }

  // A rename that has read its version began with a read that found that version open.
  lemma {:induction false} PickedTrace(ls: seq<Label>, r: nat) returns (k: nat)
    requires r < |Run(INIT, ls).renames| && Run(INIT, ls).renames[r].Picked?
    ensures ReadsAt(ls, k, r) && ls[k].pick == Run(INIT, ls).renames[r].i
  {
    var last := |ls| - 1;
    var s := Run(INIT, ls[..last]);
    if r < |s.renames| {
      k := PickedTrace(ls[..last], r);
      assert ls[..last][..k] == ls[..k];
    } else {
      k := last;
    }
  }

  lemma ClosedStep(s: State, l: Label, r: nat)
    requires r < |Step(s, l).renames| && HasClosed(Step(s, l).renames[r])
    ensures var p := Step(s, l).renames[r];
      if r < |s.renames| && HasClosed(s.renames[r]) then s.renames[r].i == p.i && s.renames[r].first == p.first
      else Closing(s, l, p.i) && l.r == r && (p.first <==> s.versions[p.i].to.None?)
  {
  }

  // A rename that has closed its version did so at an effective close, and `first` is what it found there.
  lemma {:induction false} ClosedTrace(ls: seq<Label>, r: nat) returns (m: nat)
    requires r < |Run(INIT, ls).renames| && HasClosed(Run(INIT, ls).renames[r])
    ensures ClosesAt(ls, m, r, Run(INIT, ls).renames[r].i)
    ensures Run(INIT, ls).renames[r].first <==> Run(INIT, ls[..m]).versions[Run(INIT, ls).renames[r].i].to.None?
  {
    var last := |ls| - 1;
    var s := Run(INIT, ls[..last]);
    ClosedStep(s, ls[last], r);
    if r < |s.renames| && HasClosed(s.renames[r]) {
      m := ClosedTrace(ls[..last], r);
      ClosesPrefix(ls, last, m, r, s.renames[r].i);
      assert ls[..last][..m] == ls[..m];
    } else {
      m := last;
    }
  }

  /** A rename is redundant, in every run, if and only if another rename closed the same version between its read and
      its close: only overlap makes renames redundant. */
  lemma RedundantIff(ls: seq<Label>, r: nat) returns (k: nat, m: nat)
    requires r < |Run(INIT, ls).renames| && Run(INIT, ls).renames[r].Finished?
    ensures var p := Run(INIT, ls).renames[r];
      && k < m && ReadsAt(ls, k, r) && ls[k].pick == p.i && ClosesAt(ls, m, r, p.i)
      && (!p.first <==> exists n, q :: k < n < m && q != r && ClosesAt(ls, n, q, p.i))
  {
    var i := Run(INIT, ls).renames[r].i;
    m := ClosedTrace(ls, r);
    k := PickedTrace(ls[..m], r);
    assert ls[..m][..k] == ls[..k];
    ClosedSince(ls, k, m, i);
    forall n, q | k < n < m && ClosesAt(ls, n, q, i) ensures q != r {
      if q == r {
        StaysClosed(ls, n + 1, m, r, i, n);
      }
    }
  }

  // After its effective close a rename is never again at its read.
  lemma {:induction false} StaysClosed(ls: seq<Label>, from: nat, to: nat, r: nat, i: nat, n: nat)
    requires n + 1 == from <= to <= |ls| && ClosesAt(ls, n, r, i)
    ensures r < |Run(INIT, ls[..to]).renames| && HasClosed(Run(INIT, ls[..to]).renames[r])
  {
    assert ls[..to][..to - 1] == ls[..to - 1];
    if from < to {
      StaysClosed(ls, from, to - 1, r, i, n);
    }
  }

  /** The version of a redundant rename was closed first by exactly one other rename. */
  lemma RedundantHasFirst(ls: seq<Label>, r: nat)
    requires var s := Run(INIT, ls); r < |s.renames| && s.renames[r].Finished? && !s.renames[r].first
    ensures var s := Run(INIT, ls);
      exists q :: q != r && ClosedFirst(s, q, s.renames[r].i) &&
        forall p :: ClosedFirst(s, p, s.renames[r].i) ==> p == q
  {
    RunFirstOnce(ls);
    var s := Run(INIT, ls);
    assert s.versions[s.renames[r].i].to.Some?;
    var q :| ClosedFirst(s, q, s.renames[r].i);
  }

  /** The rename of the sequential code is its three calls with nothing in between, and is never redundant. */
  lemma RenameIsASchedule(s: State, i: nat, name: string, now: int)
    requires i < |s.versions| && s.versions[i].to.None? && CanClose(s.versions, i, now)
    ensures var r := |s.renames|;
      var s' := Run(s, [Read(i, name, now)] + [CloseIt(r, true), CreateIt(r, true)]);
      && s'.versions == Renamed(s.versions, i, s.nextId, name, now)
      && s'.renames == s.renames + [Finished(i, true)]
  {
    var r := |s.renames|;
    RunTwo(s, [Read(i, name, now)], CloseIt(r, true), CreateIt(r, true));
    assert [Read(i, name, now)][..0] == [];
    FullRename(s.(renames := s.renames + [Picked(i, name, now)]), r);
  }

  /** From every state, two renames that read the same current version before either closes it both go through, when
      their times are new, and leave one open version more. */
  lemma OverlappingRenamesOpenTwo(s: State, i: nat, a: string, b: string, t: int, u: int)
    requires i < |s.versions| && s.versions[i].to.None? && CanClose(s.versions, i, t) && CanClose(s.versions, i, u)
    ensures var r := |s.renames|;
      var ls := [Read(i, a, t), Read(i, b, u)] + [CloseIt(r, true), CreateIt(r, true)] +
        [CloseIt(r + 1, true), CreateIt(r + 1, true)];
      OpenCount(Run(s, ls).versions) == OpenCount(s.versions) + 1
  {
    var r := |s.renames|;
    var picks, first := [Read(i, a, t), Read(i, b, u)], [CloseIt(r, true), CreateIt(r, true)];
    var second := [CloseIt(r + 1, true), CreateIt(r + 1, true)];
    RunTwo(s, [], picks[0], picks[1]);
    assert [] + picks == picks;
    RunTwo(s, picks, first[0], first[1]);
    RunTwo(s, picks + first, second[0], second[1]);
    var s1 := s.(renames := s.renames + [Picked(i, a, t)] + [Picked(i, b, u)]);
    var once := Renamed(s.versions, i, s.nextId, a, t);
    FullRename(s1, r);
    var s2 := StepCreate(StepClose(s1, r, true), r, true);
    assert s2.versions == once && CanClose(once, i, u) && s2.renames[r + 1] == Picked(i, b, u);
    FullRename(s2, r + 1);
    RenameKeepsOpenCount(s.versions, i, s.nextId, a, t);
    LateRenameAddsOne(once, i, s2.nextId, b, u);
  }

  lemma FullRename(s: State, r: nat)
    requires r < |s.renames| && s.renames[r].Picked? && s.renames[r].i < |s.versions|
    requires CanClose(s.versions, s.renames[r].i, s.renames[r].now)
    ensures var Picked(i, name, now) := s.renames[r];
      var s' := StepCreate(StepClose(s, r, true), r, true);
      && s'.versions == Renamed(s.versions, i, s.nextId, name, now)
      && |s'.renames| == |s.renames| && forall q :: 0 <= q < |s.renames| && q != r ==> s'.renames[q] == s.renames[q]
  {
  }

  lemma TwoMore<T>(xs: seq<T>, a: T, b: T)
    ensures xs + [a] + [b] == xs + [a, b]
  {
  }

  lemma RunTwo(s: State, ls: seq<Label>, a: Label, b: Label)
    ensures Run(s, ls + [a, b]) == Step(Step(Run(s, ls), a), b)
  {
    TwoMore(ls, a, b);
    assert (ls + [a] + [b])[..|ls| + 1] == ls + [a];
    assert (ls + [a])[..|ls|] == ls;
  }
}
