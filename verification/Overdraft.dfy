/** How far overlapping transfers can overdraw an account: the funds check and the debit are separate calls. */
module Overdraft {
  import opened Sums
  import opened Kobo
  import opened Ledger
  import opened Store
  import opened Posting
  import opened Webhook
  import opened MoneyFlow
  import Transfers

  function CheckedKobo(a: AccountId): Transfer -> int {
    (t: Transfer) => if t.phase.Checked? && t.d.account == a then t.d.amount else 0
  }

  function CheckedCount(a: AccountId): Transfer -> int {
    (t: Transfer) => if t.phase.Checked? && t.d.account == a then 1 else 0
  }

  /** Transfers on the account between their funds check and their debit. */
  function InFlight(s: State, a: AccountId): int {
    Sum(s.transfers, CheckedCount(a))
  }

  predicate AmountsWithin(s: State, a: AccountId, max: int) {
    forall t <- s.transfers :: t.d.account == a ==> t.d.amount <= max
  }

  lemma {:induction false} CheckedAtMost(ts: seq<Transfer>, a: AccountId, max: int)
    requires forall t <- ts :: t.d.account == a ==> t.d.amount <= max
    ensures Sum(ts, CheckedKobo(a)) <= Sum(ts, CheckedCount(a)) * max
  {
    if ts != [] {
      CheckedAtMost(ts[..|ts| - 1], a, max);
      var c := Sum(ts[..|ts| - 1], CheckedCount(a));
      assert (c + 1) * max == c * max + max;
    }
  }

  /** What the bound carries: the balance minus the amounts checked but not yet inserted. */
  function Uncommitted(s: State, a: AccountId): int {
    Balance(s.db.entries, a) - Sum(s.transfers, CheckedKobo(a))
  }

  lemma MovedUncommitted(s: State, i: nat, phase: Phase, a: AccountId)
    requires i < |s.transfers| && !phase.Checked?
    ensures Sum(Moved(s, i, phase).transfers, CheckedKobo(a)) ==
      Sum(s.transfers, CheckedKobo(a)) - CheckedKobo(a)(s.transfers[i])
  {
    SumUpdate(s.transfers, i, s.transfers[i].(phase := phase), CheckedKobo(a));
  }

  lemma InsertDebitUncommitted(s: State, i: nat, now: int, fault: InsertFault, a: AccountId)
    requires a.Virtual? && forall t <- s.transfers :: 0 < t.d.amount
    ensures Uncommitted(StepInsertDebit(s, i, now, fault), a) >= Uncommitted(s, a)
  {
    if i < |s.transfers| && s.transfers[i].phase.Checked? {
      var d := s.transfers[i].d;
      MovedUncommitted(s, i, AwaitingAnswer, a);
      MovedUncommitted(s, i, Abandoned, a);
      DebitShifts(s.db.entries, Only(a), d.org, d.account, d.amount, d.ref, now, s.db.nextId);
    }
  }

  lemma ReverseUncommitted(s: State, i: nat, now: int, fault: InsertFault, a: AccountId)
    requires a.Virtual? && forall t <- s.transfers :: 0 < t.d.amount
    ensures Uncommitted(StepReverse(s, i, now, fault), a) >= Uncommitted(s, a)
  {
    if i < |s.transfers| && s.transfers[i].phase.AwaitingReversal? {
      var r := Transfers.ReversalOf(s.transfers[i].d);
      MovedUncommitted(s, i, Reversed(s.transfers[i].phase.paid), a);
      MovedUncommitted(s, i, Stranded(s.transfers[i].phase.paid), a);
      CreditShifts(s.db.entries, Only(a), r.org, r.account, r.amount, r.ref, TransferReversal, now, s.db.nextId);
    }
  }

  lemma AnswerUncommitted(s: State, i: nat, accepted: bool, paid: bool, a: AccountId)
    requires forall t <- s.transfers :: 0 < t.d.amount
    ensures Uncommitted(StepAnswer(s, i, accepted, paid), a) >= Uncommitted(s, a)
    ensures Uncommitted(StepStopTransfer(s, i), a) >= Uncommitted(s, a)
  {
    if i < |s.transfers| {
      MovedUncommitted(s, i, if accepted then Accepted else AwaitingReversal(paid), a);
      MovedUncommitted(s, i, Abandoned, a);
    }
  }

  lemma CommitUncommitted(s: State, h: nat, now: int, f: WebhookFaults, a: AccountId)
    requires a.Virtual?
    ensures Uncommitted(StepCommit(s, h, now, f), a) >= Uncommitted(s, a)
  {
    if h < |s.handlers| && s.handlers[h].Routed? {
      var Routed(ev, dest) := s.handlers[h];
      if Commits(s.db, ev, dest, now, f) {
        var kobo := NairaToKobo(ev.naira);
        match dest
        case ToSuspense(org) =>
          SingleLegShifts(s.db.entries, Only(a), SuspenseLeg(org, kobo, ev.txn, now, s.db.nextId)[0]);
        case ToCustomer(org, account) =>
          var batch := CreditBatch(s.db, CreditOf(ev, org, account), now);
          assert batch[0].amount == kobo;
          CreditShifts(s.db.entries, Only(a), org, account, kobo, ev.txn, InboundCredit, now, s.db.nextId);
      }
    }
  }

  lemma InsertUncommitted(s: State, j: nat, fault: InsertFault, a: AccountId)
    ensures Uncommitted(StepInsert(s, j, fault), a) >= Uncommitted(s, a)
  {
    if j < |s.jobs| && s.jobs[j].Selected? {
      var batch := JobBatch(s.db, s.jobs[j]);
      assert batch[0].amount == NairaToKobo(s.jobs[j].txn.naira);
      SingleLegShifts(s.db.entries, Only(a), batch[0]);
    }
  }

  /** Apart from a new funds check no step lowers the balance net of the checked amounts. */
  lemma StepUncommitted(s: State, l: Label, a: AccountId)
    requires a.Virtual? && forall t <- s.transfers :: 0 < t.d.amount
    requires !l.Check?
    ensures Uncommitted(Step(s, l), a) >= Uncommitted(s, a)
  {
    match l
    case Commit(h, now, f) => CommitUncommitted(s, h, now, f, a);
    case Insert(j, fault) => InsertUncommitted(s, j, fault, a);
    case InsertDebit(i, now, fault) => InsertDebitUncommitted(s, i, now, fault, a);
    case Answer(i, accepted, paid) => AnswerUncommitted(s, i, accepted, paid, a);
    case Reverse(i, now, fault) => ReverseUncommitted(s, i, now, fault, a);
    case StopTransfer(i) => AnswerUncommitted(s, i, true, true, a);
    case _ =>
  }

  lemma CheckedWithin(ts: seq<Transfer>, a: AccountId, k: nat, max: nat)
    requires forall t <- ts :: t.d.account == a ==> t.d.amount <= max
    requires Sum(ts, CheckedCount(a)) <= k - 1
    ensures Sum(ts, CheckedKobo(a)) <= (k - 1) * max
  {
    var c := Sum(ts, CheckedCount(a));
    CheckedAtMost(ts, a, max);
    Scaled(c, k - 1, max);
  }

  lemma Scaled(c: int, n: int, max: nat)
    requires c <= n
    ensures c * max <= n * max
  {
    assert n * max == c * max + (n - c) * max;
  }

  // The check found a balance of at least the new amount, so only the others in flight can be short.
  lemma CheckUncommitted(s: State, d: DebitRequest, a: AccountId, slack: int)
    requires d.account == a && InFlight(StepCheck(s, d), a) != InFlight(s, a) ==>
      Sum(s.transfers, CheckedKobo(a)) <= slack
    requires Uncommitted(s, a) >= -slack
    ensures Uncommitted(StepCheck(s, d), a) >= -slack
  {
    var t := Transfer(d, Checked);
    SumAppend(s.transfers, t, CheckedKobo(a));
    SumAppend(s.transfers, t, CheckedCount(a));
  }

  lemma CheckBound(s: State, d: DebitRequest, a: AccountId, k: nat, max: nat, slack: int)
    requires AmountsWithin(s, a, max) && InFlight(StepCheck(s, d), a) <= k && slack == (k - 1) * max
    requires Uncommitted(s, a) >= -slack
    ensures Uncommitted(StepCheck(s, d), a) >= -slack
  {
    if d.account == a && InFlight(StepCheck(s, d), a) != InFlight(s, a) {
      SumAppend(s.transfers, Transfer(d, Checked), CheckedCount(a));
      CheckedWithin(s.transfers, a, k, max);
    }
    CheckUncommitted(s, d, a, slack);
  }

  lemma {:induction false} PositiveAmounts(ls: seq<Label>)
    ensures forall t <- Run(INIT, ls).transfers :: 0 < t.d.amount
  {
    if ls != [] {
      PositiveAmounts(ls[..|ls| - 1]);
    }
  }

  /** Throughout the run at most k transfers on the account are in flight, each of at most max kobo. */
  ghost predicate Bounded(ls: seq<Label>, a: AccountId, k: int, max: int) {
    forall n :: 0 <= n <= |ls| ==> InFlight(Run(INIT, ls[..n]), a) <= k && AmountsWithin(Run(INIT, ls[..n]), a, max)
  }

  lemma BoundedPrefix(ls: seq<Label>, a: AccountId, k: int, max: int)
    requires Bounded(ls, a, k, max)
    ensures InFlight(Run(INIT, ls), a) <= k && AmountsWithin(Run(INIT, ls), a, max)
    ensures ls != [] ==> Bounded(ls[..|ls| - 1], a, k, max)
  {
    assert ls[..|ls|] == ls;
    if ls != [] {
      var front := ls[..|ls| - 1];
      forall n | 0 <= n <= |front|
        ensures InFlight(Run(INIT, front[..n]), a) <= k && AmountsWithin(Run(INIT, front[..n]), a, max)
      {
        assert front[..n] == ls[..n];
      }
    }
  }

  lemma {:induction false} UncommittedBound(ls: seq<Label>, a: AccountId, k: nat, max: nat, slack: int)
    requires a.Virtual? && Bounded(ls, a, k, max) && slack == (k - 1) * max >= 0
    ensures Uncommitted(Run(INIT, ls), a) >= -slack
  {
    if ls != [] {
      var front, l := ls[..|ls| - 1], ls[|ls| - 1];
      BoundedPrefix(ls, a, k, max);
      BoundedPrefix(front, a, k, max);
      UncommittedBound(front, a, k, max, slack);
      var s := Run(INIT, front);
      if l.Check? {
        CheckBound(s, l.d, a, k, max, slack);
      } else {
        PositiveAmounts(front);
        StepUncommitted(s, l, a);
      }
    }
  }

  lemma BalanceAboveUncommitted(ls: seq<Label>, a: AccountId)
    ensures Balance(Run(INIT, ls).db.entries, a) >= Uncommitted(Run(INIT, ls), a)
  {
    PositiveAmounts(ls);
    SumNonNegative(Run(INIT, ls).transfers, CheckedKobo(a));
  }

  /** With at most k transfers in flight, of at most max kobo each, the balance never falls below -(k - 1) * max,
      whatever credits, reversals and crashes come in between. */
  lemma OverdraftBound(ls: seq<Label>, a: AccountId, k: nat, max: nat)
    requires a.Virtual? && 1 <= k && Bounded(ls, a, k, max)
    ensures Balance(Run(INIT, ls).db.entries, a) >= -((k - 1) * max)
  {
    UncommittedBound(ls, a, k, max, (k - 1) * max);
    BalanceAboveUncommitted(ls, a);
  }

  /** One transfer at a time never overdraws. */
  lemma NoOverdraftWhenSerial(ls: seq<Label>, a: AccountId, max: nat)
    requires a.Virtual? && Bounded(ls, a, 1, max)
    ensures Balance(Run(INIT, ls).db.entries, a) >= 0
  {
    UncommittedBound(ls, a, 1, max, 0);
    BalanceAboveUncommitted(ls, a);
  }

  // ----- which runs are safe -----

  /** A funds check that passes on the account leaves room for every amount already checked there. */
  predicate Prudent(s: State, l: Label, a: AccountId) {
    l.Check? && l.d.account == a && StepCheck(s, l.d) != s ==> l.d.amount <= Uncommitted(s, a)
  }

  ghost predicate PrudentRun(ls: seq<Label>, a: AccountId) {
    forall n :: 0 <= n < |ls| ==> Prudent(Run(INIT, ls[..n]), ls[n], a)
  }

  lemma CheckedUncommitted(s: State, d: DebitRequest, a: AccountId)
    ensures Uncommitted(StepCheck(s, d), a) ==
      Uncommitted(s, a) - (if d.account == a && StepCheck(s, d) != s then d.amount else 0)
  {
    SumAppend(s.transfers, Transfer(d, Checked), CheckedKobo(a));
  }

  lemma {:induction false} PrudentKeepsRoom(ls: seq<Label>, a: AccountId)
    requires a.Virtual? && PrudentRun(ls, a)
    ensures Uncommitted(Run(INIT, ls), a) >= 0
  {
    if ls != [] {
      var front, l := ls[..|ls| - 1], ls[|ls| - 1];
      forall n | 0 <= n < |front| ensures Prudent(Run(INIT, front[..n]), front[n], a) {
        assert front[..n] == ls[..n];
      }
      PrudentKeepsRoom(front, a);
      assert Prudent(Run(INIT, front), l, a);
      if l.Check? {
        CheckedUncommitted(Run(INIT, front), l.d, a);
      } else {
        PositiveAmounts(front);
        StepUncommitted(Run(INIT, front), l, a);
      }
    }
  }

  /** In a prudent run, however many transfers overlap, the balance is never negative. */
  lemma PrudentNeverOverdraws(ls: seq<Label>, a: AccountId)
    requires a.Virtual? && PrudentRun(ls, a)
    ensures Balance(Run(INIT, ls).db.entries, a) >= 0
  {
    PrudentKeepsRoom(ls, a);
    BalanceAboveUncommitted(ls, a);
  }

  /** The pools behind the checked transfers on the account exist, so that their debits can commit. */
  ghost predicate CanDebit(s: State, a: AccountId) {
    forall t <- s.transfers :: t.phase.Checked? && t.d.account == a ==>
      0 < t.d.amount && System(t.d.org, Pool) in s.db.systemAccounts
  }

  lemma DebitKeepsUncommitted(s: State, i: nat, a: AccountId)
    requires a.Virtual? && CanDebit(s, a) && i < |s.transfers|
    ensures var s' := StepInsertDebit(s, i, 0, NO_FAULT);
      && Uncommitted(s', a) == Uncommitted(s, a) && s'.db.systemAccounts == s.db.systemAccounts
      && |s'.transfers| == |s.transfers| && !s'.transfers[i].phase.Checked?
      && forall j :: 0 <= j < |s.transfers| && j != i ==> s'.transfers[j] == s.transfers[j]
  {
    if s.transfers[i].phase.Checked? {
      var d := s.transfers[i].d;
      assert s.transfers[i] in s.transfers;
      MovedUncommitted(s, i, AwaitingAnswer, a);
      MovedUncommitted(s, i, Abandoned, a);
      DebitShifts(s.db.entries, Only(a), d.org, d.account, d.amount, d.ref, 0, s.db.nextId);
    }
  }

  lemma {:induction false} DebitsKeepUncommitted(s: State, k: nat, a: AccountId)
    requires a.Virtual? && CanDebit(s, a) && k <= |s.transfers|
    ensures var s' := Run(s, Debits(k));
      && Uncommitted(s', a) == Uncommitted(s, a) && s'.db.systemAccounts == s.db.systemAccounts
      && |s'.transfers| == |s.transfers|
      && (forall j :: 0 <= j < k ==> !s'.transfers[j].phase.Checked?)
      && forall j :: k <= j < |s.transfers| ==> s'.transfers[j] == s.transfers[j]
  {
    if k > 0 {
      assert Debits(k)[..k - 1] == Debits(k - 1);
      DebitsKeepUncommitted(s, k - 1, a);
      var mid := Run(s, Debits(k - 1));
      forall t <- mid.transfers | t.phase.Checked? && t.d.account == a
        ensures 0 < t.d.amount && System(t.d.org, Pool) in mid.db.systemAccounts
      {
        var j :| 0 <= j < |mid.transfers| && mid.transfers[j] == t;
        assert j >= k - 1 && s.transfers[j] in s.transfers;
      }
      DebitKeepsUncommitted(mid, k - 1, a);
    }
  }

  /** A state that has checked more than the balance is overdrawn once its debits are inserted. */
  lemma ShortStateOverdraws(s: State, a: AccountId)
    requires a.Virtual? && CanDebit(s, a) && Uncommitted(s, a) < 0
    ensures Balance(Run(s, Debits(|s.transfers|)).db.entries, a) < 0
  {
    DebitsKeepUncommitted(s, |s.transfers|, a);
    var s' := Run(s, Debits(|s.transfers|));
    forall t <- s'.transfers ensures CheckedKobo(a)(t) == 0 {
      var j :| 0 <= j < |s'.transfers| && s'.transfers[j] == t;
    }
    SumZero(s'.transfers, CheckedKobo(a));
  }

  /** The discipline is exact: after any run, an imprudent check can be continued to an overdraft by debits alone. */
  lemma ImprudentCheckOverdraws(ls: seq<Label>, l: Label, a: AccountId)
    requires a.Virtual? && !Prudent(Run(INIT, ls), l, a) && CanDebit(Step(Run(INIT, ls), l), a)
    ensures exists ms: seq<Label> ::
      (forall m <- ms :: m.InsertDebit?) && Balance(Run(INIT, ls + [l] + ms).db.entries, a) < 0
  {
    var s := Run(INIT, ls);
    var ms := Debits(|Step(s, l).transfers|);
    CheckedUncommitted(s, l.d, a);
    ShortStateOverdraws(Step(s, l), a);
    assert (ls + [l])[..|ls|] == ls;
    RunConcat(INIT, ls + [l], ms);
  }

  // ----- the bound is reached -----

  const ORG: OrgId := 1
  const ACCOUNT := VirtualAccount(7, ORG, Active)

  function FullDebit(max: int): DebitRequest { DebitRequest(ORG, Virtual(7), max, "t") }

  // One credit of max kobo to a fresh account.
  function Funding(max: int): seq<Label> {
    [Seed(ORG), OpenAccount("n", ACCOUNT), Mark(Event("e", PAYMENT_SUCCESS, "n", max as real / 100.0)),
     Lookup(0, true), Commit(0, 0, NO_WEBHOOK_FAULT)]
  }

  function Checks(max: int, k: nat): seq<Label> { seq(k, _ => Check(FullDebit(max))) }

  function Debits(k: nat): seq<Label> { seq(k, i requires 0 <= i => InsertDebit(i, 0, NO_FAULT)) }

  // k transfers of which the first j have inserted their debit.
  function Burst(max: int, k: nat, j: nat): seq<Transfer> {
    seq(k, i => Transfer(FullDebit(max), if i < j then AwaitingAnswer else Checked))
  }

  lemma FundingEffect(max: int)
    requires max > 0
    ensures var s := Run(INIT, Funding(max));
      s.transfers == [] && System(ORG, Pool) in s.db.systemAccounts && Balance(s.db.entries, Virtual(7)) == max
  {
    var ls := Funding(max);
    var ev := ls[2].ev;
    ExactKobo(max);
    var s1 := Step(INIT, ls[0]);
    var s2 := Step(s1, ls[1]);
    var s3 := Step(s2, ls[2]);
    var s4 := Step(s3, ls[3]);
    var s5 := Step(s4, ls[4]);
    assert s4.handlers == [Routed(ev, ToCustomer(ORG, Virtual(7)))];
    CreditShifts([], Only(Virtual(7)), ORG, Virtual(7), max, "e", InboundCredit, 0, 0);
    assert [] + CreditLegs(ORG, Virtual(7), max, "e", InboundCredit, 0, 0) == s5.db.entries;
    assert Run(INIT, ls) == s5 by {
      assert ls[..4][..3] == ls[..3] && ls[..3][..2] == ls[..2] && ls[..2][..1] == ls[..1] && ls[..1][..0] == [];
      assert Run(INIT, ls[..1]) == s1;
      assert Run(INIT, ls[..2]) == s2;
      assert Run(INIT, ls[..3]) == s3;
      assert Run(INIT, ls[..4]) == s4;
    }
  }

  lemma {:induction false} ChecksEffect(s: State, max: int, k: nat)
    requires s.transfers == [] && max > 0 && Balance(s.db.entries, Virtual(7)) == max
    ensures Run(s, Checks(max, k)) == s.(transfers := Burst(max, k, 0))
  {
    var ls := Checks(max, k);
    if k > 0 {
      assert ls[..k - 1] == Checks(max, k - 1);
      ChecksEffect(s, max, k - 1);
      assert Burst(max, k, 0) == Burst(max, k - 1, 0) + [Transfer(FullDebit(max), Checked)];
    } else {
      assert Burst(max, 0, 0) == [];
    }
  }

  lemma DebitEffect(s: State, max: int, k: nat, j: nat)
    requires j < k && max > 0 && s.transfers == Burst(max, k, j) && System(ORG, Pool) in s.db.systemAccounts
    ensures var s' := StepInsertDebit(s, j, 0, NO_FAULT);
      && s'.transfers == Burst(max, k, j + 1) && s'.db.systemAccounts == s.db.systemAccounts
      && Balance(s'.db.entries, Virtual(7)) == Balance(s.db.entries, Virtual(7)) - max
  {
    var d := FullDebit(max);
    DebitShifts(s.db.entries, Only(Virtual(7)), ORG, d.account, max, d.ref, 0, s.db.nextId);
    assert Burst(max, k, j + 1) == Burst(max, k, j)[j := Transfer(d, AwaitingAnswer)];
  }

  lemma OneMore(j: nat, max: int)
    ensures j * max == (j - 1) * max + max
  {
  }

  lemma {:induction false} DebitsEffect(s: State, max: int, k: nat, j: nat)
    requires j <= k && max > 0 && s.transfers == Burst(max, k, 0) && System(ORG, Pool) in s.db.systemAccounts
    ensures var s' := Run(s, Debits(j));
      && s'.transfers == Burst(max, k, j) && s'.db.systemAccounts == s.db.systemAccounts
      && Balance(s'.db.entries, Virtual(7)) == Balance(s.db.entries, Virtual(7)) - j * max
  {
    var ls := Debits(j);
    if j > 0 {
      assert ls[..j - 1] == Debits(j - 1);
      DebitsEffect(s, max, k, j - 1);
      DebitEffect(Run(s, Debits(j - 1)), max, k, j - 1);
      OneMore(j, max);
    }
  }

  lemma {:induction false} BurstInFlight(max: int, k: nat, j: nat)
    requires j <= k
    ensures Sum(Burst(max, k, j), CheckedCount(Virtual(7))) <= k
  {
    if k > 0 {
      var last := k - 1;
      if j <= last {
        BurstInFlight(max, last, j);
        assert Burst(max, k, j) == Burst(max, last, j) + [Transfer(FullDebit(max), Checked)];
      } else {
        BurstInFlight(max, last, last);
        assert Burst(max, k, k) == Burst(max, last, last) + [Transfer(FullDebit(max), AwaitingAnswer)];
      }
      SumAppend(Burst(max, last, if j <= last then j else last), Burst(max, k, j)[last], CheckedCount(Virtual(7)));
    }
  }

  lemma {:induction false} NoCheckNoTransfer(ls: seq<Label>)
    requires forall l <- ls :: !l.Check?
    ensures Run(INIT, ls).transfers == []
  {
    if ls != [] {
      NoCheckNoTransfer(ls[..|ls| - 1]);
    }
  }

  function BurstRun(max: int, k: nat): seq<Label> {
    Funding(max) + (Checks(max, k) + Debits(k))
  }

  // After the funding, with m checks and then j debits done.
  lemma BurstState(max: int, m: nat, j: nat)
    requires max > 0 && j <= m
    ensures var s := Run(INIT, Funding(max) + (Checks(max, m) + Debits(j)));
      && s.transfers == Burst(max, m, j)
      && Balance(s.db.entries, Virtual(7)) == max - j * max
  {
    FundingEffect(max);
    var funded := Run(INIT, Funding(max));
    RunConcat(INIT, Funding(max), Checks(max, m) + Debits(j));
    RunConcat(funded, Checks(max, m), Debits(j));
    ChecksEffect(funded, max, m);
    DebitsEffect(Run(funded, Checks(max, m)), max, m, j);
  }

  lemma BurstWithin(max: int, m: nat, j: nat, k: nat)
    requires max > 0 && j <= m <= k
    ensures var s := Run(INIT, Funding(max) + (Checks(max, m) + Debits(j)));
      InFlight(s, Virtual(7)) <= k && AmountsWithin(s, Virtual(7), max)
  {
    BurstState(max, m, j);
    BurstInFlight(max, m, j);
  }

  // Every prefix of the burst is of one of three shapes.
  lemma BurstPrefix(max: int, k: nat, n: nat)
    requires max > 0 && n <= |BurstRun(max, k)|
    ensures var s := Run(INIT, BurstRun(max, k)[..n]);
      InFlight(s, Virtual(7)) <= k && AmountsWithin(s, Virtual(7), max)
  {
    var f, c, d, prefix := Funding(max), Checks(max, k), Debits(k), BurstRun(max, k)[..n];
    if n <= 5 {
      assert prefix == f[..n];
      NoCheckNoTransfer(prefix);
    } else if n <= 5 + k {
      assert prefix == f + (Checks(max, n - 5) + Debits(0));
      BurstWithin(max, n - 5, 0, k);
    } else {
      assert prefix == f + (c + Debits(n - 5 - k));
      BurstWithin(max, k, n - 5 - k, k);
    }
  }

  /** The bound is attained for every k and every amount: with two or more transfers in flight the check does not
      prevent a negative balance. */
  lemma OverdraftIsReached(k: nat, max: nat)
    requires 1 <= k && 1 <= max
    ensures Bounded(BurstRun(max, k), Virtual(7), k, max)
    ensures Balance(Run(INIT, BurstRun(max, k)).db.entries, Virtual(7)) == -((k - 1) * max)
  {
    var ls := BurstRun(max, k);
    forall n | 0 <= n <= |ls|
      ensures InFlight(Run(INIT, ls[..n]), Virtual(7)) <= k && AmountsWithin(Run(INIT, ls[..n]), Virtual(7), max)
    {
      BurstPrefix(max, k, n);
    }
    BurstState(max, k, k);
    assert (k - 1) * max == k * max - max;
  }
}
