/** A run without one of its transfers: what the books would be had that transfer never been requested. */
module Counterfactual {
  import opened Sums
  import opened Kobo
  import opened Ledger
  import opened Store
  import opened Posting
  import opened Webhook
  import opened MoneyFlow
  import opened Books
  import opened Overdraft
  import Transfers

  function Without<T>(xs: seq<T>, i: nat): seq<T> {
    if i < |xs| then xs[..i] + xs[i + 1..] else xs
  }

  /** The two states agree on everything but transfer i, the rows it wrote, and the ids drawn since. */
  ghost predicate Alike(s: State, s': State, i: nat) {
    && s'.handlers == s.handlers && s'.jobs == s.jobs && s'.receipts == s.receipts
    && s'.transfers == Without(s.transfers, i)
    && s'.db.processed == s.db.processed && s'.db.accounts == s.db.accounts
    && s'.db.systemAccounts == s.db.systemAccounts
  }

  function Shifted(j: nat, i: nat): nat { if j > i then j - 1 else j }

  /** The label for the run without transfer i: none for a label of i, nor for a funds check that failed. */
  function Translated(s: State, l: Label, i: nat): seq<Label> {
    match l
    case Check(d) => if StepCheck(s, d) == s || |s.transfers| == i then [] else [l]
    case InsertDebit(j, now, fault) => if j == i then [] else [InsertDebit(Shifted(j, i), now, fault)]
    case Answer(j, accepted, paid) => if j == i then [] else [Answer(Shifted(j, i), accepted, paid)]
    case Reverse(j, now, fault) => if j == i then [] else [Reverse(Shifted(j, i), now, fault)]
    case StopTransfer(j) => if j == i then [] else [StopTransfer(Shifted(j, i))]
    case _ => [l]
  }

  function Rewritten(ls: seq<Label>, i: nat): seq<Label> {
    if ls == [] then []
    else
      var front := ls[..|ls| - 1];
      Rewritten(front, i) + Translated(Run(INIT, front), ls[|ls| - 1], i)
  }

  // ----- the balances of the two runs -----

  lemma TotalsApart(s: State, s': State, i: nat, scope: Scope)
    requires Alike(s, s', i) && Explained(s, scope) && Explained(s', scope)
    ensures Total(s'.db.entries, scope) ==
      Total(s.db.entries, scope) - (if i < |s.transfers| then TransferIn(scope)(s.transfers[i]) else 0)
  {
    if i < |s.transfers| {
      SumSplitAt(s.transfers, i, TransferIn(scope));
      SumConcat(s.transfers[..i], s.transfers[i + 1..], TransferIn(scope));
    }
  }

  // Without the transfer every customer has at least as much, so a funds check that passed passes again.
  lemma RicherWithout(s: State, s': State, i: nat, a: AccountId)
    requires Alike(s, s', i) && Explained(s, Only(a)) && Explained(s', Only(a))
    requires a.Virtual? && forall t <- s.transfers :: 0 < t.d.amount
    ensures Balance(s'.db.entries, a) >= Balance(s.db.entries, a)
  {
    TotalsApart(s, s', i, Only(a));
    if i < |s.transfers| {
      assert s.transfers[i] in s.transfers;
    }
  }

  // ----- one step -----

  lemma ShiftedAt(xs: seq<Transfer>, j: nat, i: nat)
    requires j != i
    ensures j < |xs| ==> Shifted(j, i) < |Without(xs, i)| && Without(xs, i)[Shifted(j, i)] == xs[j]
    ensures j >= |xs| ==> Shifted(j, i) >= |Without(xs, i)|
  {
  }

  lemma MovedAlike(s: State, s': State, j: nat, phase: Phase, i: nat)
    requires Alike(s, s', i) && j != i && j < |s.transfers|
    ensures Shifted(j, i) < |s'.transfers| && Alike(Moved(s, j, phase), Moved(s', Shifted(j, i), phase), i)
  {
    ShiftedAt(s.transfers, j, i);
    var moved := s.transfers[j].(phase := phase);
    assert Without(s.transfers[j := moved], i) == Without(s.transfers, i)[Shifted(j, i) := moved];
  }

  lemma CheckAlike(s: State, s': State, d: DebitRequest, i: nat)
    requires Alike(s, s', i) && Explained(s, Only(d.account)) && Explained(s', Only(d.account))
    requires d.account.Virtual? && forall t <- s.transfers :: 0 < t.d.amount
    ensures Alike(StepCheck(s, d), if Translated(s, Check(d), i) == [] then s' else StepCheck(s', d), i)
  {
    RicherWithout(s, s', i, d.account);
    if StepCheck(s, d) != s {
      var t := Transfer(d, Checked);
      assert i < |s.transfers| ==> Without(s.transfers + [t], i) == Without(s.transfers, i) + [t];
      assert i == |s.transfers| ==> Without(s.transfers + [t], i) == s.transfers;
    }
  }

  lemma CommitAlike(s: State, s': State, h: nat, now: int, f: WebhookFaults, i: nat)
    requires Alike(s, s', i)
    ensures Alike(StepCommit(s, h, now, f), StepCommit(s', h, now, f), i)
  {
    if h < |s.handlers| && s.handlers[h].Routed? {
      var Routed(ev, dest) := s.handlers[h];
      SameCommit(s.db, s'.db, ev, dest, now, f);
    }
  }

  lemma SameCommit(t: Tables, t': Tables, ev: Event, dest: Destination, now: int, f: WebhookFaults)
    requires t'.systemAccounts == t.systemAccounts
    ensures Commits(t', ev, dest, now, f) <==> Commits(t, ev, dest, now, f)
  {
    match dest
    case ToSuspense(org) =>
      var kobo := NairaToKobo(ev.naira);
      SameAmounts(SuspenseLeg(org, kobo, ev.txn, now, t.nextId), SuspenseLeg(org, kobo, ev.txn, now, t'.nextId),
        f.insert.failAt);
    case ToCustomer(org, account) =>
      var req := CreditOf(ev, org, account);
      SameAmounts(CreditBatch(t, req, now), CreditBatch(t', req, now), f.insert.failAt);
  }

  lemma SameAmounts(xs: seq<Entry>, ys: seq<Entry>, failAt: Option<nat>)
    requires |xs| == |ys| && forall k :: 0 <= k < |xs| ==> xs[k].amount == ys[k].amount
    ensures Accepts(xs, failAt) <==> Accepts(ys, failAt)
  {
    assert (forall e <- xs :: e.amount > 0) <==> (forall k :: 0 <= k < |xs| ==> xs[k].amount > 0);
    assert (forall e <- ys :: e.amount > 0) <==> (forall k :: 0 <= k < |ys| ==> ys[k].amount > 0);
  }

  lemma InsertAlike(s: State, s': State, j: nat, fault: InsertFault, i: nat)
    requires Alike(s, s', i)
    ensures Alike(StepInsert(s, j, fault), StepInsert(s', j, fault), i)
  {
    if j < |s.jobs| && s.jobs[j].Selected? {
      SameAmounts(JobBatch(s.db, s.jobs[j]), JobBatch(s'.db, s.jobs[j]), fault.failAt);
    }
  }

  lemma InsertDebitAlike(s: State, s': State, j: nat, now: int, fault: InsertFault, i: nat)
    requires Alike(s, s', i)
    ensures Alike(
      StepInsertDebit(s, j, now, fault), if j == i then s' else StepInsertDebit(s', Shifted(j, i), now, fault), i)
  {
    if j != i {
      ShiftedAt(s.transfers, j, i);
      if j < |s.transfers| && s.transfers[j].phase.Checked? {
        var d := s.transfers[j].d;
        SameAmounts(DebitBatch(s.db, d, now), DebitBatch(s'.db, d, now), fault.failAt);
        MovedAlike(s, s', j, AwaitingAnswer, i);
        MovedAlike(s, s', j, Abandoned, i);
      }
    }
  }

  lemma ReverseAlike(s: State, s': State, j: nat, now: int, fault: InsertFault, i: nat)
    requires Alike(s, s', i)
    ensures Alike(StepReverse(s, j, now, fault), if j == i then s' else StepReverse(s', Shifted(j, i), now, fault), i)
  {
    if j != i {
      ShiftedAt(s.transfers, j, i);
      if j < |s.transfers| && s.transfers[j].phase.AwaitingReversal? {
        var req := Transfers.ReversalOf(s.transfers[j].d);
        SameAmounts(CreditBatch(s.db, req, now), CreditBatch(s'.db, req, now), fault.failAt);
        MovedAlike(s, s', j, Reversed(s.transfers[j].phase.paid), i);
        MovedAlike(s, s', j, Stranded(s.transfers[j].phase.paid), i);
      }
    }
  }

  lemma AnswerAlike(s: State, s': State, j: nat, accepted: bool, paid: bool, i: nat)
    requires Alike(s, s', i)
    ensures Alike(
      StepAnswer(s, j, accepted, paid), if j == i then s' else StepAnswer(s', Shifted(j, i), accepted, paid), i)
    ensures Alike(StepStopTransfer(s, j), if j == i then s' else StepStopTransfer(s', Shifted(j, i)), i)
  {
    if j != i {
      ShiftedAt(s.transfers, j, i);
      if j < |s.transfers| {
        MovedAlike(s, s', j, if accepted then Accepted else AwaitingReversal(paid), i);
        MovedAlike(s, s', j, Abandoned, i);
      }
    }
  }

  lemma StepAlike(s: State, s': State, l: Label, i: nat)
    requires Alike(s, s', i)
    requires l.Check? && StepCheck(s, l.d) != s ==> l.d.account.Virtual?
    requires l.Check? ==> Explained(s, Only(l.d.account)) && Explained(s', Only(l.d.account))
    requires forall t <- s.transfers :: 0 < t.d.amount
    ensures Alike(Step(s, l), Run(s', Translated(s, l, i)), i)
  {
    RunOne(s', Translated(s, l, i));
    match l
    case Commit(h, now, f) => CommitAlike(s, s', h, now, f, i);
    case Insert(j, fault) => InsertAlike(s, s', j, fault, i);
    case Check(d) =>
      if StepCheck(s, d) != s {
        CheckAlike(s, s', d, i);
      }
    case InsertDebit(j, now, fault) => InsertDebitAlike(s, s', j, now, fault, i);
    case Answer(j, accepted, paid) => AnswerAlike(s, s', j, accepted, paid, i);
    case Reverse(j, now, fault) => ReverseAlike(s, s', j, now, fault, i);
    case StopTransfer(j) => AnswerAlike(s, s', j, true, true, i);
    case _ =>
  }

  lemma RunOne(s: State, ls: seq<Label>)
    requires |ls| <= 1
    ensures Run(s, ls) == if ls == [] then s else Step(s, ls[0])
  {
    if |ls| == 1 {
      assert ls[..0] == [];
    }
  }

  // ----- whole runs -----

  lemma TransfersStay(s: State, l: Label)
    ensures |s.transfers| <= |Step(s, l).transfers|
    ensures forall k :: 0 <= k < |s.transfers| ==> Step(s, l).transfers[k].d == s.transfers[k].d
  {
  }

  ghost predicate OnCustomers(s: State) {
    forall t <- s.transfers :: t.d.account.Virtual?
  }

  lemma EarlierOnCustomers(s: State, l: Label)
    requires OnCustomers(Step(s, l))
    ensures OnCustomers(s)
    ensures l.Check? && StepCheck(s, l.d) != s ==> l.d.account.Virtual?
  {
    TransfersStay(s, l);
    var s' := Step(s, l);
    forall t <- s.transfers ensures t.d.account.Virtual? {
      var k :| 0 <= k < |s.transfers| && s.transfers[k] == t;
      assert s'.transfers[k] in s'.transfers;
    }
    if l.Check? && StepCheck(s, l.d) != s {
      assert s'.transfers[|s.transfers|] in s'.transfers;
    }
  }

  /** The rewritten run goes through without transfer i: every other transfer and every receipt is as it was. */
  lemma {:induction false} RewrittenIsAlike(ls: seq<Label>, i: nat)
    requires OnCustomers(Run(INIT, ls))
    ensures Alike(Run(INIT, ls), Run(INIT, Rewritten(ls, i)), i)
  {
    if ls != [] {
      var front, l := ls[..|ls| - 1], ls[|ls| - 1];
      var s, ms := Run(INIT, front), Rewritten(front, i);
      EarlierOnCustomers(s, l);
      RewrittenIsAlike(front, i);
      PositiveAmounts(front);
      if l.Check? {
        BooksBalance(front, Only(l.d.account));
        BooksBalance(ms, Only(l.d.account));
      }
      StepAlike(s, Run(INIT, ms), l, i);
      RunConcat(INIT, ms, Translated(s, l, i));
    }
  }

  /** Had transfer i never run, every total would differ by exactly what i still has on the books. */
  lemma TransferContributes(ls: seq<Label>, i: nat, scope: Scope)
    requires OnCustomers(Run(INIT, ls)) && i < |Run(INIT, ls).transfers|
    ensures var s, s' := Run(INIT, ls), Run(INIT, Rewritten(ls, i));
      && s'.receipts == s.receipts && s'.transfers == Without(s.transfers, i)
      && Total(s'.db.entries, scope) == Total(s.db.entries, scope) - TransferIn(scope)(s.transfers[i])
  {
    RewrittenIsAlike(ls, i);
    BooksBalance(ls, scope);
    BooksBalance(Rewritten(ls, i), scope);
    TotalsApart(Run(INIT, ls), Run(INIT, Rewritten(ls, i)), i, scope);
  }

  /** A rejected and reversed transfer leaves no trace: there is a run without it, with the same receipts and the same
      other transfers, and with the same total over every set of accounts. */
  lemma ReversedLeavesNoTrace(ls: seq<Label>, i: nat)
    requires OnCustomers(Run(INIT, ls))
    requires i < |Run(INIT, ls).transfers| && Run(INIT, ls).transfers[i].phase.Reversed?
    ensures exists ls' :: var s, s' := Run(INIT, ls), Run(INIT, ls');
      && s'.receipts == s.receipts && s'.transfers == Without(s.transfers, i)
      && forall scope: Scope :: Total(s'.db.entries, scope) == Total(s.db.entries, scope)
  {
    var s, s' := Run(INIT, ls), Run(INIT, Rewritten(ls, i));
    RewrittenIsAlike(ls, i);
    forall scope: Scope ensures Total(s'.db.entries, scope) == Total(s.db.entries, scope) {
      TransferContributes(ls, i, scope);
      assert TransferIn(scope)(s.transfers[i]) == 0;
    }
  }
}
