/** The books balance in every reachable state: conservation, zero-sum, and the reconciliation delta. */
module Books {
  import opened Sums
  import opened Kobo
  import opened Ledger
  import opened Store
  import opened Posting
  import opened Webhook
  import opened Backfill
  import opened MoneyFlow
  import Transfers

  // What one inbound posting and one transfer contribute to the accounts of a scope.

  function ReceiptIn(scope: Scope): Receipt -> int {
    (r: Receipt) =>
      (if scope(r.account) then r.amount else 0) -
      (if r.path == ByWebhook && scope(System(r.org, Pool)) then r.amount else 0)
  }

  // A transfer counts while its debit is on the books and has not been undone.
  function TransferIn(scope: Scope): Transfer -> int {
    (t: Transfer) =>
      if t.phase.AwaitingAnswer? || t.phase.AwaitingReversal? || t.phase.Accepted? || t.phase.Stranded?
      then (if scope(System(t.d.org, Pool)) then t.d.amount else 0) - (if scope(t.d.account) then t.d.amount else 0)
      else 0
  }

  /** Every total is explained by what came in and by the transfers still outstanding. */
  ghost predicate Explained(s: State, scope: Scope) {
    Total(s.db.entries, scope) == Sum(s.receipts, ReceiptIn(scope)) + Sum(s.transfers, TransferIn(scope))
  }

  lemma CommitExplained(s: State, h: nat, now: int, f: WebhookFaults, scope: Scope)
    requires Explained(s, scope)
    ensures Explained(StepCommit(s, h, now, f), scope)
  {
    if h < |s.handlers| && s.handlers[h].Routed? {
      var Routed(ev, dest) := s.handlers[h];
      if Commits(s.db, ev, dest, now, f) {
        SumAppend(s.receipts, ReceiptOf(ev, dest), ReceiptIn(scope));
        var kobo := NairaToKobo(ev.naira);
        match dest
        case ToSuspense(org) =>
          SingleLegShifts(s.db.entries, scope, SuspenseLeg(org, kobo, ev.txn, now, s.db.nextId)[0]);
        case ToCustomer(org, account) =>
          CreditShifts(s.db.entries, scope, org, account, kobo, ev.txn, InboundCredit, now, s.db.nextId);
      }
    }
  }

  lemma InsertExplained(s: State, j: nat, fault: InsertFault, scope: Scope)
    requires Explained(s, scope)
    ensures Explained(StepInsert(s, j, fault), scope)
  {
    if j < |s.jobs| && s.jobs[j].Selected? {
      var job := s.jobs[j];
      SumAppend(s.receipts, Receipt(job.txn.id, NairaToKobo(job.txn.naira), job.account, NIL_ORG, ByBackfill),
        ReceiptIn(scope));
      SingleLegShifts(s.db.entries, scope, JobBatch(s.db, job)[0]);
    }
  }

  lemma MovedShifts(s: State, i: nat, phase: Phase, scope: Scope)
    requires i < |s.transfers|
    ensures Sum(Moved(s, i, phase).transfers, TransferIn(scope)) ==
            Sum(s.transfers, TransferIn(scope)) - TransferIn(scope)(s.transfers[i]) +
              TransferIn(scope)(s.transfers[i].(phase := phase))
  {
    SumUpdate(s.transfers, i, s.transfers[i].(phase := phase), TransferIn(scope));
  }

  lemma CheckExplained(s: State, d: DebitRequest, scope: Scope)
    requires Explained(s, scope)
    ensures Explained(StepCheck(s, d), scope)
  {
    SumAppend(s.transfers, Transfer(d, Checked), TransferIn(scope));
  }

  lemma InsertDebitExplained(s: State, i: nat, now: int, fault: InsertFault, scope: Scope)
    requires Explained(s, scope)
    ensures Explained(StepInsertDebit(s, i, now, fault), scope)
  {
    if i < |s.transfers| && s.transfers[i].phase.Checked? {
      var d := s.transfers[i].d;
      MovedShifts(s, i, AwaitingAnswer, scope);
      MovedShifts(s, i, Abandoned, scope);
      DebitShifts(s.db.entries, scope, d.org, d.account, d.amount, d.ref, now, s.db.nextId);
    }
  }

  lemma ReverseExplained(s: State, i: nat, now: int, fault: InsertFault, scope: Scope)
    requires Explained(s, scope)
    ensures Explained(StepReverse(s, i, now, fault), scope)
  {
    if i < |s.transfers| && s.transfers[i].phase.AwaitingReversal? {
      var r := Transfers.ReversalOf(s.transfers[i].d);
      MovedShifts(s, i, Reversed(s.transfers[i].phase.paid), scope);
      MovedShifts(s, i, Stranded(s.transfers[i].phase.paid), scope);
      CreditShifts(s.db.entries, scope, r.org, r.account, r.amount, r.ref, TransferReversal, now, s.db.nextId);
    }
  }

  lemma AnswerExplained(s: State, i: nat, accepted: bool, paid: bool, scope: Scope)
    requires Explained(s, scope)
    ensures Explained(StepAnswer(s, i, accepted, paid), scope)
    ensures Explained(StepStopTransfer(s, i), scope)
  {
    if i < |s.transfers| {
      var t, w := s.transfers[i], TransferIn(scope);
      var answered := if accepted then Accepted else AwaitingReversal(paid);
      MovedShifts(s, i, answered, scope);
      assert t.phase.AwaitingAnswer? ==> w(t) == w(t.(phase := answered));
      MovedShifts(s, i, Abandoned, scope);
      assert t.phase.Checked? ==> w(t) == w(t.(phase := Abandoned)) == 0;
    }
  }

  lemma StepExplained(s: State, l: Label, scope: Scope)
    requires Explained(s, scope)
    ensures Explained(Step(s, l), scope)
  {
    match l
    case Commit(h, now, f) => CommitExplained(s, h, now, f, scope);
    case Insert(j, fault) => InsertExplained(s, j, fault, scope);
    case Check(d) => CheckExplained(s, d, scope);
    case InsertDebit(i, now, fault) => InsertDebitExplained(s, i, now, fault, scope);
    case Answer(i, accepted, paid) => AnswerExplained(s, i, accepted, paid, scope);
    case Reverse(i, now, fault) => ReverseExplained(s, i, now, fault, scope);
    case StopTransfer(i) => AnswerExplained(s, i, true, true, scope);
    case _ =>
  }

  /** The master equation, for every run and every set of accounts. */
  lemma {:induction false} BooksBalance(ls: seq<Label>, scope: Scope)
    ensures Explained(Run(INIT, ls), scope)
  {
    if ls != [] {
      BooksBalance(ls[..|ls| - 1], scope);
      StepExplained(Run(INIT, ls[..|ls| - 1]), ls[|ls| - 1], scope);
    }
  }

  // ----- where money can be -----

  predicate Placed(r: Receipt) {
    if r.path == BySuspense then r.account == System(r.org, Suspense) else r.account.Virtual?
  }

  ghost predicate WellPlaced(s: State) {
    && (forall r <- s.receipts :: Placed(r))
    && (forall h <- s.handlers :: h.Routed? && h.dest.ToCustomer? ==> h.dest.account.Virtual?)
    && (forall j <- s.jobs :: j.Selected? ==> j.account.Virtual?)
  }

  lemma StepWellPlaced(s: State, l: Label)
    requires WellPlaced(s)
    ensures WellPlaced(Step(s, l))
  {
  }

  lemma {:induction false} RunWellPlaced(ls: seq<Label>)
    ensures WellPlaced(Run(INIT, ls))
  {
    if ls != [] {
      RunWellPlaced(ls[..|ls| - 1]);
      StepWellPlaced(Run(INIT, ls[..|ls| - 1]), ls[|ls| - 1]);
    }
  }

  function KoboOf(): Receipt -> int { (r: Receipt) => r.amount }

  // What became of the money of a transfer that left the account.

  function Settled(): Transfer -> int { (t: Transfer) => if t.phase.Accepted? then t.d.amount else 0 }

  function Open(): Transfer -> int {
    (t: Transfer) => if t.phase.AwaitingAnswer? || t.phase.AwaitingReversal? then t.d.amount else 0
  }

  function Lost(): Transfer -> int { (t: Transfer) => if t.phase.Stranded? then t.d.amount else 0 }

  function Unsettled(): Transfer -> int {
    (t: Transfer) => if t.phase.AwaitingAnswer? || t.phase.AwaitingReversal? || t.phase.Stranded? then t.d.amount else 0
  }

  function AllOut(): Transfer -> int {
    (t: Transfer) =>
      if t.phase.AwaitingAnswer? || t.phase.AwaitingReversal? || t.phase.Accepted? || t.phase.Stranded?
      then t.d.amount else 0
  }

  lemma {:induction false} SumNegated<T>(xs: seq<T>, w: T -> int, v: T -> int)
    requires forall x <- xs :: v(x) == -w(x)
    ensures Sum(xs, v) == -Sum(xs, w)
  {
    if |xs| != 0 {
      SumNegated(xs[..|xs| - 1], w, v);
    }
  }

  ghost predicate OnHeldAccounts(s: State) {
    forall t <- s.transfers :: Held()(t.d.account)
  }

  lemma OutIsNegative(s: State)
    requires OnHeldAccounts(s)
    ensures Sum(s.transfers, TransferIn(Held())) == -Sum(s.transfers, AllOut())
  {
    forall t <- s.transfers ensures TransferIn(Held())(t) == -AllOut()(t) {
      assert !Held()(System(t.d.org, Pool));
    }
    SumNegated(s.transfers, AllOut(), TransferIn(Held()));
  }

  /** Conservation over whole runs, crashes and failed reversals included: the money held for customers and in suspense
      is what came in, minus accepted transfers, minus debits without an outcome yet, minus failed reversals. */
  lemma Conservation(ls: seq<Label>)
    requires OnHeldAccounts(Run(INIT, ls))
    ensures var s := Run(INIT, ls);
      Total(s.db.entries, Held()) ==
        Sum(s.receipts, KoboOf()) - Sum(s.transfers, Settled()) - Sum(s.transfers, Open()) - Sum(s.transfers, Lost())
  {
    var s := Run(INIT, ls);
    BooksBalance(ls, Held());
    RunWellPlaced(ls);
    SumAgree(s.receipts, ReceiptIn(Held()), KoboOf());
    OutIsNegative(s);
    SumPlus(s.transfers, AllOut(), Settled(), Unsettled());
    SumPlus(s.transfers, Unsettled(), Open(), Lost());
  }

  // Payouts that really happened, whatever the answer looked like.

  function PaidOut(): Transfer -> int {
    (t: Transfer) =>
      if t.phase.Accepted? || ((t.phase.AwaitingReversal? || t.phase.Reversed? || t.phase.Stranded?) && t.phase.paid)
      then t.d.amount else 0
  }

  function HeldBack(): Transfer -> int {
    (t: Transfer) =>
      if t.phase.AwaitingAnswer? || ((t.phase.AwaitingReversal? || t.phase.Stranded?) && !t.phase.paid)
      then t.d.amount else 0
  }

  function ReversedButPaid(): Transfer -> int {
    (t: Transfer) => if t.phase.Reversed? && t.phase.paid then t.d.amount else 0
  }

  function LeftHeld(): Transfer -> int {
    (t: Transfer) =>
      if t.phase.AwaitingAnswer? || t.phase.AwaitingReversal? || t.phase.Accepted? || t.phase.Stranded? ||
        (t.phase.Reversed? && t.phase.paid)
      then t.d.amount else 0
  }

  /** Whether the provider paid despite its answer is settled by that answer and carried to the end. */
  lemma PaidIsKept(s: State, l: Label, i: nat)
    requires i < |s.transfers|
    ensures i < |Step(s, l).transfers|
    ensures var before, after := s.transfers[i].phase, Step(s, l).transfers[i].phase;
      && (before.AwaitingAnswer? && after.AwaitingReversal? ==> l.Answer? && !l.accepted && after.paid == l.paid)
      && (before.AwaitingAnswer? && after.Accepted? ==> l.Answer? && l.accepted)
      && (before.AwaitingReversal? ==>
           after in {before, Reversed(before.paid), Stranded(before.paid)})
      && (before.Accepted? || before.Reversed? || before.Stranded? || before.Abandoned? ==> after == before)
  {
  }

  /** Against the money that really left, the books are too high by exactly the reversed transfers that were paid all
      the same. */
  lemma ConservationOfPayouts(ls: seq<Label>)
    requires OnHeldAccounts(Run(INIT, ls))
    ensures var s := Run(INIT, ls);
      Total(s.db.entries, Held()) ==
        Sum(s.receipts, KoboOf()) - Sum(s.transfers, PaidOut()) - Sum(s.transfers, HeldBack()) +
          Sum(s.transfers, ReversedButPaid())
  {
    var s := Run(INIT, ls);
    BooksBalance(ls, Held());
    RunWellPlaced(ls);
    SumAgree(s.receipts, ReceiptIn(Held()), KoboOf());
    OutIsNegative(s);
    SumPlus(s.transfers, LeftHeld(), AllOut(), ReversedButPaid());
    SumPlus(s.transfers, LeftHeld(), PaidOut(), HeldBack());
  }

  function SingleLegged(): Receipt -> int { (r: Receipt) => if r.path == ByWebhook then 0 else r.amount }

  /** Over all accounts the ledger sums to the single-leg postings: suspense and backfill. */
  lemma ZeroSum(ls: seq<Label>)
    ensures var s := Run(INIT, ls); Total(s.db.entries, Everyone()) == Sum(s.receipts, SingleLegged())
  {
    var s := Run(INIT, ls);
    BooksBalance(ls, Everyone());
    SumAgree(s.receipts, ReceiptIn(Everyone()), SingleLegged());
    SumZero(s.transfers, TransferIn(Everyone()));
  }

  // ----- the reconciliation delta -----

  function BackfilledInto(owned: Scope): Receipt -> int {
    (r: Receipt) => if r.path == ByBackfill && owned(r.account) then r.amount else 0
  }

  ghost predicate BelongsTo(accounts: map<string, VirtualAccount>, org: OrgId, a: AccountId) {
    exists n <- accounts :: accounts[n].org == org && a == Virtual(accounts[n].id)
  }

  /** The customer accounts opened under the org. */
  ghost function OwnedBy(s: State, org: OrgId): Scope {
    a => BelongsTo(s.db.accounts, org, a)
  }

  // Ids are fresh, and a credit goes to an account under the org of that account's row.
  ghost predicate WellOwned(s: State) {
    && (forall m <- s.db.accounts, n <- s.db.accounts :: s.db.accounts[m].id == s.db.accounts[n].id ==> m == n)
    && (forall h <- s.handlers :: h.Routed? && h.dest.ToCustomer? ==>
      BelongsTo(s.db.accounts, h.dest.org, h.dest.account))
    && (forall r <- s.receipts :: r.path == ByWebhook ==> BelongsTo(s.db.accounts, r.org, r.account))
  }

  lemma StepWellOwned(s: State, l: Label)
    requires WellOwned(s)
    ensures WellOwned(Step(s, l))
  {
    var accounts, accounts' := s.db.accounts, Step(s, l).db.accounts;
    forall org: OrgId, a: AccountId | BelongsTo(accounts, org, a) ensures BelongsTo(accounts', org, a) {
      var n :| n in accounts && accounts[n].org == org && a == Virtual(accounts[n].id);
      assert n in accounts' && accounts'[n].org == org && accounts'[n].id == accounts[n].id;
    }
    if l.Lookup? && l.h < |s.handlers| && s.handlers[l.h].Waiting? {
      var ev := s.handlers[l.h].ev;
      assert Route(s.db, ev, l.up).ToCustomer? ==>
        BelongsTo(accounts, s.db.accounts[ev.alias].org, Virtual(s.db.accounts[ev.alias].id));
    }
  }

  lemma {:induction false} RunWellOwned(ls: seq<Label>)
    ensures WellOwned(Run(INIT, ls))
  {
    if ls != [] {
      RunWellOwned(ls[..|ls| - 1]);
      StepWellOwned(Run(INIT, ls[..|ls| - 1]), ls[|ls| - 1]);
    }
  }

  /** Transfers are made on customer accounts, and under an org only on its own. */
  ghost predicate TransfersOwned(s: State, org: OrgId) {
    forall t <- s.transfers :: t.d.account.Virtual? && (t.d.org == org <==> OwnedBy(s, org)(t.d.account))
  }

  // What a webhook credit adds to the org's customers it takes from the org's pool.
  lemma CreditsMirror(s: State, org: OrgId, r: Receipt)
    requires WellOwned(s) && r in s.receipts && Placed(r)
    ensures ReceiptIn(OwnedBy(s, org))(r) == BackfilledInto(OwnedBy(s, org))(r) - ReceiptIn(Only(System(org, Pool)))(r)
  {
    var owned := OwnedBy(s, org);
    if r.path == ByWebhook {
      var n :| n in s.db.accounts && s.db.accounts[n].org == r.org && r.account == Virtual(s.db.accounts[n].id);
      assert owned(r.account) <==> r.org == org;
    }
  }

  lemma PoolMirrorsCustomers(ls: seq<Label>, org: OrgId)
    requires TransfersOwned(Run(INIT, ls), org)
    ensures var s := Run(INIT, ls);
      var owned := OwnedBy(s, org);
      Balance(s.db.entries, System(org, Pool)) == -(Total(s.db.entries, owned) - Sum(s.receipts, BackfilledInto(owned)))
  {
    var s := Run(INIT, ls);
    var pool, owned := Only(System(org, Pool)), OwnedBy(s, org);
    BooksBalance(ls, pool);
    BooksBalance(ls, owned);
    RunWellPlaced(ls);
    RunWellOwned(ls);
    forall r <- s.receipts ensures BackfilledInto(owned)(r) == ReceiptIn(pool)(r) + ReceiptIn(owned)(r) {
      CreditsMirror(s, org, r);
    }
    SumPlus(s.receipts, BackfilledInto(owned), ReceiptIn(pool), ReceiptIn(owned));
    SumNegated(s.transfers, TransferIn(pool), TransferIn(owned));
  }

  /** What a reconciliation run records: wallet plus customer balances minus backfilled money.
      With nothing backfilled, a wallet that matches the customers exactly is reported ok only when it is empty. */
  lemma ReconciliationDelta(ls: seq<Label>, org: OrgId, runAt: int, wallet: real)
    requires TransfersOwned(Run(INIT, ls), org)
    ensures var s := Run(INIT, ls);
      var row, owned := RunRow(s.db, org, runAt, wallet), OwnedBy(s, org);
      var customers, backfilled := Total(s.db.entries, owned), Sum(s.receipts, BackfilledInto(owned));
      && row.delta == NairaToKobo(wallet) + customers - backfilled
      && (row.status == Ok <==> NairaToKobo(wallet) + customers - backfilled == 0)
      && (backfilled == 0 && NairaToKobo(wallet) == customers ==> (row.status == Ok <==> customers == 0))
  {
    PoolMirrorsCustomers(ls, org);
  }
}
