/** All money operations interleaved: a transition system whose steps are the single database and provider calls.

    Any number of webhook handlers, backfill jobs and transfers overlap; each may stop after any step.
    A label whose guard fails leaves the state alone, so every sequence of labels is a run. */
module MoneyFlow {
  import opened Kobo
  import opened Ledger
  import opened Store
  import opened Posting
  import opened Webhook
  import opened Backfill
  import Transfers

  datatype Handler = Waiting(ev: Event) | Routed(ev: Event, dest: Destination) | Over

  datatype Job = Selected(txn: ProviderTxn, account: AccountId) | Inserted(id: string) | Finished

  // `paid` says whether the provider paid out although its answer was an error (a lost response, say).
  datatype Phase =
    | Checked | Abandoned | AwaitingAnswer | AwaitingReversal(paid: bool)
    | Accepted | Reversed(paid: bool) | Stranded(paid: bool)

  datatype Transfer = Transfer(d: DebitRequest, phase: Phase)

  datatype Path = ByWebhook | BySuspense | ByBackfill

  // The environment's record of one inbound posting; `org` is the org whose system account took part.
  datatype Receipt = Receipt(txn: string, amount: int, account: AccountId, org: OrgId, path: Path)

  datatype State = State(
    db: Tables, handlers: seq<Handler>, jobs: seq<Job>, transfers: seq<Transfer>, receipts: seq<Receipt>)

  const INIT := State(EMPTY, [], [], [], [])

  datatype Label =
    | Mark(ev: Event)
    | Lookup(h: nat, up: bool)
    | Commit(h: nat, now: int, f: WebhookFaults)
    | StopHandler(h: nat)
    | Select(txn: ProviderTxn)
    | Insert(j: nat, fault: InsertFault)
    | MarkDone(j: nat, up: bool)
    | StopJob(j: nat)
    | Check(d: DebitRequest)
    | InsertDebit(i: nat, now: int, fault: InsertFault)
    | Answer(i: nat, accepted: bool, paid: bool)
    | Reverse(i: nat, now: int, fault: InsertFault)
    | StopTransfer(i: nat)
    | OpenAccount(number: string, va: VirtualAccount)
    | CloseAccount(number: string)
    | Seed(org: OrgId)

  function ReceiptOf(ev: Event, dest: Destination): Receipt {
    match dest
    case ToSuspense(org) => Receipt(ev.txn, NairaToKobo(ev.naira), System(org, Suspense), org, BySuspense)
    case ToCustomer(org, account) => Receipt(ev.txn, NairaToKobo(ev.naira), account, org, ByWebhook)
  }

  function JobBatch(t: Tables, j: Job): seq<Entry>
    requires j.Selected?
  {
    BackfillLeg(j.account, NairaToKobo(j.txn.naira), j.txn.id, j.txn.createdAt, t.nextId)
  }

  // ----- webhook handlers -----

  function StepMark(s: State, ev: Event): State {
    if ev.txn in s.db.processed then s
    else
      var handler := if ev.eventType == PAYMENT_SUCCESS then Waiting(ev) else Over;
      s.(db := Marked(s.db, ev.txn), handlers := s.handlers + [handler])
  }

  function StepLookup(s: State, h: nat, up: bool): State {
    if h < |s.handlers| && s.handlers[h].Waiting? then
      var ev := s.handlers[h].ev;
      s.(handlers := s.handlers[h := Routed(ev, Route(s.db, ev, up))])
    else s
  }

  function StepCommit(s: State, h: nat, now: int, f: WebhookFaults): State {
    if h < |s.handlers| && s.handlers[h].Routed? then
      var Routed(ev, dest) := s.handlers[h];
      var over := s.(handlers := s.handlers[h := Over]);
      if Commits(s.db, ev, dest, now, f)
      then over.(db := PostRouted(s.db, ev, dest, now, f), receipts := s.receipts + [ReceiptOf(ev, dest)])
      else over
    else s
  }

  function StepStopHandler(s: State, h: nat): State {
    if h < |s.handlers| then s.(handlers := s.handlers[h := Over]) else s
  }

  // ----- backfill jobs: one per transaction, with its check, insert and mark as separate calls -----

  function StepSelect(s: State, txn: ProviderTxn): State {
    if SuccessfulCredit(txn) && txn.id !in s.db.processed && Known(s.db.accounts, txn)
    then s.(jobs := s.jobs + [Selected(txn, Virtual(s.db.accounts[AccountNumber(txn)].id))])
    else s
  }

  function StepInsert(s: State, j: nat, fault: InsertFault): State {
    if j < |s.jobs| && s.jobs[j].Selected? then
      var job := s.jobs[j];
      var batch := JobBatch(s.db, job);
      if Accepts(batch, fault.failAt) && fault.commits
      then s.(db := Appended(s.db, batch), jobs := s.jobs[j := Inserted(job.txn.id)],
              receipts := s.receipts +
                [Receipt(job.txn.id, NairaToKobo(job.txn.naira), job.account, NIL_ORG, ByBackfill)])
      else s.(jobs := s.jobs[j := Finished])
    else s
  }

  function StepMarkDone(s: State, j: nat, up: bool): State {
    if j < |s.jobs| && s.jobs[j].Inserted? then
      s.(db := if up then Marked(s.db, s.jobs[j].id) else s.db, jobs := s.jobs[j := Finished])
    else s
  }

  function StepStopJob(s: State, j: nat): State {
    if j < |s.jobs| then s.(jobs := s.jobs[j := Finished]) else s
  }

  // ----- transfers -----

  function Moved(s: State, i: nat, phase: Phase): State
    requires i < |s.transfers|
  {
    s.(transfers := s.transfers[i := s.transfers[i].(phase := phase)])
  }

  function StepCheck(s: State, d: DebitRequest): State {
    if d.amount > 0 && d.amount <= Balance(s.db.entries, d.account)
    then s.(transfers := s.transfers + [Transfer(d, Checked)])
    else s
  }

  predicate DebitCommits(t: Tables, d: DebitRequest, now: int, fault: InsertFault) {
    System(d.org, Pool) in t.systemAccounts && Accepts(DebitBatch(t, d, now), fault.failAt) && fault.commits
  }

  function StepInsertDebit(s: State, i: nat, now: int, fault: InsertFault): State {
    if i < |s.transfers| && s.transfers[i].phase.Checked? then
      var d := s.transfers[i].d;
      if DebitCommits(s.db, d, now, fault)
      then Moved(s, i, AwaitingAnswer).(db := Debited(s.db, d, now))
      else Moved(s, i, Abandoned)
    else s
  }

  function StepAnswer(s: State, i: nat, accepted: bool, paid: bool): State {
    if i < |s.transfers| && s.transfers[i].phase.AwaitingAnswer?
    then Moved(s, i, if accepted then Accepted else AwaitingReversal(paid))
    else s
  }

  function StepReverse(s: State, i: nat, now: int, fault: InsertFault): State {
    if i < |s.transfers| && s.transfers[i].phase.AwaitingReversal? then
      var req := Transfers.ReversalOf(s.transfers[i].d);
      var paid := s.transfers[i].phase.paid;
      if CreditVerdict(s.db, false, req, now, fault).Posted?
      then Moved(s, i, Reversed(paid)).(db := Credited(s.db, req, now))
      else Moved(s, i, Stranded(paid))
    else s
  }

  // A debit already written stays written: only a checked transfer disappears.
  function StepStopTransfer(s: State, i: nat): State {
    if i < |s.transfers| && s.transfers[i].phase.Checked? then Moved(s, i, Abandoned) else s
  }

  // ----- the rest of the system -----

  function StepAdmin(s: State, l: Label): State
    requires l.OpenAccount? || l.CloseAccount? || l.Seed?
  {
    match l
    case OpenAccount(n, va) =>
      if n in s.db.accounts || exists m <- s.db.accounts :: s.db.accounts[m].id == va.id then s
      else s.(db := s.db.(accounts := s.db.accounts[n := va]))
    case CloseAccount(n) =>
      if n in s.db.accounts then s.(db := s.db.(accounts := s.db.accounts[n := s.db.accounts[n].(status := Closed)]))
      else s
    case Seed(org) =>
      s.(db := s.db.(systemAccounts := s.db.systemAccounts +
        {System(org, Pool), System(org, Suspense), System(org, Fees), System(org, ReturnsClearing)}))
  }

  function Step(s: State, l: Label): State {
    match l
    case Mark(ev) => StepMark(s, ev)
    case Lookup(h, up) => StepLookup(s, h, up)
    case Commit(h, now, f) => StepCommit(s, h, now, f)
    case StopHandler(h) => StepStopHandler(s, h)
    case Select(txn) => StepSelect(s, txn)
    case Insert(j, fault) => StepInsert(s, j, fault)
    case MarkDone(j, up) => StepMarkDone(s, j, up)
    case StopJob(j) => StepStopJob(s, j)
    case Check(d) => StepCheck(s, d)
    case InsertDebit(i, now, fault) => StepInsertDebit(s, i, now, fault)
    case Answer(i, accepted, paid) => StepAnswer(s, i, accepted, paid)
    case Reverse(i, now, fault) => StepReverse(s, i, now, fault)
    case StopTransfer(i) => StepStopTransfer(s, i)
    case OpenAccount(_, _) => StepAdmin(s, l)
    case CloseAccount(_) => StepAdmin(s, l)
    case Seed(_) => StepAdmin(s, l)
  }

  function Run(s: State, ls: seq<Label>): State {
    if ls == [] then s else Step(Run(s, ls[..|ls| - 1]), ls[|ls| - 1])
  }

  lemma RunConcat(s: State, ls: seq<Label>, ms: seq<Label>)
    ensures Run(s, ls + ms) == Run(Run(s, ls), ms)
    decreases |ms|
  {
    if ms == [] {
      assert ls + ms == ls;
    } else {
      assert (ls + ms)[..|ls + ms| - 1] == ls + ms[..|ms| - 1];
      RunConcat(s, ls, ms[..|ms| - 1]);
    }
  }
}
