/** How often an id is posted when webhooks and backfills overlap: the exact discipline that keeps it at one. */
module Overlap {
  import opened Sums
  import opened Kobo
  import opened Ledger
  import opened Store
  import opened Posting
  import opened Webhook
  import opened Backfill
  import opened BackfillTheorems
  import opened MoneyFlow
  import opened Protocol
  import Transfers

  function InsertedFor(txn: string): Job -> int {
    (j: Job) => if j.Inserted? && j.id == txn then 1 else 0
  }

  // Backfill jobs past their check of the id and not yet done with it.
  function Live(s: State, txn: string): int {
    Sum(s.jobs, Selecting(txn)) + Sum(s.jobs, InsertedFor(txn))
  }

  /** While the id is unmarked, no payment webhook marks it and no backfill selects it when a backfill job is live on
      it, and a job that has posted it ends with a mark that persists. */
  predicate Careful(s: State, l: Label, txn: string) {
    txn !in s.db.processed ==>
      match l
      case Mark(ev) => ev.txn == txn && ev.eventType == PAYMENT_SUCCESS ==> Live(s, txn) == 0
      case Select(p) => p.id == txn && StepSelect(s, p) != s ==> Live(s, txn) == 0
      case MarkDone(j, up) => j < |s.jobs| && s.jobs[j] == Inserted(txn) ==> up
      case StopJob(j) => j < |s.jobs| ==> s.jobs[j] != Inserted(txn)
      case _ => true
  }

  ghost predicate CarefulRun(ls: seq<Label>, txn: string) {
    forall n :: 0 <= n < |ls| ==> Careful(Run(INIT, ls[..n]), ls[n], txn)
  }

  /** An unmarked id is in the hands of at most one job; a marked one is with one handler or one job, or posted, or
      none of these. */
  ghost predicate Exclusive(s: State, txn: string) {
    var holding, received := Sum(s.handlers, Holding(txn)), Sum(s.receipts, ReceivedAs(txn));
    && 0 <= holding && 0 <= received
    && (txn in s.db.processed ==> holding + received + Sum(s.jobs, Selecting(txn)) <= 1)
    && (txn !in s.db.processed ==> holding == 0 && received == Sum(s.jobs, InsertedFor(txn)) && Live(s, txn) <= 1)
  }

  lemma JobSums(jobs: seq<Job>, txn: string)
    ensures 0 <= Sum(jobs, InsertedFor(txn)) && 0 <= Sum(jobs, Selecting(txn))
    ensures forall k :: 0 <= k < |jobs| ==> InsertedFor(txn)(jobs[k]) <= Sum(jobs, InsertedFor(txn))
  {
    SumNonNegative(jobs, Selecting(txn));
    SumNonNegative(jobs, InsertedFor(txn));
    assert forall k :: 0 <= k < |jobs| ==> jobs[k] in jobs;
  }

  lemma JobMoves(jobs: seq<Job>, j: nat, next: Job, txn: string)
    requires j < |jobs|
    ensures Sum(jobs[j := next], Selecting(txn)) ==
      Sum(jobs, Selecting(txn)) - Selecting(txn)(jobs[j]) + Selecting(txn)(next)
    ensures Sum(jobs[j := next], InsertedFor(txn)) ==
      Sum(jobs, InsertedFor(txn)) - InsertedFor(txn)(jobs[j]) + InsertedFor(txn)(next)
    ensures InsertedFor(txn)(jobs[j]) <= Sum(jobs, InsertedFor(txn)) && 0 <= Sum(jobs, Selecting(txn))
  {
    SumUpdate(jobs, j, next, Selecting(txn));
    SumUpdate(jobs, j, next, InsertedFor(txn));
    JobSums(jobs, txn);
  }

  lemma MarkExclusive(s: State, ev: Event, txn: string)
    requires Exclusive(s, txn) && Careful(s, Mark(ev), txn)
    ensures Exclusive(StepMark(s, ev), txn)
  {
    if ev.txn !in s.db.processed {
      var next := if ev.eventType == PAYMENT_SUCCESS then Waiting(ev) else Over;
      SumAppend(s.handlers, next, Holding(txn));
      JobSums(s.jobs, txn);
      assert StepMark(s, ev).handlers == s.handlers + [next];
    }
  }

  lemma LookupExclusive(s: State, h: nat, up: bool, txn: string)
    requires Exclusive(s, txn)
    ensures Exclusive(StepLookup(s, h, up), txn) && Exclusive(StepStopHandler(s, h), txn)
  {
    if h < |s.handlers| {
      HandlerStep(s, h, Over, txn);
      if s.handlers[h].Waiting? {
        HandlerStep(s, h, Routed(s.handlers[h].ev, Route(s.db, s.handlers[h].ev, up)), txn);
      }
    }
  }

  lemma CommitExclusive(s: State, h: nat, now: int, f: WebhookFaults, txn: string)
    requires Exclusive(s, txn)
    ensures Exclusive(StepCommit(s, h, now, f), txn)
  {
    if h < |s.handlers| && s.handlers[h].Routed? {
      var Routed(ev, dest) := s.handlers[h];
      var s' := StepCommit(s, h, now, f);
      HandlerStep(s, h, Over, txn);
      assert s'.handlers == s.handlers[h := Over] && s'.db.processed == s.db.processed && s'.jobs == s.jobs;
      if Commits(s.db, ev, dest, now, f) {
        assert s'.receipts == s.receipts + [ReceiptOf(ev, dest)] && ReceiptOf(ev, dest).txn == ev.txn;
        SumAppend(s.receipts, ReceiptOf(ev, dest), ReceivedAs(txn));
      }
    }
  }

  lemma SelectExclusive(s: State, p: ProviderTxn, txn: string)
    requires Exclusive(s, txn) && Careful(s, Select(p), txn)
    ensures Exclusive(StepSelect(s, p), txn)
  {
    if StepSelect(s, p) != s {
      var next := Selected(p, Virtual(s.db.accounts[AccountNumber(p)].id));
      SumAppend(s.jobs, next, Selecting(txn));
      SumAppend(s.jobs, next, InsertedFor(txn));
    }
  }

  function ReceiptOfJob(j: Job): Receipt
    requires j.Selected?
  {
    Receipt(j.txn.id, NairaToKobo(j.txn.naira), j.account, NIL_ORG, ByBackfill)
  }

  lemma InsertExclusive(s: State, j: nat, fault: InsertFault, txn: string)
    requires Exclusive(s, txn)
    ensures Exclusive(StepInsert(s, j, fault), txn)
  {
    if j < |s.jobs| && s.jobs[j].Selected? {
      JobMoves(s.jobs, j, Finished, txn);
      JobMoves(s.jobs, j, Inserted(s.jobs[j].txn.id), txn);
      SumAppend(s.receipts, ReceiptOfJob(s.jobs[j]), ReceivedAs(txn));
    }
  }

  lemma DoneExclusive(s: State, j: nat, up: bool, txn: string)
    requires Exclusive(s, txn)
    ensures Careful(s, MarkDone(j, up), txn) ==> Exclusive(StepMarkDone(s, j, up), txn)
    ensures Careful(s, StopJob(j), txn) ==> Exclusive(StepStopJob(s, j), txn)
  {
    if j < |s.jobs| {
      JobMoves(s.jobs, j, Finished, txn);
    }
  }

  lemma StepExclusive(s: State, l: Label, txn: string)
    requires Exclusive(s, txn) && Careful(s, l, txn)
    ensures Exclusive(Step(s, l), txn)
  {
    match l
    case Mark(ev) => MarkExclusive(s, ev, txn);
    case Lookup(h, up) => LookupExclusive(s, h, up, txn);
    case Commit(h, now, f) => CommitExclusive(s, h, now, f, txn);
    case StopHandler(h) => LookupExclusive(s, h, true, txn);
    case Select(p) => SelectExclusive(s, p, txn);
    case Insert(j, fault) => InsertExclusive(s, j, fault, txn);
    case MarkDone(j, up) => DoneExclusive(s, j, up, txn);
    case StopJob(j) => DoneExclusive(s, j, true, txn);
    case _ =>
  }

  lemma CarefulPrefix(ls: seq<Label>, txn: string)
    requires ls != [] && CarefulRun(ls, txn)
    ensures CarefulRun(ls[..|ls| - 1], txn) && Careful(Run(INIT, ls[..|ls| - 1]), ls[|ls| - 1], txn)
  {
    var front := ls[..|ls| - 1];
    forall n | 0 <= n < |front| ensures Careful(Run(INIT, front[..n]), front[n], txn) {
      assert front[..n] == ls[..n];
    }
  }

  lemma {:induction false} CarefulIsExclusive(ls: seq<Label>, txn: string)
    requires CarefulRun(ls, txn)
    ensures Exclusive(Run(INIT, ls), txn)
  {
    if ls != [] {
      CarefulPrefix(ls, txn);
      CarefulIsExclusive(ls[..|ls| - 1], txn);
      StepExclusive(Run(INIT, ls[..|ls| - 1]), ls[|ls| - 1], txn);
    }
  }

  // ----- receipts are postings -----

  ghost predicate Recorded(s: State, txn: string) {
    Postings(s.db, txn) == Sum(s.receipts, ReceivedAs(txn))
  }

  lemma CommitRecorded(s: State, h: nat, now: int, f: WebhookFaults, txn: string)
    requires Recorded(s, txn)
    ensures Recorded(StepCommit(s, h, now, f), txn)
  {
    if h < |s.handlers| && s.handlers[h].Routed? {
      var Routed(ev, dest) := s.handlers[h];
      if Commits(s.db, ev, dest, now, f) {
        SumAppend(s.receipts, ReceiptOf(ev, dest), ReceivedAs(txn));
        match dest
        case ToSuspense(org) =>
          SumAppend(s.db.entries, SuspenseLeg(org, NairaToKobo(ev.naira), ev.txn, now, s.db.nextId)[0], PostingOf(txn));
        case ToCustomer(org, account) =>
          var batch := CreditBatch(s.db, CreditOf(ev, org, account), now);
          SumAppendTwo(s.db.entries, batch[0], batch[1], PostingOf(txn));
      }
    }
  }

  lemma InsertRecorded(s: State, j: nat, fault: InsertFault, txn: string)
    requires Recorded(s, txn)
    ensures Recorded(StepInsert(s, j, fault), txn)
  {
    if j < |s.jobs| && s.jobs[j].Selected? {
      SumAppend(s.receipts, ReceiptOfJob(s.jobs[j]), ReceivedAs(txn));
      SumAppend(s.db.entries, JobBatch(s.db, s.jobs[j])[0], PostingOf(txn));
    }
  }

  lemma TransferRecorded(s: State, i: nat, now: int, fault: InsertFault, txn: string)
    requires Recorded(s, txn)
    ensures Recorded(StepInsertDebit(s, i, now, fault), txn) && Recorded(StepReverse(s, i, now, fault), txn)
  {
    if i < |s.transfers| {
      var debit := DebitBatch(s.db, s.transfers[i].d, now);
      var reversal := CreditBatch(s.db, Transfers.ReversalOf(s.transfers[i].d), now);
      SumAppendTwo(s.db.entries, debit[0], debit[1], PostingOf(txn));
      SumAppendTwo(s.db.entries, reversal[0], reversal[1], PostingOf(txn));
    }
  }

  lemma StepRecorded(s: State, l: Label, txn: string)
    requires Recorded(s, txn)
    ensures Recorded(Step(s, l), txn)
  {
    match l
    case Commit(h, now, f) => CommitRecorded(s, h, now, f, txn);
    case Insert(j, fault) => InsertRecorded(s, j, fault, txn);
    case InsertDebit(i, now, fault) => TransferRecorded(s, i, now, fault, txn);
    case Reverse(i, now, fault) => TransferRecorded(s, i, now, fault, txn);
    case _ =>
  }

  lemma {:induction false} RunRecorded(ls: seq<Label>, txn: string)
    ensures Recorded(Run(INIT, ls), txn)
  {
    if ls != [] {
      RunRecorded(ls[..|ls| - 1], txn);
      StepRecorded(Run(INIT, ls[..|ls| - 1]), ls[|ls| - 1], txn);
    }
  }

  /** Under any overlap, a run that is careful with the id posts it at most once, by whichever path. */
  lemma CarefulPostsOnce(ls: seq<Label>, txn: string)
    requires CarefulRun(ls, txn)
    ensures Postings(Run(INIT, ls).db, txn) <= 1
  {
    CarefulIsExclusive(ls, txn);
    RunRecorded(ls, txn);
    JobSums(Run(INIT, ls).jobs, txn);
  }

  // ----- and every careless step can post it twice -----

  predicate Creditable(t: Tables, ev: Event) {
    && ev.eventType == PAYMENT_SUCCESS && NairaToKobo(ev.naira) > 0
    && ev.alias in t.accounts && t.accounts[ev.alias].status == Active
    && System(t.accounts[ev.alias].org, Pool) in t.systemAccounts
  }

  // A webhook of an unseen event from its mark to its commit: it adds one receipt and leaves the jobs alone.
  lemma WebhookPosts(s: State, ev: Event, now: int)
    requires ev.txn !in s.db.processed && Creditable(s.db, ev)
    ensures var h := |s.handlers|;
      var s' := StepCommit(StepLookup(StepMark(s, ev), h, true), h, now, NO_WEBHOOK_FAULT);
      s'.jobs == s.jobs && Sum(s'.receipts, ReceivedAs(ev.txn)) == Sum(s.receipts, ReceivedAs(ev.txn)) + 1
  {
    var h, dest := |s.handlers|, ToCustomer(s.db.accounts[ev.alias].org, Virtual(s.db.accounts[ev.alias].id));
    var s1 := StepLookup(StepMark(s, ev), h, true);
    assert s1.handlers == s.handlers + [Routed(ev, dest)];
    assert Commits(s1.db, ev, dest, now, NO_WEBHOOK_FAULT);
    SumAppend(s.receipts, ReceiptOf(ev, dest), ReceivedAs(ev.txn));
  }

  // The next steps of a handler that has just marked the event.
  function Finishing(h: nat, now: int): seq<Label> { [Lookup(h, true), Commit(h, now, NO_WEBHOOK_FAULT)] }

  lemma FinishingSteps(s: State, h: nat, now: int)
    ensures Run(s, Finishing(h, now)) == StepCommit(StepLookup(s, h, true), h, now, NO_WEBHOOK_FAULT)
  {
    RunTwo(s, Lookup(h, true), Commit(h, now, NO_WEBHOOK_FAULT));
  }

  lemma InsertPosts(s: State, j: nat)
    requires j < |s.jobs| && s.jobs[j].Selected? && NairaToKobo(s.jobs[j].txn.naira) > 0
    ensures var id := s.jobs[j].txn.id;
      var s' := Run(s, [Insert(j, NO_FAULT)]);
      && Sum(s'.receipts, ReceivedAs(id)) == Sum(s.receipts, ReceivedAs(id)) + 1
      && s'.jobs == s.jobs[j := Inserted(id)]
  {
    assert [Insert(j, NO_FAULT)][..0] == [];
    var job := s.jobs[j];
    assert Run(s, [Insert(j, NO_FAULT)]) == StepInsert(s, j, NO_FAULT);
    assert StepInsert(s, j, NO_FAULT).receipts == s.receipts + [ReceiptOfJob(job)];
    SumAppend(s.receipts, ReceiptOfJob(job), ReceivedAs(job.txn.id));
  }

  lemma LiveJob(s: State, txn: string) returns (j: nat)
    requires Live(s, txn) > 0
    ensures j < |s.jobs| && (s.jobs[j] == Inserted(txn) || (s.jobs[j].Selected? && s.jobs[j].txn.id == txn))
  {
    if Sum(s.jobs, Selecting(txn)) > 0 {
      j := SomePositive(s.jobs, Selecting(txn));
    } else {
      j := SomePositive(s.jobs, InsertedFor(txn));
    }
  }

  // The amounts that the live jobs on the id are about to post.
  ghost predicate JobsDue(s: State, txn: string) {
    forall j <- s.jobs :: j.Selected? && j.txn.id == txn ==> NairaToKobo(j.txn.naira) > 0
  }

  lemma InsertedIsReceived(s: State, j: nat, txn: string)
    requires Exclusive(s, txn) && txn !in s.db.processed && j < |s.jobs| && s.jobs[j] == Inserted(txn)
    ensures Sum(s.receipts, ReceivedAs(txn)) >= 1
  {
    JobSums(s.jobs, txn);
  }

  lemma MarkRepeats(s: State, ev: Event) returns (ms: seq<Label>)
    requires Exclusive(s, ev.txn) && JobsDue(s, ev.txn) && Creditable(s.db, ev) && !Careful(s, Mark(ev), ev.txn)
    ensures Sum(Run(StepMark(s, ev), ms).receipts, ReceivedAs(ev.txn)) >= 2
  {
    var h, txn := |s.handlers|, ev.txn;
    JobSums(s.jobs, txn);
    var j := LiveJob(s, txn);
    WebhookPosts(s, ev, 0);
    FinishingSteps(StepMark(s, ev), h, 0);
    ms := Finishing(h, 0);
    if s.jobs[j].Selected? {
      assert s.jobs[j] in s.jobs;
      InsertPosts(Run(StepMark(s, ev), ms), j);
      RunConcat(StepMark(s, ev), ms, [Insert(j, NO_FAULT)]);
      ms := ms + [Insert(j, NO_FAULT)];
    } else {
      InsertedIsReceived(s, j, txn);
    }
  }

  lemma SelectRepeats(s: State, p: ProviderTxn) returns (ms: seq<Label>)
    requires Exclusive(s, p.id) && JobsDue(s, p.id) && NairaToKobo(p.naira) > 0 && !Careful(s, Select(p), p.id)
    ensures Sum(Run(StepSelect(s, p), ms).receipts, ReceivedAs(p.id)) >= 2
  {
    var s1, k := StepSelect(s, p), |s.jobs|;
    JobSums(s.jobs, p.id);
    var j := LiveJob(s, p.id);
    InsertPosts(s1, k);
    ms := [Insert(k, NO_FAULT)];
    if s.jobs[j].Selected? {
      assert s.jobs[j] in s.jobs;
      InsertPosts(Run(s1, ms), j);
      RunConcat(s1, ms, [Insert(j, NO_FAULT)]);
      ms := ms + [Insert(j, NO_FAULT)];
    } else {
      InsertedIsReceived(s, j, p.id);
    }
  }

  lemma LossRepeats(s: State, s': State, j: nat, ev: Event) returns (ms: seq<Label>)
    requires Exclusive(s, ev.txn) && ev.txn !in s.db.processed && j < |s.jobs| && s.jobs[j] == Inserted(ev.txn)
    requires s' == s.(jobs := s.jobs[j := Finished]) && Creditable(s.db, ev)
    ensures Sum(Run(s', ms).receipts, ReceivedAs(ev.txn)) >= 2
  {
    InsertedIsReceived(s, j, ev.txn);
    WebhookPosts(s', ev, 0);
    FinishingSteps(StepMark(s', ev), |s.handlers|, 0);
    RunConcat(s', [Mark(ev)], Finishing(|s.handlers|, 0));
    assert [Mark(ev)][..0] == [];
    assert Run(s', [Mark(ev)]) == StepMark(s', ev);
    ms := [Mark(ev)] + Finishing(|s.handlers|, 0);
  }

  /** The discipline is exact: after a careful run, every step that breaks it, be it a webhook's mark or a second
      backfill's check while a job is live, or the loss of a mark, can be continued to a second posting, provided there
      is money to post. */
  lemma CarelessPostsTwice(ls: seq<Label>, l: Label, ev: Event)
    requires CarefulRun(ls, ev.txn) && !Careful(Run(INIT, ls), l, ev.txn)
    requires JobsDue(Run(INIT, ls), ev.txn) && (l.Mark? ==> l.ev == ev)
    requires if l.Select? then NairaToKobo(l.txn.naira) > 0 else Creditable(Run(INIT, ls).db, ev)
    ensures exists ms :: Postings(Run(INIT, ls + [l] + ms).db, ev.txn) >= 2
  {
    var s := Run(INIT, ls);
    CarefulIsExclusive(ls, ev.txn);
    var ms := CarelessStep(s, l, ev);
    assert (ls + [l])[..|ls|] == ls;
    RunConcat(INIT, ls + [l], ms);
    RunRecorded(ls + [l] + ms, ev.txn);
  }

  lemma CarelessStep(s: State, l: Label, ev: Event) returns (ms: seq<Label>)
    requires Exclusive(s, ev.txn) && !Careful(s, l, ev.txn) && JobsDue(s, ev.txn) && (l.Mark? ==> l.ev == ev)
    requires if l.Select? then NairaToKobo(l.txn.naira) > 0 else Creditable(s.db, ev)
    ensures Sum(Run(Step(s, l), ms).receipts, ReceivedAs(ev.txn)) >= 2
  {
    match l
    case Mark(_) => ms := MarkRepeats(s, ev);
    case Select(p) => ms := SelectRepeats(s, p);
    case MarkDone(j, _) => ms := LossRepeats(s, Step(s, l), j, ev);
    case StopJob(j) => ms := LossRepeats(s, Step(s, l), j, ev);
  }

  /** Careless steps do happen: once a backfill has selected a credit of a fresh account, its webhook is one. */
  lemma CarelessHappens(org: OrgId, va: VirtualAccount, p: ProviderTxn, ev: Event)
    requires va.org == org && va.status == Active && SuccessfulCredit(p) && AccountNumber(p) == ev.alias != ""
    requires ev.txn == p.id && ev.eventType == PAYMENT_SUCCESS
    requires NairaToKobo(p.naira) > 0 && NairaToKobo(ev.naira) > 0
    ensures var ls := [Seed(org), OpenAccount(ev.alias, va), Select(p)];
      && CarefulRun(ls, ev.txn) && !Careful(Run(INIT, ls), Mark(ev), ev.txn)
      && exists ms :: Postings(Run(INIT, ls + [Mark(ev)] + ms).db, ev.txn) >= 2
  {
    var ls := [Seed(org), OpenAccount(ev.alias, va), Select(p)];
    var s1 := Step(INIT, ls[0]);
    var s2 := Step(s1, ls[1]);
    var s3 := Step(s2, ls[2]);
    RunThree(INIT, ls[0], ls[1], ls[2]);
    RunTwo(INIT, ls[0], ls[1]);
    assert ls[..2] == [ls[0], ls[1]] && ls[..1] == [ls[0]] && ls[..0] == [];
    assert Run(INIT, ls[..1]) == s1;
    var job := Selected(p, Virtual(va.id));
    assert s3.jobs == [job];
    SumOne(job, Selecting(ev.txn));
    SumOne(job, InsertedFor(ev.txn));
    assert Live(s2, ev.txn) == 0;
    CarelessPostsTwice(ls, Mark(ev), ev);
  }

  // ----- when a marked id is final -----

  /** Whoever still works on the id has something to post and somewhere to post it. */
  ghost predicate MoneyDue(s: State, txn: string) {
    && JobsDue(s, txn)
    && (forall h <- s.handlers :: h.Waiting? && h.ev.txn == txn ==>
          Commits(s.db, h.ev, Route(s.db, h.ev, true), 0, NO_WEBHOOK_FAULT))
    && (forall h <- s.handlers :: h.Routed? && h.ev.txn == txn ==> Commits(s.db, h.ev, h.dest, 0, NO_WEBHOOK_FAULT))
  }

  lemma RoutedPosts(s: State, h: nat)
    requires h < |s.handlers| && s.handlers[h].Routed?
    requires Commits(s.db, s.handlers[h].ev, s.handlers[h].dest, 0, NO_WEBHOOK_FAULT)
    ensures var txn := s.handlers[h].ev.txn;
      Sum(StepCommit(s, h, 0, NO_WEBHOOK_FAULT).receipts, ReceivedAs(txn)) == Sum(s.receipts, ReceivedAs(txn)) + 1
  {
    var Routed(ev, dest) := s.handlers[h];
    SumAppend(s.receipts, ReceiptOf(ev, dest), ReceivedAs(ev.txn));
  }

  lemma HolderPosts(s: State, txn: string) returns (ms: seq<Label>)
    requires MoneyDue(s, txn) && Sum(s.handlers, Holding(txn)) > 0
    ensures Sum(Run(s, ms).receipts, ReceivedAs(txn)) == Sum(s.receipts, ReceivedAs(txn)) + 1
  {
    var h := SomePositive(s.handlers, Holding(txn));
    assert s.handlers[h] in s.handlers;
    if s.handlers[h].Waiting? {
      FinishingSteps(s, h, 0);
      RoutedPosts(StepLookup(s, h, true), h);
      ms := Finishing(h, 0);
    } else {
      ms := [Commit(h, 0, NO_WEBHOOK_FAULT)];
      assert ms[..0] == [];
      assert Run(s, ms) == StepCommit(s, h, 0, NO_WEBHOOK_FAULT);
      RoutedPosts(s, h);
    }
  }

  lemma UnsettledPosts(s: State, txn: string) returns (ms: seq<Label>)
    requires txn in s.db.processed && !Settled(s, txn) && MoneyDue(s, txn)
    ensures Sum(Run(s, ms).receipts, ReceivedAs(txn)) == Sum(s.receipts, ReceivedAs(txn)) + 1
  {
    SumNonNegative(s.handlers, Holding(txn));
    SumNonNegative(s.jobs, Selecting(txn));
    if Sum(s.handlers, Holding(txn)) > 0 {
      ms := HolderPosts(s, txn);
    } else {
      var j := SomePositive(s.jobs, Selecting(txn));
      assert s.jobs[j] in s.jobs;
      InsertPosts(s, j);
      ms := [Insert(j, NO_FAULT)];
    }
  }

  /** A marked id is never posted again, in any continuation, if and only if no handler holds it and no backfill job
      selected it before the mark. */
  lemma MarkedIsFinalIff(s: State, txn: string)
    requires txn in s.db.processed && MoneyDue(s, txn)
    ensures (forall ls :: Sum(Run(s, ls).receipts, ReceivedAs(txn)) == Sum(s.receipts, ReceivedAs(txn))) <==>
      Sum(s.handlers, Holding(txn)) == 0 && Sum(s.jobs, Selecting(txn)) == 0
  {
    if Settled(s, txn) {
      forall ls ensures Sum(Run(s, ls).receipts, ReceivedAs(txn)) == Sum(s.receipts, ReceivedAs(txn)) {
        MarkedIdsAreFinal(s, ls, txn);
      }
    } else {
      var ms := UnsettledPosts(s, txn);
    }
  }
}
