/** What each money request comes to, for every input and every failing call, in terms of the rows before and after. */
module Outcomes {
  import opened Sums
  import opened Kobo
  import opened Ledger
  import opened Store
  import opened Posting
  import opened Webhook
  import opened Backfill
  import opened Transfers

  /** The INSERT of none of the first n rows fails. */
  predicate Fits(fault: InsertFault, n: nat) {
    fault.failAt == None || n <= fault.failAt.value
  }

  /** Nothing changes but the ledger rows, the marks, the deliveries and the ids drawn. */
  ghost predicate SameElsewhere(t: Tables, t': Tables) {
    t'.accounts == t.accounts && t'.systemAccounts == t.systemAccounts && t'.runs == t.runs
  }

  lemma OneRow(entries: seq<Entry>, row: Entry, a: AccountId)
    ensures Balance(entries + [row], a) == Balance(entries, a) +
      (if row.account != a then 0 else if row.direction == Credit then row.amount else -row.amount)
  {
    SumAppend(entries, row, SignedIn(Only(a)));
  }

  lemma TwoRows(entries: seq<Entry>, x: Entry, y: Entry, a: AccountId)
    ensures Balance(entries + [x, y], a) == Balance(entries, a) +
      (if x.account != a then 0 else if x.direction == Credit then x.amount else -x.amount) +
      (if y.account != a then 0 else if y.direction == Credit then y.amount else -y.amount)
  {
    SumAppendTwo(entries, x, y, SignedIn(Only(a)));
  }

  // ----- inbound webhooks -----

  /** A failing mark changes nothing; neither does a repeated id; other event types are only marked. */
  lemma NoPayment(t: Tables, ev: Event, now: int, f: WebhookFaults)
    requires !f.markUp || ev.txn in t.processed || ev.eventType != "payment_success"
    ensures var t', reply := AfterWebhook(t, ev, now, f), Webhook.ReplyTo(t, ev, now, f);
      if !f.markUp then t' == t && reply == InternalError
      else if ev.txn in t.processed then t' == t && reply == Duplicate
      else t' == t.(processed := t.processed + {ev.txn}) && reply == Ignored
  {
  }

  /** Money for an unknown number, or after a failed lookup, goes to the global suspense account, and money for a closed
      account to the suspense account of that account's org: one credit, no delivery, and the same answer even when the
      posting fails. */
  lemma PaymentToSuspense(t: Tables, ev: Event, now: int, f: WebhookFaults, org: OrgId)
    requires f.markUp && ev.txn !in t.processed && ev.eventType == "payment_success"
    requires if f.lookupUp && ev.alias in t.accounts
      then t.accounts[ev.alias].status == Closed && org == t.accounts[ev.alias].org
      else org == NIL_ORG
    ensures var t', kobo := AfterWebhook(t, ev, now, f), NairaToKobo(ev.naira);
      var posted :=
        System(org, Suspense) in t.systemAccounts && kobo > 0 && Fits(f.insert, 1) && f.insert.commits;
      && Webhook.ReplyTo(t, ev, now, f) == RoutedToSuspense
      && SameElsewhere(t, t') && t'.deliveries == t.deliveries && t'.processed == t.processed + {ev.txn}
      && (!posted ==> t'.entries == t.entries)
      && (posted ==> exists id, group ::
           var account := System(org, Suspense);
           t'.entries == t.entries + [Entry(id, account, Credit, kobo, group, ev.txn, SuspenseCredit, now)])
      && forall a :: Balance(t'.entries, a) ==
           Balance(t.entries, a) + (if posted && a == System(org, Suspense) then kobo else 0)
  {
    var kobo := NairaToKobo(ev.naira);
    var row := Entry(t.nextId + 1, System(org, Suspense), Credit, kobo, t.nextId, ev.txn, SuspenseCredit, now);
    assert Route(Marked(t, ev.txn), ev, f.lookupUp) == ToSuspense(org);
    assert SuspenseLeg(org, kobo, ev.txn, now, t.nextId) == [row];
    forall a ensures Balance(t.entries + [row], a) ==
      Balance(t.entries, a) + (if a == System(org, Suspense) then kobo else 0)
    {
      OneRow(t.entries, row, a);
    }
  }

  /** Money for an active account is credited to it against the pool of its org, together with one pending delivery for
      that org, or else only the mark remains. */
  lemma PaymentToCustomer(t: Tables, ev: Event, now: int, f: WebhookFaults)
    requires f.markUp && ev.txn !in t.processed && ev.eventType == "payment_success" && f.lookupUp
    requires ev.alias in t.accounts && t.accounts[ev.alias].status == Active
    ensures var t', kobo, va := AfterWebhook(t, ev, now, f), NairaToKobo(ev.naira), t.accounts[ev.alias];
      var posted :=
        System(va.org, Pool) in t.systemAccounts && kobo > 0 && Fits(f.insert, 2) && f.deliveryUp && f.commits;
      && Webhook.ReplyTo(t, ev, now, f) == (if posted then Processed else FailedToPost)
      && SameElsewhere(t, t') && t'.processed == t.processed + {ev.txn}
      && (!posted ==> t'.entries == t.entries && t'.deliveries == t.deliveries)
      && (posted ==>
           && (exists c, p, g ::
                 t'.entries == t.entries + [Entry(c, Virtual(va.id), Credit, kobo, g, ev.txn, InboundCredit, now),
                                            Entry(p, System(va.org, Pool), Debit, kobo, g, ev.txn, PoolLiability, now)])
           && exists id :: t'.deliveries == t.deliveries + [Delivery(id, va.org, ev, Pending, 0, None, now)])
      && forall a :: Balance(t'.entries, a) == Balance(t.entries, a) +
           (if posted && a == Virtual(va.id) then kobo else 0) -
           (if posted && a == System(va.org, Pool) then kobo else 0)
  {
    var kobo, va, n := NairaToKobo(ev.naira), t.accounts[ev.alias], t.nextId;
    var credit := Entry(n + 1, Virtual(va.id), Credit, kobo, n, ev.txn, InboundCredit, now);
    var pool := Entry(n + 2, System(va.org, Pool), Debit, kobo, n, ev.txn, PoolLiability, now);
    var marked := Marked(t, ev.txn);
    assert Route(marked, ev, f.lookupUp) == ToCustomer(va.org, Virtual(va.id));
    assert CreditBatch(marked, CreditOf(ev, va.org, Virtual(va.id)), now) == [credit, pool];
    assert forall e <- [credit, pool] :: e.amount == kobo;
    assert credit in [credit, pool];
    forall a ensures Balance(t.entries + [credit, pool], a) == Balance(t.entries, a) +
      (if a == Virtual(va.id) then kobo else 0) - (if a == System(va.org, Pool) then kobo else 0)
    {
      TwoRows(t.entries, credit, pool, a);
    }
  }

  // ----- backfill -----

  /** One listed transaction: a successful credit with a new id goes to the account with its alias number, or with its
      recipient number when the alias is empty, dated as the provider dates it; everything else is passed over. */
  lemma PullOutcome(t: Tables, p: Pull)
    ensures var t', kobo, txn := PullOne(t, p), NairaToKobo(p.txn.naira), p.txn;
      var number := if txn.alias != "" then txn.alias else txn.recipient;
      var posted :=
        && txn.kind == "CREDIT" && txn.status == "SUCCESSFUL" && p.checkUp && txn.id !in t.processed
        && p.lookupUp && number != "" && number in t.accounts
        && kobo > 0 && Fits(p.insert, 1) && p.insert.commits;
      && SameElsewhere(t, t') && t'.deliveries == t.deliveries
      && t'.processed == (if posted && p.markUp then t.processed + {txn.id} else t.processed)
      && (!posted ==> t' == t)
      && (posted ==> exists id, group ::
           var account := Virtual(t.accounts[number].id);
           t'.entries == t.entries + [Entry(id, account, Credit, kobo, group, txn.id, BackfillCredit, txn.createdAt)])
      && forall a :: Balance(t'.entries, a) ==
           Balance(t.entries, a) + (if posted && a == Virtual(t.accounts[number].id) then kobo else 0)
  {
    var kobo, txn := NairaToKobo(p.txn.naira), p.txn;
    var number := if txn.alias != "" then txn.alias else txn.recipient;
    if number in t.accounts {
      var account := Virtual(t.accounts[number].id);
      var row := Entry(t.nextId + 1, account, Credit, kobo, t.nextId, txn.id, BackfillCredit, txn.createdAt);
      assert number != "" ==> PullBatch(t, txn) == [row];
      forall a ensures Balance(t.entries + [row], a) == Balance(t.entries, a) + (if a == account then kobo else 0) {
        OneRow(t.entries, row, a);
      }
    }
  }

  // ----- outbound transfers -----

  predicate Complete(req: TransferRequest) {
    && req.amount > 0 && req.reference != "" && req.senderName != ""
    && req.destinationBank != "" && req.destinationAccount != "" && req.destinationName != ""
  }

  function IfEmpty(value: string, field: Field): seq<Field> {
    if value == "" then [field] else []
  }

  /** The empty fields of a request, in the order of its form. */
  function EmptyFields(req: TransferRequest): seq<Field> {
    IfEmpty(req.reference, Reference) + IfEmpty(req.senderName, SenderName) +
    IfEmpty(req.destinationBank, DestinationBank) + IfEmpty(req.destinationAccount, DestinationAccount) +
    IfEmpty(req.destinationName, DestinationName)
  }

  lemma OneField(req: TransferRequest, n: nat, value: string, field: Field)
    requires 0 < n <= |FIELDS| && FIELDS[n - 1] == field && (Lacks(req, field) <==> value == "")
    ensures Missing(req, n) == Missing(req, n - 1) + IfEmpty(value, field)
  {
  }

  lemma MissingIsEmptyFields(req: TransferRequest, n: nat)
    requires n == |FIELDS|
    ensures Missing(req, n) == EmptyFields(req)
  {
    OneField(req, n - 4, req.reference, Reference);
    OneField(req, n - 3, req.senderName, SenderName);
    OneField(req, n - 2, req.destinationBank, DestinationBank);
    OneField(req, n - 1, req.destinationAccount, DestinationAccount);
    OneField(req, n, req.destinationName, DestinationName);
  }

  /** What a refused request is told: a bad amount, or its empty fields. */
  lemma Refusals(req: TransferRequest)
    ensures Validate(req).Valid? <==> Complete(req)
    ensures Validate(req) == BadAmount <==> req.amount <= 0
    ensures Validate(req).MissingFields? ==> Validate(req).missing == EmptyFields(req)
  {
    MissingIsEmptyFields(req, 5);
  }

  /** The debit goes through: the balance covers it, the pool exists, and both rows are inserted and committed. */
  ghost predicate Debits(t: Tables, org: OrgId, account: AccountId, amount: int, f: TransferFaults) {
    && f.balanceUp && Balance(t.entries, account) >= amount
    && System(org, Pool) in t.systemAccounts && Fits(f.debit, 2) && f.debit.commits
  }

  lemma DebitGoesThrough(t: Tables, org: OrgId, account: AccountId, req: TransferRequest, now: int, f: TransferFaults)
    requires req.amount > 0
    ensures DebitVerdict(t, DebitOf(org, account, req), now, f.balanceUp, f.debit).Posted? <==>
      Debits(t, org, account, req.amount, f)
    ensures DebitVerdict(t, DebitOf(org, account, req), now, f.balanceUp, f.debit) == Refused(InsufficientFunds) <==>
      f.balanceUp && Balance(t.entries, account) < req.amount
  {
    var batch := DebitBatch(t, DebitOf(org, account, req), now);
    assert forall e <- batch :: e.amount == req.amount;
    assert batch[0] in batch;
  }

  /** Each answer if and only if its case. */
  lemma TransferReplies(t: Tables, org: OrgId, account: AccountId, req: TransferRequest, now: int, f: TransferFaults)
    ensures var reply := Transfers.ReplyTo(t, org, account, req, now, f);
      var ready := Complete(req) && f.clientUp;
      && (reply.BadRequest? <==> !Complete(req))
      && (reply.BadRequest? ==> (reply.why == BadAmount <==> req.amount <= 0) && !reply.why.Valid?)
      && (reply == Unavailable <==> Complete(req) && !f.clientUp)
      && (reply == Insufficient <==> ready && f.balanceUp && Balance(t.entries, account) < req.amount)
      && (reply == LedgerError <==>
           ready && !(f.balanceUp && Balance(t.entries, account) < req.amount) &&
           !Debits(t, org, account, req.amount, f))
      && (reply == ProviderRejected <==> ready && Debits(t, org, account, req.amount, f) && !f.accepts)
      && (reply == Submitted <==> ready && Debits(t, org, account, req.amount, f) && f.accepts)
  {
    Refusals(req);
    if req.amount > 0 {
      DebitGoesThrough(t, org, account, req, now, f);
    }
  }

  /** The rows of a debit: the account pays, the pool is released. */
  function PaidBy(org: OrgId, account: AccountId, req: TransferRequest, now: int, n: nat): seq<Entry> {
    [Entry(n + 1, account, Debit, req.amount, n, req.reference, TransferOut, now),
     Entry(n + 2, System(org, Pool), Credit, req.amount, n, req.reference, PoolRelease, now)]
  }

  /** The rows of a reversal: the account gets its money back from the pool under a reference of its own. */
  function GivenBack(org: OrgId, account: AccountId, req: TransferRequest, now: int, n: nat): seq<Entry> {
    [Entry(n + 1, account, Credit, req.amount, n, req.reference + "_reversal", TransferReversal, now),
     Entry(n + 2, System(org, Pool), Debit, req.amount, n, req.reference + "_reversal", PoolLiability, now)]
  }

  /** The rows each answer leaves: a submitted transfer its debit, a rejected one its debit and, when that can be
      inserted, the reversal, and every other answer none. */
  lemma TransferEffects(t: Tables, org: OrgId, account: AccountId, req: TransferRequest, now: int, f: TransferFaults)
    ensures var t' := AfterTransfer(t, org, account, req, now, f);
      var reply := Transfers.ReplyTo(t, org, account, req, now, f);
      && SameElsewhere(t, t') && t'.processed == t.processed && t'.deliveries == t.deliveries
      && (reply == Submitted ==> exists n :: t'.entries == t.entries + PaidBy(org, account, req, now, n))
      && (reply == ProviderRejected && Fits(f.reversal, 2) && f.reversal.commits ==>
           exists n, m ::
             t'.entries == t.entries + PaidBy(org, account, req, now, n) + GivenBack(org, account, req, now, m))
      && (reply == ProviderRejected && !(Fits(f.reversal, 2) && f.reversal.commits) ==>
           exists n :: t'.entries == t.entries + PaidBy(org, account, req, now, n))
      && (reply != Submitted && reply != ProviderRejected ==> t' == t)
  {
    TransferReplies(t, org, account, req, now, f);
    Refusals(req);
    var d := DebitOf(org, account, req);
    if Complete(req) && f.clientUp {
      DebitGoesThrough(t, org, account, req, now, f);
      if Debits(t, org, account, req.amount, f) {
        assert DebitBatch(t, d, now) == PaidBy(org, account, req, now, t.nextId);
        var debited := Debited(t, d, now);
        var back := CreditBatch(debited, ReversalOf(d), now);
        assert back == GivenBack(org, account, req, now, debited.nextId);
        assert forall e <- back :: e.amount == req.amount;
        assert back[0] in back;
      }
    }
  }
}
