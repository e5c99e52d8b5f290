/** Outbound transfers: debit first, then ask the provider, and compensate when it refuses. */
module Transfers {
  import opened Ledger
  import opened Store
  import opened Posting

  datatype TransferRequest = TransferRequest(
    amount: int, reference: string, senderName: string,
    destinationBank: string, destinationAccount: string, destinationName: string)

  // The required fields, in the order in which missing ones are reported.
  datatype Field = Reference | SenderName | DestinationBank | DestinationAccount | DestinationName

  datatype Validation = Valid | BadAmount | MissingFields(missing: seq<Field>)

  // The environment of one transfer: provider client, balance read, the two ledger inserts, and the provider's answer.
  datatype TransferFaults = TransferFaults(
    clientUp: bool, balanceUp: bool, debit: InsertFault, accepts: bool, reversal: InsertFault)

  datatype TransferReply =
    | BadRequest(why: Validation) | Unavailable | Insufficient | LedgerError | ProviderRejected | Submitted

  function DebitOf(org: OrgId, account: AccountId, req: TransferRequest): DebitRequest {
    DebitRequest(org, account, req.amount, req.reference)
  }

  function ReversalOf(d: DebitRequest): CreditRequest {
    CreditRequest(d.org, d.account, d.amount, d.ref + "_reversal", Some(TransferReversal))
  }

  predicate Lacks(req: TransferRequest, f: Field) {
    match f
    case Reference => req.reference == ""
    case SenderName => req.senderName == ""
    case DestinationBank => req.destinationBank == ""
    case DestinationAccount => req.destinationAccount == ""
    case DestinationName => req.destinationName == ""
  }

  function Rank(f: Field): nat {
    match f
    case Reference => 0
    case SenderName => 1
    case DestinationBank => 2
    case DestinationAccount => 3
    case DestinationName => 4
  }

  /** Exactly the lacking fields among the first n, each once and in report order. */
  ghost predicate IsMissingList(req: TransferRequest, missing: seq<Field>, n: nat) {
    && (forall i, j :: 0 <= i < j < |missing| ==> Rank(missing[i]) < Rank(missing[j]))
    && (forall f :: f in missing <==> Rank(f) < n && Lacks(req, f))
  }

  lemma AppendMissing(req: TransferRequest, missing: seq<Field>, f: Field)
    requires IsMissingList(req, missing, Rank(f))
    ensures IsMissingList(req, if Lacks(req, f) then missing + [f] else missing, Rank(f) + 1)
  {
    var missing' := if Lacks(req, f) then missing + [f] else missing;
    assert forall g :: g in missing' <==> g in missing || (Lacks(req, f) && g == f);
    assert forall g :: Rank(g) < Rank(f) + 1 <==> Rank(g) < Rank(f) || g == f;
    assert forall m <- missing :: Rank(m) < Rank(f);
  }

  function Collect(req: TransferRequest, missing: seq<Field>, f: Field): seq<Field> {
    if Lacks(req, f) then missing + [f] else missing
  }

  const FIELDS := [Reference, SenderName, DestinationBank, DestinationAccount, DestinationName]

  function Missing(req: TransferRequest, n: nat): seq<Field>
    requires n <= |FIELDS|
  {
    if n == 0 then [] else Collect(req, Missing(req, n - 1), FIELDS[n - 1])
  }

  function Validate(req: TransferRequest): Validation {
    if req.amount <= 0 then BadAmount else if Missing(req, 5) == [] then Valid else MissingFields(Missing(req, 5))
  }

  lemma {:induction false} MissingMeaning(req: TransferRequest, n: nat)
    requires n <= |FIELDS|
    ensures IsMissingList(req, Missing(req, n), n)
  {
    if n > 0 {
      MissingMeaning(req, n - 1);
      assert Rank(FIELDS[n - 1]) == n - 1;
      AppendMissing(req, Missing(req, n - 1), FIELDS[n - 1]);
    }
  }

  /** Validation accepts exactly the positive requests that lack nothing, and otherwise names what they lack. */
  lemma ValidationMeaning(req: TransferRequest)
    ensures Validate(req).Valid? <==> req.amount > 0 && forall f :: !Lacks(req, f)
    ensures Validate(req).MissingFields? ==> IsMissingList(req, Validate(req).missing, 5)
  {
    MissingMeaning(req, 5);
    var missing := Missing(req, 5);
    if missing != [] {
      assert missing[0] in missing;
    }
  }

  method ValidateTransferRequest(req: TransferRequest) returns (v: Validation)
    ensures v == Validate(req)
  {
    if req.amount <= 0 {
      return BadAmount;
    }
    var missing := [];
    assert missing == Missing(req, 0);
    if req.reference == "" {
      missing := missing + [Reference];
    }
    assert missing == Missing(req, 1);
    if req.senderName == "" {
      missing := missing + [SenderName];
    }
    assert missing == Missing(req, 2);
    if req.destinationBank == "" {
      missing := missing + [DestinationBank];
    }
    assert missing == Missing(req, 3);
    if req.destinationAccount == "" {
      missing := missing + [DestinationAccount];
    }
    assert missing == Missing(req, 4);
    if req.destinationName == "" {
      missing := missing + [DestinationName];
    }
    assert missing == Missing(req, 5);
    if |missing| > 0 {
      return MissingFields(missing);
    }
    v := Valid;
  }

  function AfterReversal(t: Tables, d: DebitRequest, now: int, fault: InsertFault): Tables {
    if CreditVerdict(t, false, ReversalOf(d), now, fault).Posted? then Credited(t, ReversalOf(d), now) else t
  }

  // Debit, ask, and compensate when refused.
  function AfterDebit(t: Tables, d: DebitRequest, now: int, f: TransferFaults): Tables {
    if !DebitVerdict(t, d, now, f.balanceUp, f.debit).Posted? then t
    else if f.accepts then Debited(t, d, now)
    else AfterReversal(Debited(t, d, now), d, now, f.reversal)
  }

  function AfterTransfer(
      t: Tables, org: OrgId, account: AccountId, req: TransferRequest, now: int, f: TransferFaults): Tables {
    if !Validate(req).Valid? || !f.clientUp then t else AfterDebit(t, DebitOf(org, account, req), now, f)
  }

  function ReplyTo(
      t: Tables, org: OrgId, account: AccountId, req: TransferRequest, now: int, f: TransferFaults): TransferReply {
    var verdict := DebitVerdict(t, DebitOf(org, account, req), now, f.balanceUp, f.debit);
    if !Validate(req).Valid? then BadRequest(Validate(req))
    else if !f.clientUp then Unavailable
    else if verdict == Refused(InsufficientFunds) then Insufficient
    else if verdict.Refused? then LedgerError
    else if f.accepts then Submitted else ProviderRejected
  }

  class TransactionHandler {
    const db: Database
    const ledger: LedgerService

    constructor (db: Database, ledger: LedgerService)
      requires ledger.db == db
      ensures this.db == db && this.ledger == ledger
    {
      this.db, this.ledger := db, ledger;
    }

    method Transfer(
        org: OrgId, account: AccountId, req: TransferRequest, now: int, f: TransferFaults)
        returns (reply: TransferReply)
      requires ledger.db == db && db.staged.None?
      modifies db
      ensures db.staged.None?
      ensures db.committed == AfterTransfer(old(db.committed), org, account, req, now, f)
      ensures reply == ReplyTo(old(db.committed), org, account, req, now, f)
    {
      var v := ValidateTransferRequest(req);
      if !v.Valid? {
        return BadRequest(v);
      }
      if !f.clientUp {
        return Unavailable;
      }
      var d := DebitOf(org, account, req);
      var debited := ledger.PostDebit(d, now, f.balanceUp, f.debit);
      if debited.Refused? {
        return if debited.error == InsufficientFunds then Insufficient else LedgerError;
      }
      if !f.accepts {
        ReverseLedgerDebit(d, now, f.reversal);
        return ProviderRejected;
      }
      reply := Submitted;
    }

    method ReverseLedgerDebit(d: DebitRequest, now: int, fault: InsertFault)
      requires ledger.db == db && db.staged.None?
      modifies db
      ensures db.staged.None?
      ensures db.committed == AfterReversal(old(db.committed), d, now, fault)
    {
      var _ := ledger.PostCredit(false, ReversalOf(d), now, fault);
    }
  }

  /** A rejected transfer whose reversal commits leaves every balance as it was, the pool's included. */
  lemma RejectedLeavesNoTrace(
      t: Tables, org: OrgId, account: AccountId, req: TransferRequest, now: int, f: TransferFaults, scope: Scope)
    requires !f.accepts && f.reversal == NO_FAULT
    ensures Total(AfterTransfer(t, org, account, req, now, f).entries, scope) == Total(t.entries, scope)
  {
    var d := DebitOf(org, account, req);
    if Validate(req).Valid? && f.clientUp && DebitVerdict(t, d, now, f.balanceUp, f.debit).Posted? {
      var debited := Debited(t, d, now);
      DebitShifts(t.entries, scope, org, account, d.amount, d.ref, now, t.nextId);
      var r := ReversalOf(d);
      assert CreditVerdict(debited, false, r, now, f.reversal).Posted?;
      CreditShifts(debited.entries, scope, org, account, r.amount, r.ref, TransferReversal, now, debited.nextId);
    }
  }

  /** A transfer that runs alone never overdraws a customer account and moves exactly its amount when submitted. */
  lemma SerialTransferIsCovered(
      t: Tables, org: OrgId, account: AccountId, req: TransferRequest, now: int, f: TransferFaults)
    requires account.Virtual? && Balance(t.entries, account) >= 0
    ensures var t' := AfterTransfer(t, org, account, req, now, f);
      && 0 <= Balance(t'.entries, account) <= Balance(t.entries, account)
      && (ReplyTo(t, org, account, req, now, f) == Submitted ==>
        Balance(t'.entries, account) == Balance(t.entries, account) - req.amount)
  {
    var d := DebitOf(org, account, req);
    if Validate(req).Valid? && f.clientUp && DebitVerdict(t, d, now, f.balanceUp, f.debit).Posted? {
      var debited := Debited(t, d, now);
      DebitShifts(t.entries, Only(account), org, account, d.amount, d.ref, now, t.nextId);
      if !f.accepts {
        var r := ReversalOf(d);
        CreditShifts(debited.entries, Only(account), org, account, r.amount, r.ref, TransferReversal, now,
          debited.nextId);
      }
    }
  }
}
