/** The ledger service: the double-entry postings on top of the database. */
module Posting {
  import opened Sums
  import opened Ledger
  import opened Store

  // An absent entry type means inbound_credit.
  datatype CreditRequest = CreditRequest(
    org: OrgId, account: AccountId, amount: int, ref: string, entryType: Option<EntryType>)

  datatype DebitRequest = DebitRequest(org: OrgId, account: AccountId, amount: int, ref: string)

  datatype PostError = NoSystemAccount | InsufficientFunds | StoreFailure

  datatype Posted = Posted | Refused(error: PostError)

  function CreditBatch(t: Tables, req: CreditRequest, now: int): seq<Entry> {
    var kind := if req.entryType.None? then InboundCredit else req.entryType.value;
    CreditLegs(req.org, req.account, req.amount, req.ref, kind, now, t.nextId)
  }

  function DebitBatch(t: Tables, req: DebitRequest, now: int): seq<Entry> {
    DebitLegs(req.org, req.account, req.amount, req.ref, now, t.nextId)
  }

  function Credited(t: Tables, req: CreditRequest, now: int): Tables {
    Appended(t, CreditBatch(t, req, now))
  }

  function Debited(t: Tables, req: DebitRequest, now: int): Tables {
    Appended(t, DebitBatch(t, req, now))
  }

  function Suspended(t: Tables, org: OrgId, amount: int, ref: string, now: int): Tables {
    Appended(t, SuspenseLeg(org, amount, ref, now, t.nextId))
  }

  // The verdict of a posting of `batch` against system account (org, name).
  function Verdict(t: Tables, org: OrgId, name: SystemName, batch: seq<Entry>, accepted: bool): Posted {
    if System(org, name) !in t.systemAccounts then Refused(NoSystemAccount)
    else if accepted then Posted
    else Refused(StoreFailure)
  }

  function CreditVerdict(t: Tables, inTx: bool, req: CreditRequest, now: int, fault: InsertFault): Posted {
    var batch := CreditBatch(t, req, now);
    Verdict(t, req.org, Pool, batch, Accepts(batch, fault.failAt) && (inTx || fault.commits))
  }

  function SuspenseVerdict(t: Tables, org: OrgId, amount: int, ref: string, now: int, fault: InsertFault): Posted {
    var batch := SuspenseLeg(org, amount, ref, now, t.nextId);
    Verdict(t, org, Suspense, batch, Accepts(batch, fault.failAt) && fault.commits)
  }

  // The balance read fails when `balanceUp` is false; it sees committed rows only.
  function DebitVerdict(t: Tables, req: DebitRequest, now: int, balanceUp: bool, fault: InsertFault): Posted {
    var batch := DebitBatch(t, req, now);
    if !balanceUp then Refused(StoreFailure)
    else if Balance(t.entries, req.account) < req.amount then Refused(InsufficientFunds)
    else Verdict(t, req.org, Pool, batch, Accepts(batch, fault.failAt) && fault.commits)
  }

  class LedgerService {
    const db: Database

    constructor (db: Database)
      ensures this.db == db
    {
      this.db := db;
    }

    method PostCredit(inTx: bool, req: CreditRequest, now: int, fault: InsertFault) returns (r: Posted)
      requires inTx ==> db.staged.Some?
      requires inTx ==> db.staged.value.systemAccounts == db.committed.systemAccounts
      modifies db
      ensures r == CreditVerdict(old(db.View(inTx)), inTx, req, now, fault)
      ensures r == Refused(NoSystemAccount) <==> System(req.org, Pool) !in old(db.committed.systemAccounts)
      ensures r != Refused(InsufficientFunds)
      ensures inTx ==> db.committed == old(db.committed) && db.staged.Some?
      ensures inTx && r.Posted? ==> db.staged == Some(Credited(old(db.staged.value), req, now))
      ensures !inTx ==> db.staged == old(db.staged)
      ensures !inTx ==> db.committed == (if r.Posted? then Credited(old(db.committed), req, now) else old(db.committed))
    {
      if System(req.org, Pool) !in db.committed.systemAccounts {
        return Refused(NoSystemAccount);
      }
      var rows := if inTx then db.staged.value else db.committed;
      var ok := db.InsertEntries(inTx, CreditBatch(rows, req, now), fault);
      r := if ok then Posted else Refused(StoreFailure);
    }

    /** The funds check reads the committed balance first; the insert is a separate call after it. */
    method PostDebit(req: DebitRequest, now: int, balanceUp: bool, fault: InsertFault) returns (r: Posted)
      modifies db
      ensures r == DebitVerdict(old(db.committed), req, now, balanceUp, fault)
      ensures r == Refused(InsufficientFunds) <==>
        balanceUp && Balance(old(db.committed.entries), req.account) < req.amount
      ensures r == Refused(NoSystemAccount) <==>
        balanceUp && Balance(old(db.committed.entries), req.account) >= req.amount &&
        System(req.org, Pool) !in old(db.committed.systemAccounts)
      ensures db.staged == old(db.staged)
      ensures db.committed == if r.Posted? then Debited(old(db.committed), req, now) else old(db.committed)
    {
      if !balanceUp {
        return Refused(StoreFailure);
      }
      var balance := Balance(db.committed.entries, req.account);
      if balance < req.amount {
        return Refused(InsufficientFunds);
      }
      if System(req.org, Pool) !in db.committed.systemAccounts {
        return Refused(NoSystemAccount);
      }
      var ok := db.InsertEntries(false, DebitBatch(db.committed, req, now), fault);
      r := if ok then Posted else Refused(StoreFailure);
    }

    method PostSuspense(org: OrgId, amount: int, ref: string, now: int, fault: InsertFault) returns (r: Posted)
      modifies db
      ensures r == SuspenseVerdict(old(db.committed), org, amount, ref, now, fault)
      ensures r == Refused(NoSystemAccount) <==> System(org, Suspense) !in old(db.committed.systemAccounts)
      ensures r != Refused(InsufficientFunds)
      ensures db.staged == old(db.staged)
      ensures db.committed ==
        if r.Posted? then Suspended(old(db.committed), org, amount, ref, now) else old(db.committed)
    {
      if System(org, Suspense) !in db.committed.systemAccounts {
        return Refused(NoSystemAccount);
      }
      var ok := db.InsertEntries(false, SuspenseLeg(org, amount, ref, now, db.committed.nextId), fault);
      r := if ok then Posted else Refused(StoreFailure);
    }
  }

  // What each batch does to the total of any scope of accounts.

  lemma CreditShifts(
      entries: seq<Entry>, scope: Scope, org: OrgId, account: AccountId, amount: int, ref: string, kind: EntryType,
      now: int, next: nat)
    ensures Total(entries + CreditLegs(org, account, amount, ref, kind, now, next), scope) ==
            Total(entries, scope) + (if scope(account) then amount else 0) -
              (if scope(System(org, Pool)) then amount else 0)
  {
    var legs := CreditLegs(org, account, amount, ref, kind, now, next);
    SumAppendTwo(entries, legs[0], legs[1], SignedIn(scope));
  }

  lemma DebitShifts(
      entries: seq<Entry>, scope: Scope, org: OrgId, account: AccountId, amount: int, ref: string, now: int, next: nat)
    ensures Total(entries + DebitLegs(org, account, amount, ref, now, next), scope) ==
            Total(entries, scope) - (if scope(account) then amount else 0) +
              (if scope(System(org, Pool)) then amount else 0)
  {
    var legs := DebitLegs(org, account, amount, ref, now, next);
    SumAppendTwo(entries, legs[0], legs[1], SignedIn(scope));
  }

  lemma SingleLegShifts(entries: seq<Entry>, scope: Scope, leg: Entry)
    requires leg.direction == Credit
    ensures Total(entries + [leg], scope) == Total(entries, scope) + (if scope(leg.account) then leg.amount else 0)
  {
    SumAppend(entries, leg, SignedIn(scope));
  }
}
