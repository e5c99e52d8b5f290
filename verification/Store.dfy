/** The database: its tables, and a connection that carries at most one open transaction. */
module Store {
  import opened Ledger

  datatype Option<+T> = None | Some(value: T)

  datatype AccountStatus = Active | Closed

  datatype VirtualAccount = VirtualAccount(id: nat, org: OrgId, status: AccountStatus)

  const PAYMENT_SUCCESS := "payment_success"

  // An inbound webhook body. The amount is in naira.
  datatype Event = Event(txn: string, eventType: string, alias: string, naira: real)

  datatype DeliveryStatus = Pending | Delivered | Failed

  datatype Delivery = Delivery(
    id: nat, org: OrgId, payload: Event, status: DeliveryStatus, attempts: nat,
    nextRetryAt: Option<int>, createdAt: int)

  datatype RunStatus = Ok | Mismatch

  datatype ReconciliationRun = ReconciliationRun(
    org: OrgId, runAt: int, walletKobo: int, poolKobo: int, delta: int, status: RunStatus)

  // `accounts` is keyed by the bank account number, `systemAccounts` holds the seeded (org, name) rows,
  // and every id below `nextId` may already be in use.
  datatype Tables = Tables(
    entries: seq<Entry>, processed: set<string>, deliveries: seq<Delivery>,
    accounts: map<string, VirtualAccount>, systemAccounts: set<AccountId>,
    runs: seq<ReconciliationRun>, nextId: nat)

  const EMPTY := Tables([], {}, [], map[], {}, [], 0)

  function Appended(t: Tables, batch: seq<Entry>): Tables {
    t.(entries := t.entries + batch, nextId := t.nextId + |batch| + 1)
  }

  function Marked(t: Tables, txn: string): Tables {
    t.(processed := t.processed + {txn})
  }

  function NewDelivery(t: Tables, org: OrgId, ev: Event, now: int): Delivery {
    Delivery(t.nextId, org, ev, Pending, 0, None, now)
  }

  function Enqueued(t: Tables, d: Delivery): Tables {
    t.(deliveries := t.deliveries + [d], nextId := t.nextId + 1)
  }

  // What goes wrong in one InsertEntries call: the row whose INSERT fails, if any,
  // and whether BEGIN and COMMIT of its own transaction succeed.
  datatype InsertFault = InsertFault(failAt: Option<nat>, commits: bool)

  const NO_FAULT := InsertFault(None, true)

  /** Every row is accepted: no INSERT fails and CHECK (amount > 0) holds. */
  predicate Accepts(batch: seq<Entry>, failAt: Option<nat>) {
    (failAt.None? || |batch| <= failAt.value) && forall e <- batch :: e.amount > 0
  }

  datatype MarkResult = FirstSeen | AlreadyProcessed | MarkError

  class Database {
    var committed: Tables
    var staged: Option<Tables>

    constructor (t: Tables)
      ensures committed == t && staged == None
    {
      committed := t;
      staged := None;
    }

    /** The rows seen and written by an executor chosen from the context. */
    ghost function View(inTx: bool): Tables
      requires inTx ==> staged.Some?
      reads this
    {
      if inTx then staged.value else committed
    }

    method Begin()
      modifies this
      ensures committed == old(committed) && staged == Some(committed)
    {
      staged := Some(committed);
    }

    /** Commits when the body succeeded and COMMIT does; otherwise the deferred rollback drops every staged row. */
    method Finish(bodyOk: bool, commits: bool) returns (ok: bool)
      requires staged.Some?
      modifies this
      ensures ok == (bodyOk && commits)
      ensures staged == None
      ensures committed == if ok then old(staged.value) else old(committed)
    {
      ok := bodyOk && commits;
      if ok {
        committed := staged.value;
      }
      staged := None;
    }

    /** Writes all rows or none, joining the transaction of the context when there is one. */
    method InsertEntries(inTx: bool, batch: seq<Entry>, fault: InsertFault) returns (ok: bool)
      requires inTx ==> staged.Some?
      modifies this
      ensures ok == (Accepts(batch, fault.failAt) && (inTx || fault.commits))
      ensures inTx ==> committed == old(committed) && staged.Some?
      ensures inTx && ok ==> staged == Some(Appended(old(staged.value), batch))
      ensures !inTx ==> staged == old(staged)
      ensures !inTx ==> committed == if ok then Appended(old(committed), batch) else old(committed)
    {
      var rows := if inTx then staged.value else committed;
      var inserted;
      ok, inserted := InsertRows(rows.entries, batch, fault.failAt);
      rows := rows.(entries := inserted, nextId := rows.nextId + |batch| + 1);
      if inTx {
        staged := Some(rows);
      } else if ok {
        ok := fault.commits;
        if ok {
          committed := rows;
        }
      }
    }

    static method InsertRows(
        entries: seq<Entry>, batch: seq<Entry>, failAt: Option<nat>) returns (ok: bool, rows: seq<Entry>)
      ensures ok == Accepts(batch, failAt)
      ensures ok <==>
        (failAt == None || |batch| <= failAt.value) && forall k :: 0 <= k < |batch| ==> batch[k].amount > 0
      ensures ok ==> rows == entries + batch
    {
      rows := entries;
      for i := 0 to |batch|
        invariant rows == entries + batch[..i]
        invariant (failAt.None? || i <= failAt.value) && forall k :: 0 <= k < i ==> batch[k].amount > 0
      {
        if failAt == Some(i) || batch[i].amount <= 0 {
          return false, rows;
        }
        rows := rows + [batch[i]];
      }
      ok := true;
    }

    /** The unique insert into processed_events; it always uses the pool, never the carried transaction. */
    method MarkProcessed(txn: string, up: bool) returns (result: MarkResult)
      modifies this
      ensures staged == old(staged)
      ensures result ==
        if !up then MarkError else if txn in old(committed.processed) then AlreadyProcessed else FirstSeen
      ensures committed ==
        if result == FirstSeen then old(committed).(processed := old(committed.processed) + {txn}) else old(committed)
    {
      if !up {
        return MarkError;
      }
      if txn in committed.processed {
        return AlreadyProcessed;
      }
      committed := Marked(committed, txn);
      result := FirstSeen;
    }

    /** Joins the transaction of the context, so that the delivery commits with the ledger rows. */
    method CreateDelivery(inTx: bool, d: Delivery, up: bool) returns (ok: bool)
      requires inTx ==> staged.Some?
      modifies this
      ensures ok == up
      ensures inTx ==> committed == old(committed)
      ensures inTx ==> staged == if ok then Some(Enqueued(old(staged.value), d)) else old(staged)
      ensures !inTx ==> staged == old(staged)
      ensures !inTx ==> committed == if ok then Enqueued(old(committed), d) else old(committed)
    {
      ok := up;
      if ok {
        if inTx {
          staged := Some(Enqueued(staged.value, d));
        } else {
          committed := Enqueued(committed, d);
        }
      }
    }
  }
}
