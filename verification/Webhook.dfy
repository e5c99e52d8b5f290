/** The inbound webhook handler: mark the event first, then route it and post its money. */
module Webhook {
  import opened Kobo
  import opened Ledger
  import opened Store
  import opened Posting

  // The environment of one request: which of its database calls succeed.
  datatype WebhookFaults = WebhookFaults(
    markUp: bool, lookupUp: bool, insert: InsertFault, deliveryUp: bool, commits: bool)

  const NO_WEBHOOK_FAULT := WebhookFaults(true, true, NO_FAULT, true, true)

  datatype Reply = Duplicate | InternalError | Ignored | RoutedToSuspense | FailedToPost | Processed

  datatype Destination = ToSuspense(org: OrgId) | ToCustomer(org: OrgId, account: AccountId)

  /** Where the money of an event goes; a failed lookup is treated like an unknown account. */
  function Route(t: Tables, ev: Event, lookupUp: bool): Destination {
    if !lookupUp || ev.alias !in t.accounts then ToSuspense(NIL_ORG)
    else
      var va := t.accounts[ev.alias];
      if va.status == Closed then ToSuspense(va.org) else ToCustomer(va.org, Virtual(va.id))
  }

  function CreditOf(ev: Event, org: OrgId, account: AccountId): CreditRequest {
    CreditRequest(org, account, NairaToKobo(ev.naira), ev.txn, None)
  }

  /** Whether the posting of a routed event commits. */
  predicate Commits(t: Tables, ev: Event, dest: Destination, now: int, f: WebhookFaults) {
    match dest
    case ToSuspense(org) => SuspenseVerdict(t, org, NairaToKobo(ev.naira), ev.txn, now, f.insert).Posted?
    case ToCustomer(org, account) =>
      CreditVerdict(t, true, CreditOf(ev, org, account), now, f.insert).Posted? && f.deliveryUp && f.commits
  }

  /** The committed rows after the posting of a routed event: credit and delivery together, or neither. */
  function PostRouted(t: Tables, ev: Event, dest: Destination, now: int, f: WebhookFaults): Tables {
    if !Commits(t, ev, dest, now, f) then t
    else match dest
      case ToSuspense(org) => Suspended(t, org, NairaToKobo(ev.naira), ev.txn, now)
      case ToCustomer(org, account) =>
        var credited := Credited(t, CreditOf(ev, org, account), now);
        Enqueued(credited, NewDelivery(credited, org, ev, now))
  }

  /** The committed rows after one whole request. */
  function AfterWebhook(t: Tables, ev: Event, now: int, f: WebhookFaults): Tables {
    if !f.markUp || ev.txn in t.processed then t
    else
      var marked := Marked(t, ev.txn);
      if ev.eventType != PAYMENT_SUCCESS then marked
      else PostRouted(marked, ev, Route(marked, ev, f.lookupUp), now, f)
  }

  function ReplyTo(t: Tables, ev: Event, now: int, f: WebhookFaults): Reply {
    if !f.markUp then InternalError
    else if ev.txn in t.processed then Duplicate
    else if ev.eventType != PAYMENT_SUCCESS then Ignored
    else
      var dest := Route(t, ev, f.lookupUp);
      if dest.ToSuspense? then RoutedToSuspense
      else if Commits(Marked(t, ev.txn), ev, dest, now, f) then Processed
      else FailedToPost
  }

  class WebhookHandler {
    const db: Database
    const ledger: LedgerService

    constructor (db: Database, ledger: LedgerService)
      requires ledger.db == db
      ensures this.db == db && this.ledger == ledger
    {
      this.db, this.ledger := db, ledger;
    }

    method HandleNomba(ev: Event, now: int, f: WebhookFaults) returns (reply: Reply)
      requires ledger.db == db && db.staged.None?
      modifies db
      ensures db.staged.None?
      ensures db.committed == AfterWebhook(old(db.committed), ev, now, f)
      ensures reply == ReplyTo(old(db.committed), ev, now, f)
    {
      var mark := db.MarkProcessed(ev.txn, f.markUp);
      if mark == AlreadyProcessed {
        return Duplicate;
      }
      if mark == MarkError {
        return InternalError;
      }
      if ev.eventType == PAYMENT_SUCCESS {
        reply := HandleCredit(ev, now, f);
      } else {
        reply := Ignored;
      }
    }

    method HandleCredit(ev: Event, now: int, f: WebhookFaults) returns (reply: Reply)
      requires ledger.db == db && db.staged.None?
      modifies db
      ensures db.staged.None?
      ensures var dest := Route(old(db.committed), ev, f.lookupUp);
              && db.committed == PostRouted(old(db.committed), ev, dest, now, f)
              && reply == (if dest.ToSuspense? then RoutedToSuspense
                           else if Commits(old(db.committed), ev, dest, now, f) then Processed else FailedToPost)
    {
      var amountKobo := NairaToKobo(ev.naira);
      if !f.lookupUp || ev.alias !in db.committed.accounts {
        var _ := ledger.PostSuspense(NIL_ORG, amountKobo, ev.txn, now, f.insert);
        return RoutedToSuspense;
      }
      var va := db.committed.accounts[ev.alias];
      if va.status == Closed {
        var _ := ledger.PostSuspense(va.org, amountKobo, ev.txn, now, f.insert);
        return RoutedToSuspense;
      }
      db.Begin();
      var posted := ledger.PostCredit(true, CreditOf(ev, va.org, Virtual(va.id)), now, f.insert);
      var bodyOk := posted.Posted?;
      if bodyOk {
        bodyOk := db.CreateDelivery(true, NewDelivery(db.staged.value, va.org, ev, now), f.deliveryUp);
      }
      var ok := db.Finish(bodyOk, f.commits);
      reply := if ok then Processed else FailedToPost;
    }
  }
}
