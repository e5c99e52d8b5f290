/** Webhook credits against account closures: the status is read at the lookup and not again at the commit. */
module Closure {
  import opened Kobo
  import opened Ledger
  import opened Store
  import opened Posting
  import opened Webhook
  import opened MoneyFlow
  import opened Protocol
  import Overlap

  /** The handler is about to credit a customer account, and the credit goes through. */
  predicate WillCredit(s: State, h: nat, now: int, f: WebhookFaults) {
    h < |s.handlers| && s.handlers[h].Routed? && s.handlers[h].dest.ToCustomer? &&
    Commits(s.db, s.handlers[h].ev, s.handlers[h].dest, now, f)
  }

  predicate IsClosed(s: State, number: string) {
    number in s.db.accounts && s.db.accounts[number].status == Closed
  }

  /** Label k of the run is the lookup of handler h, which finds the account with that number active. */
  predicate FoundActive(ls: seq<Label>, k: nat, h: nat, number: string) {
    k < |ls| && ls[k] == Lookup(h, true) &&
    var s := Run(INIT, ls[..k]);
    h < |s.handlers| && s.handlers[h].Waiting? && s.handlers[h].ev.alias == number &&
    number in s.db.accounts && s.db.accounts[number].status == Active
  }

  /** A close of that number comes after label k. */
  predicate ClosedAfter(ls: seq<Label>, k: nat, number: string) {
    exists m :: k < m < |ls| && ls[m] == CloseAccount(number)
  }

  // A routed handler got its destination from a lookup that found the account active.
  lemma {:induction false} RoutedByLookup(ls: seq<Label>, h: nat) returns (k: nat)
    requires var s := Run(INIT, ls); h < |s.handlers| && s.handlers[h].Routed? && s.handlers[h].dest.ToCustomer?
    ensures FoundActive(ls, k, h, Run(INIT, ls).handlers[h].ev.alias)
  {
    var last := |ls| - 1;
    var front := ls[..last];
    var s := Run(INIT, front);
    if h < |s.handlers| && s.handlers[h] == Run(INIT, ls).handlers[h] {
      k := RoutedByLookup(front, h);
      assert front[..k] == ls[..k];
    } else {
      k := last;
      RoutedStep(s, ls[last], h);
    }
  }

  lemma RoutedStep(s: State, l: Label, h: nat)
    requires var s' := Step(s, l); h < |s'.handlers| && s'.handlers[h].Routed? && s'.handlers[h].dest.ToCustomer?
    requires h >= |s.handlers| || s.handlers[h] != Step(s, l).handlers[h]
    ensures l == Lookup(h, true) && h < |s.handlers| && s.handlers[h].Waiting?
    ensures var ev := Step(s, l).handlers[h].ev;
      s.handlers[h].ev == ev && ev.alias in s.db.accounts && s.db.accounts[ev.alias].status == Active
  {
  }

  lemma StatusStep(s: State, l: Label, number: string)
    requires number in s.db.accounts
    ensures number in Step(s, l).db.accounts
    ensures IsClosed(Step(s, l), number) <==> IsClosed(s, number) || l == CloseAccount(number)
  {
  }

  lemma ClosedAfterStep(ls: seq<Label>, k: nat, number: string)
    requires k < |ls| - 1
    ensures ClosedAfter(ls, k, number) <==>
      ClosedAfter(ls[..|ls| - 1], k, number) || ls[|ls| - 1] == CloseAccount(number)
  {
    var front := ls[..|ls| - 1];
    if m :| k < m < |ls| && ls[m] == CloseAccount(number) {
      assert m < |front| ==> front[m] == CloseAccount(number);
    }
  }

  // From an active account on, it is closed exactly when a close has come since.
  lemma {:induction false} ClosedSince(ls: seq<Label>, k: nat, h: nat, number: string)
    requires FoundActive(ls, k, h, number)
    ensures number in Run(INIT, ls).db.accounts
    ensures IsClosed(Run(INIT, ls), number) <==> ClosedAfter(ls, k, number)
  {
    var last := |ls| - 1;
    var front := ls[..last];
    if k == last {
      StatusStep(Run(INIT, front), ls[last], number);
    } else {
      assert front[..k] == ls[..k] && front[k] == ls[k];
      ClosedSince(front, k, h, number);
      StatusStep(Run(INIT, front), ls[last], number);
      ClosedAfterStep(ls, k, number);
    }
  }

  /** In every run, a webhook credits an account that is closed at that moment if and only if the account was active at
      the handler's lookup and was closed between the lookup and the commit. */
  lemma CreditsClosedIff(ls: seq<Label>, h: nat, now: int, f: WebhookFaults)
    requires WillCredit(Run(INIT, ls), h, now, f)
    ensures var s := Run(INIT, ls);
      var number := s.handlers[h].ev.alias;
      IsClosed(s, number) <==> exists k :: FoundActive(ls, k, h, number) && ClosedAfter(ls, k, number)
  {
    var s := Run(INIT, ls);
    var number := s.handlers[h].ev.alias;
    var k := RoutedByLookup(ls, h);
    ClosedSince(ls, k, h, number);
    if i :| FoundActive(ls, i, h, number) && ClosedAfter(ls, i, number) {
      ClosedSince(ls, i, h, number);
    }
  }

  /** The credit itself: the customer's balance grows by the amount whatever the status of the account. */
  lemma CreditGoesThrough(s: State, h: nat, now: int, f: WebhookFaults)
    requires WillCredit(s, h, now, f) && s.handlers[h].dest.account.Virtual?
    ensures var a := s.handlers[h].dest.account;
      Balance(StepCommit(s, h, now, f).db.entries, a) == Balance(s.db.entries, a) + NairaToKobo(s.handlers[h].ev.naira)
  {
    var Routed(ev, dest) := s.handlers[h];
    CreditShifts(s.db.entries, Only(dest.account), dest.org, dest.account, NairaToKobo(ev.naira), ev.txn,
      InboundCredit, now, s.db.nextId);
  }

  /** From every state in which an event is creditable, a close between lookup and commit makes the webhook credit the
      closed account. */
  lemma CloseOvertakesCredit(s: State, ev: Event, now: int)
    requires ev.txn !in s.db.processed && Overlap.Creditable(s.db, ev)
    ensures var h, a := |s.handlers|, Virtual(s.db.accounts[ev.alias].id);
      var ls := [Mark(ev), Lookup(h, true), CloseAccount(ev.alias)];
      var s' := Run(s, ls);
      && WillCredit(s', h, now, NO_WEBHOOK_FAULT) && IsClosed(s', ev.alias) && s'.handlers[h].dest.account == a
      && Balance(StepCommit(s', h, now, NO_WEBHOOK_FAULT).db.entries, a) ==
        Balance(s.db.entries, a) + NairaToKobo(ev.naira)
  {
    var h := |s.handlers|;
    RunThree(s, Mark(ev), Lookup(h, true), CloseAccount(ev.alias));
    var s2 := StepLookup(StepMark(s, ev), h, true);
    var va := s.db.accounts[ev.alias];
    assert s2.handlers[h] == Routed(ev, ToCustomer(va.org, Virtual(va.id)));
    var s3 := StepAdmin(s2, CloseAccount(ev.alias));
    assert s3.handlers == s2.handlers && s3.db.systemAccounts == s.db.systemAccounts && s3.db.entries == s.db.entries;
    CreditGoesThrough(s3, h, now, NO_WEBHOOK_FAULT);
  }
}
