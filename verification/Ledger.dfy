/** The double-entry ledger as values: rows, balances derived by sums, and the legs of each posting. */
module Ledger {
  import opened Sums

  type OrgId = nat
  // uuid.Nil: the global system accounts that belong to no organisation.
  const NIL_ORG: OrgId := 0

  datatype SystemName = Pool | Suspense | Fees | ReturnsClearing

  // Virtual and system accounts draw their ids from disjoint UUIDs; (org, name) is unique.
  datatype AccountId = Virtual(id: nat) | System(org: OrgId, name: SystemName)

  datatype Direction = Credit | Debit

  datatype EntryType =
    | InboundCredit | PoolLiability | TransferOut | PoolRelease
    | SuspenseCredit | BackfillCredit | TransferReversal

  datatype Entry = Entry(
    id: nat, account: AccountId, direction: Direction, amount: int,
    group: nat, ref: string, entryType: EntryType, createdAt: int)

  function Signed(e: Entry): int {
    if e.direction == Credit then e.amount else -e.amount
  }

  /** A set of accounts, given by its membership test. */
  type Scope = AccountId -> bool

  function Only(a: AccountId): Scope { x => x == a }

  function Everyone(): Scope { x => true }

  // Money held for somebody: customer accounts and suspense accounts.
  function Held(): Scope { (x: AccountId) => x.Virtual? || x.name == Suspense }

  function SignedIn(scope: Scope): Entry -> int {
    (e: Entry) => if scope(e.account) then Signed(e) else 0
  }

  /** Credits minus debits over all rows of the accounts in scope. */
  function Total(entries: seq<Entry>, scope: Scope): int {
    Sum(entries, SignedIn(scope))
  }

  function Balance(entries: seq<Entry>, a: AccountId): int {
    Total(entries, Only(a))
  }

  function SignedUpTo(a: AccountId, asOf: int): Entry -> int {
    (e: Entry) => if e.account == a && e.createdAt <= asOf then Signed(e) else 0
  }

  function BalanceAsOf(entries: seq<Entry>, a: AccountId, asOf: int): int {
    Sum(entries, SignedUpTo(a, asOf))
  }

  // The legs of each posting. `next` is the first unused id: it names the group, the rows follow.

  function CreditLegs(
      org: OrgId, account: AccountId, amount: int, ref: string, kind: EntryType, now: int, next: nat): seq<Entry> {
    [Entry(next + 1, account, Credit, amount, next, ref, kind, now),
     Entry(next + 2, System(org, Pool), Debit, amount, next, ref, PoolLiability, now)]
  }

  function DebitLegs(org: OrgId, account: AccountId, amount: int, ref: string, now: int, next: nat): seq<Entry> {
    [Entry(next + 1, account, Debit, amount, next, ref, TransferOut, now),
     Entry(next + 2, System(org, Pool), Credit, amount, next, ref, PoolRelease, now)]
  }

  function SuspenseLeg(org: OrgId, amount: int, ref: string, now: int, next: nat): seq<Entry> {
    [Entry(next + 1, System(org, Suspense), Credit, amount, next, ref, SuspenseCredit, now)]
  }

  function BackfillLeg(account: AccountId, amount: int, ref: string, createdAt: int, next: nat): seq<Entry> {
    [Entry(next + 1, account, Credit, amount, next, ref, BackfillCredit, createdAt)]
  }

  function SumBalances(entries: seq<Entry>, accounts: seq<AccountId>): int {
    if accounts == [] then 0 else SumBalances(entries, accounts[1..]) + Balance(entries, accounts[0])
  }

  ghost predicate Distinct<T>(xs: seq<T>) {
    forall i, j :: 0 <= i < j < |xs| ==> xs[i] != xs[j]
  }

  function Among(accounts: seq<AccountId>): Scope { x => x in accounts }

  /** A total over a scope is the sum of the balances of its accounts, taken one by one. */
  lemma {:induction false} TotalIsSumOfBalances(entries: seq<Entry>, accounts: seq<AccountId>)
    requires Distinct(accounts)
    ensures Total(entries, Among(accounts)) == SumBalances(entries, accounts)
  {
    if accounts == [] {
      SumZero(entries, SignedIn(Among(accounts)));
    } else {
      TotalIsSumOfBalances(entries, accounts[1..]);
      SumPlus(entries, SignedIn(Among(accounts)), SignedIn(Among(accounts[1..])), SignedIn(Only(accounts[0])));
    }
  }
}
