/** Account statements: a page of ledger rows with running balances, walked from the newest row backwards. */
module Statement {
  import opened Sums
  import opened Ledger
  import opened Store

  datatype StatementEntry = StatementEntry(entry: Entry, runningBalance: int)

  const BLANK := StatementEntry(Entry(0, Virtual(0), Credit, 0, 0, "", InboundCredit, 0), 0)

  datatype StatementPage = StatementPage(
    openingBalance: int, closingBalance: int, entries: seq<StatementEntry>, limit: nat, offset: nat)

  function SignedAmount(): Entry -> int { (e: Entry) => Signed(e) }

  function SelectAccount(entries: seq<Entry>, a: AccountId): seq<Entry> {
    if entries == [] then []
    else
      var rest, e := SelectAccount(entries[..|entries| - 1], a), entries[|entries| - 1];
      if e.account == a then rest + [e] else rest
  }

  /** An answer of ORDER BY created_at DESC: the account's rows, newest first, ties in any order. */
  ghost predicate IsListing(order: seq<Entry>, entries: seq<Entry>, a: AccountId) {
    && multiset(order) == multiset(SelectAccount(entries, a))
    && forall i, j :: 0 <= i < j < |order| ==> order[i].createdAt >= order[j].createdAt
  }

  function Min(x: int, y: int): int { if x < y then x else y }

  function Max(x: int, y: int): int { if x < y then y else x }

  /** LIMIT and OFFSET. */
  function Page(order: seq<Entry>, limit: nat, offset: nat): seq<Entry> {
    if offset >= |order| then [] else order[offset..Min(offset + limit, |order|)]
  }

  predicate HasAccount(t: Tables, org: OrgId, id: nat) {
    exists n <- t.accounts :: t.accounts[n].id == id && t.accounts[n].org == org
  }

  class AccountService {
    const db: Database

    constructor (db: Database)
      ensures this.db == db
    {
      this.db := db;
    }

    /** `order` is the row order the database picks for this query; a negative offset is a query error. The flags say
        whether the account, list and balance queries succeed. */
    method GetStatement(
        org: OrgId, id: nat, limit: int, offset: int, order: seq<Entry>, accountUp: bool, listUp: bool, balanceUp: bool)
        returns (page: Option<StatementPage>)
      requires IsListing(order, db.committed.entries, Virtual(id))
      ensures page.Some? <==>
        && accountUp && listUp && offset >= 0 && (balanceUp || offset >= |order|)
        && exists n <- db.committed.accounts ::
             db.committed.accounts[n].id == id && db.committed.accounts[n].org == org
      ensures page.Some? ==>
        && page.value.offset == offset && page.value.limit == (if 1 <= limit <= 100 then limit else 20)
        && IsStatement(page.value, order, page.value.limit, offset)
        && |page.value.entries| == Min(page.value.limit, Max(0, |order| - offset))
        && forall i :: 0 <= i < |page.value.entries| ==> page.value.entries[i].entry == order[offset + i]
    {
      if !accountUp || !HasAccount(db.committed, org, id) {
        return None;
      }
      var size := limit;
      if size <= 0 || size > 100 {
        size := 20;
      }
      if offset < 0 || !listUp {
        return None;
      }
      var entries := Page(order, size, offset);
      var closingBalance := 0;
      if |entries| > 0 {
        if !balanceUp {
          return None;
        }
        closingBalance := BalanceAsOf(db.committed.entries, Virtual(id), entries[0].createdAt);
      }
      var rows, running := RunningBalances(entries, closingBalance);
      page := Some(StatementPage(running, closingBalance, rows, size, offset));
      StatementIsExact(db.committed.entries, Virtual(id), order, page.value, size, offset);
    }
  }

  /** Row k of a page that closes at the given balance: the rows above it are undone. */
  function RowAt(entries: seq<Entry>, closingBalance: int, k: nat): StatementEntry
    requires k < |entries|
  {
    StatementEntry(entries[k], closingBalance - Sum(entries[..k], SignedAmount()))
  }

  /** The loop of GetStatement: newest to oldest, undoing each row. */
  method RunningBalances(entries: seq<Entry>, closingBalance: int) returns (rows: seq<StatementEntry>, running: int)
    ensures |rows| == |entries|
    ensures forall k :: 0 <= k < |entries| ==> rows[k] == RowAt(entries, closingBalance, k)
    ensures running == closingBalance - Sum(entries, SignedAmount())
  {
    var filled := new StatementEntry[|entries|](_ => BLANK);
    running := closingBalance;
    for i := 0 to |entries|
      invariant running == closingBalance - Sum(entries[..i], SignedAmount())
      invariant forall k :: 0 <= k < i ==> filled[k] == RowAt(entries, closingBalance, k)
    {
      var e := entries[i];
      filled[i] := StatementEntry(e, running);
      if e.direction == Credit {
        running := running - e.amount;
      } else {
        running := running + e.amount;
      }
      OneRowMore(entries, i);
    }
    assert entries[..|entries|] == entries;
    rows := filled[..];
  }

  lemma OneRowMore(entries: seq<Entry>, i: nat)
    requires i < |entries|
    ensures Sum(entries[..i + 1], SignedAmount()) == Sum(entries[..i], SignedAmount()) + Signed(entries[i])
  {
    assert entries[..i + 1] == entries[..i] + [entries[i]];
    SumAppend(entries[..i], entries[i], SignedAmount());
  }

  // ----- what a statement means -----

  /** The balance after row i, were the rows posted in the listed order: the sum of it and everything older. */
  function TrueBalance(order: seq<Entry>, i: nat): int
    requires i <= |order|
  {
    Sum(order[i..], SignedAmount())
  }

  function SignedAt(time: int): Entry -> int {
    (e: Entry) => if e.createdAt == time then Signed(e) else 0
  }

  /** The tie error of a page: the rows before the offset that share the timestamp of its first row. */
  function TieError(order: seq<Entry>, offset: nat): int {
    if offset >= |order| then 0 else Sum(order[..offset], SignedAt(order[offset].createdAt))
  }

  /** Every balance of the page is the true one plus the page's tie error; an empty page reads zero. */
  ghost predicate IsStatement(page: StatementPage, order: seq<Entry>, limit: nat, offset: nat) {
    var rows := Page(order, limit, offset);
    && page.limit == limit && page.offset == offset
    && |page.entries| == |rows|
    && (forall i :: 0 <= i < |rows| ==>
          && page.entries[i].entry == rows[i]
          && page.entries[i].runningBalance == TrueBalance(order, offset + i) + TieError(order, offset))
    && (rows == [] ==> page.closingBalance == 0 && page.openingBalance == 0)
    && (rows != [] ==> page.closingBalance == TrueBalance(order, offset) + TieError(order, offset))
    && (rows != [] ==> page.openingBalance == TrueBalance(order, offset + |rows|) + TieError(order, offset))
  }

  /** The account's rows are all its rows, as often as they are in the ledger, and no others. */
  lemma {:induction false} SelectsAccount(entries: seq<Entry>, a: AccountId, e: Entry)
    ensures multiset(SelectAccount(entries, a))[e] == if e.account == a then multiset(entries)[e] else 0
  {
    if entries != [] {
      SelectsAccount(entries[..|entries| - 1], a, e);
      assert entries == entries[..|entries| - 1] + [entries[|entries| - 1]];
    }
  }

  lemma {:induction false} SelectSums(entries: seq<Entry>, a: AccountId, asOf: int)
    ensures Sum(SelectAccount(entries, a), SignedUpTo(a, asOf)) == BalanceAsOf(entries, a, asOf)
    ensures Sum(SelectAccount(entries, a), SignedAmount()) == Balance(entries, a)
    ensures forall e <- SelectAccount(entries, a) :: e.account == a
  {
    if entries != [] {
      var front, e := entries[..|entries| - 1], entries[|entries| - 1];
      SelectSums(front, a, asOf);
      SumAppend(SelectAccount(front, a), e, SignedUpTo(a, asOf));
      SumAppend(SelectAccount(front, a), e, SignedAmount());
    }
  }

  lemma ListingSums(entries: seq<Entry>, a: AccountId, order: seq<Entry>, asOf: int)
    requires IsListing(order, entries, a)
    ensures BalanceAsOf(entries, a, asOf) == Sum(order, SignedUpTo(a, asOf))
    ensures Balance(entries, a) == TrueBalance(order, 0)
    ensures forall e <- order :: e.account == a
  {
    SelectSums(entries, a, asOf);
    SumPermutation(order, SelectAccount(entries, a), SignedUpTo(a, asOf));
    SumPermutation(order, SelectAccount(entries, a), SignedAmount());
    assert order[0..] == order;
    forall e <- order ensures e.account == a {
      assert e in multiset(order);
      assert e in SelectAccount(entries, a);
    }
  }

  lemma OlderRows(a: AccountId, order: seq<Entry>, offset: nat)
    requires offset < |order| && forall e <- order :: e.account == a
    requires forall i, j :: 0 <= i < j < |order| ==> order[i].createdAt >= order[j].createdAt
    ensures Sum(order[offset..], SignedUpTo(a, order[offset].createdAt)) == TrueBalance(order, offset)
  {
    var t, older := order[offset].createdAt, order[offset..];
    forall e <- older ensures SignedUpTo(a, t)(e) == SignedAmount()(e) {
      var k :| 0 <= k < |older| && older[k] == e;
      assert order[offset + k] == e;
    }
    SumAgree(older, SignedUpTo(a, t), SignedAmount());
  }

  lemma NewerRows(a: AccountId, order: seq<Entry>, offset: nat)
    requires offset < |order| && forall e <- order :: e.account == a
    requires forall i, j :: 0 <= i < j < |order| ==> order[i].createdAt >= order[j].createdAt
    ensures Sum(order[..offset], SignedUpTo(a, order[offset].createdAt)) == TieError(order, offset)
  {
    var t, newer := order[offset].createdAt, order[..offset];
    forall e <- newer ensures SignedUpTo(a, t)(e) == SignedAt(t)(e) {
      var k :| 0 <= k < |newer| && newer[k] == e;
      assert order[k] == e && order[k].createdAt >= t;
    }
    SumAgree(newer, SignedUpTo(a, t), SignedAt(t));
  }

  /** The closing balance read from the database is the true balance plus the tie error. */
  lemma ClosingBalance(entries: seq<Entry>, a: AccountId, order: seq<Entry>, offset: nat)
    requires IsListing(order, entries, a) && offset < |order|
    ensures BalanceAsOf(entries, a, order[offset].createdAt) == TrueBalance(order, offset) + TieError(order, offset)
  {
    var t := order[offset].createdAt;
    ListingSums(entries, a, order, t);
    assert order == order[..offset] + order[offset..];
    SumConcat(order[..offset], order[offset..], SignedUpTo(a, t));
    OlderRows(a, order, offset);
    NewerRows(a, order, offset);
  }

  lemma TrueBalanceWalk(order: seq<Entry>, offset: nat, i: nat)
    requires offset + i <= |order|
    ensures TrueBalance(order, offset) ==
      Sum(order[offset..offset + i], SignedAmount()) + TrueBalance(order, offset + i)
  {
    assert order[offset..] == order[offset..offset + i] + order[offset + i..];
    SumConcat(order[offset..offset + i], order[offset + i..], SignedAmount());
  }

  // What the loop has undone by row i of a page.
  lemma UndoneSoFar(order: seq<Entry>, limit: nat, offset: nat, i: nat)
    requires i <= |Page(order, limit, offset)| && offset < |order|
    ensures offset + i <= |order|
    ensures Sum(Page(order, limit, offset)[..i], SignedAmount()) ==
      TrueBalance(order, offset) - TrueBalance(order, offset + i)
  {
    TrueBalanceWalk(order, offset, i);
    assert Page(order, limit, offset) == order[offset..Min(offset + limit, |order|)];
    assert Page(order, limit, offset)[..i] == order[offset..offset + i];
  }

  lemma StatementIsExact(
      entries: seq<Entry>, a: AccountId, order: seq<Entry>, page: StatementPage, limit: nat, offset: nat)
    requires IsListing(order, entries, a)
    requires page.limit == limit && page.offset == offset
    requires var rows := Page(order, limit, offset);
      && |page.entries| == |rows|
      && page.closingBalance == (if rows == [] then 0 else BalanceAsOf(entries, a, rows[0].createdAt))
      && page.openingBalance == page.closingBalance - Sum(rows, SignedAmount())
      && forall i :: 0 <= i < |rows| ==> page.entries[i] == RowAt(rows, page.closingBalance, i)
    ensures IsStatement(page, order, limit, offset)
  {
    var rows := Page(order, limit, offset);
    if rows != [] {
      ClosingBalance(entries, a, order, offset);
      forall i | 0 <= i < |rows|
        ensures page.entries[i].entry == rows[i]
        ensures page.entries[i].runningBalance == TrueBalance(order, offset + i) + TieError(order, offset)
      {
        UndoneSoFar(order, limit, offset, i);
      }
      UndoneSoFar(order, limit, offset, |rows|);
      assert rows[..|rows|] == rows;
    }
  }

  // ----- how pages fit together -----

  // The opening and closing balance of a page by position, and zero for a page without rows.
  lemma PageEdges(order: seq<Entry>, page: StatementPage, limit: nat, offset: nat)
    requires IsStatement(page, order, limit, offset)
    ensures page.closingBalance ==
      if offset < |order| && limit > 0 then TrueBalance(order, offset) + TieError(order, offset) else 0
    ensures page.openingBalance ==
      if offset < |order| && limit > 0 then TrueBalance(order, Min(offset + limit, |order|)) + TieError(order, offset)
      else 0
  {
    assert |Page(order, limit, offset)| == if offset < |order| then Min(offset + limit, |order|) - offset else 0;
  }

  lemma OldestIsZero(order: seq<Entry>)
    ensures TrueBalance(order, |order|) == 0
  {
    assert order[|order|..] == [];
  }

  /** With or without ties, the gap between a page's opening balance and the next page's closing balance is the
      difference of their tie errors; so the pages join up exactly when these agree. */
  lemma PagesJoin(order: seq<Entry>, page: StatementPage, next: StatementPage, limit: nat, offset: nat)
    requires IsStatement(page, order, limit, offset) && IsStatement(next, order, limit, offset + limit)
    ensures page.openingBalance - next.closingBalance == TieError(order, offset) - TieError(order, offset + limit)
  {
    PageEdges(order, page, limit, offset);
    PageEdges(order, next, limit, offset + limit);
    OldestIsZero(order);
  }

  function Times(order: seq<Entry>): seq<int> {
    seq(|order|, i requires 0 <= i < |order| => order[i].createdAt)
  }

  ghost predicate DistinctTimes(order: seq<Entry>) {
    Distinct(Times(order))
  }

  lemma NoTieNoError(order: seq<Entry>, offset: nat)
    requires DistinctTimes(order) || offset == 0
    ensures TieError(order, offset) == 0
  {
    if offset < |order| {
      var w := SignedAt(order[offset].createdAt);
      forall e <- order[..offset] ensures w(e) == 0 {
        var k :| 0 <= k < offset && order[k] == e;
        assert Times(order)[k] != Times(order)[offset];
      }
      SumZero(order[..offset], w);
    }
  }

  /** Rows p to offset share one timestamp, and the row before p does not. */
  predicate TieGroup(order: seq<Entry>, p: nat, offset: nat) {
    && p <= offset < |order|
    && (forall k :: p <= k <= offset ==> order[k].createdAt == order[offset].createdAt)
    && (p > 0 ==> order[p - 1].createdAt != order[offset].createdAt)
  }

  lemma TieErrorIsGroupSum(order: seq<Entry>, p: nat, offset: nat)
    requires TieGroup(order, p, offset)
    requires forall i, j :: 0 <= i < j < |order| ==> order[i].createdAt >= order[j].createdAt
    ensures TieError(order, offset) == Sum(order[p..offset], SignedAmount())
  {
    var t, newer, tied := order[offset].createdAt, order[..p], order[p..offset];
    forall e <- newer ensures SignedAt(t)(e) == 0 {
      var k :| 0 <= k < p && order[k] == e;
      assert order[k].createdAt >= order[p - 1].createdAt >= t;
    }
    SumZero(newer, SignedAt(t));
    forall e <- tied ensures SignedAt(t)(e) == SignedAmount()(e) {
      var k :| 0 <= k < |tied| && tied[k] == e;
      assert order[p + k] == e;
    }
    SumAgree(tied, SignedAt(t), SignedAmount());
    assert order[..offset] == newer + tied;
    SumConcat(newer, tied, SignedAt(t));
  }

  /** When exactly a page is right: its balances are the true ones if and only if the rows that it leaves to earlier
      pages from the tie group of its first row sum to zero. */
  lemma PageExactIff(
      entries: seq<Entry>, a: AccountId, order: seq<Entry>, page: StatementPage, limit: nat, offset: nat, p: nat)
    requires IsListing(order, entries, a) && IsStatement(page, order, limit, offset)
    requires limit > 0 && TieGroup(order, p, offset)
    ensures (forall i :: 0 <= i < |page.entries| ==>
      page.entries[i].runningBalance == TrueBalance(order, offset + i)) <==>
      Sum(order[p..offset], SignedAmount()) == 0
  {
    TieErrorIsGroupSum(order, p, offset);
    assert |page.entries| > 0;
    assert page.entries[0].runningBalance == TrueBalance(order, offset + 0) + TieError(order, offset);
  }

  /** The condition does fail: of two rows with one timestamp the second page shows both amounts instead of one. */
  lemma TiedPageIsOff(x: Entry, y: Entry, page: StatementPage)
    requires x.createdAt == y.createdAt && IsStatement(page, [x, y], 1, 1)
    ensures TrueBalance([x, y], 1) == Signed(y) && page.closingBalance == Signed(y) + Signed(x)
  {
    assert [x, y][1..] == [y] && [x, y][..1] == [x];
    SumOne(y, SignedAmount());
    SumOne(x, SignedAt(x.createdAt));
  }

  lemma AsOfIsTrue(entries: seq<Entry>, a: AccountId, order: seq<Entry>, i: nat)
    requires IsListing(order, entries, a) && DistinctTimes(order) && i < |order|
    ensures BalanceAsOf(entries, a, order[i].createdAt) == TrueBalance(order, i)
  {
    NoTieNoError(order, i);
    ClosingBalance(entries, a, order, i);
  }

  /** Without ties every running balance is the balance as of its row's own time. */
  lemma RunningIsAsOf(
      entries: seq<Entry>, a: AccountId, order: seq<Entry>, page: StatementPage, limit: nat, offset: nat, i: nat)
    requires IsListing(order, entries, a) && DistinctTimes(order)
    requires IsStatement(page, order, limit, offset) && i < |page.entries|
    ensures page.entries[i].runningBalance == BalanceAsOf(entries, a, page.entries[i].entry.createdAt)
  {
    NoTieNoError(order, offset);
    assert Page(order, limit, offset)[i] == order[offset + i];
    AsOfIsTrue(entries, a, order, offset + i);
  }

  /** With or without ties the first page closes at the current balance. */
  lemma FirstPageCloses(entries: seq<Entry>, a: AccountId, order: seq<Entry>, page: StatementPage, limit: nat)
    requires IsListing(order, entries, a) && limit > 0 && IsStatement(page, order, limit, 0)
    ensures page.closingBalance == Balance(entries, a)
  {
    NoTieNoError(order, 0);
    ListingSums(entries, a, order, 0);
  }

  /** Without ties consecutive pages share their boundary balance, and the last page opens at zero. */
  lemma PagesCompose(order: seq<Entry>, page: StatementPage, next: StatementPage, limit: nat, offset: nat)
    requires DistinctTimes(order)
    requires IsStatement(page, order, limit, offset) && IsStatement(next, order, limit, offset + limit)
    ensures page.openingBalance == next.closingBalance
    ensures offset + limit >= |order| ==> page.openingBalance == 0
  {
    NoTieNoError(order, offset);
    NoTieNoError(order, offset + limit);
    PagesJoin(order, page, next, limit, offset);
  }

  function AllPages(order: seq<Entry>, limit: nat, offset: nat): seq<Entry>
    requires limit > 0
    decreases |order| - offset
  {
    if offset >= |order| then [] else Page(order, limit, offset) + AllPages(order, limit, offset + limit)
  }

  /** The pages one after the other are the whole listing: no row is skipped and none is shown twice. */
  lemma {:induction false} PagesCover(order: seq<Entry>, limit: nat, offset: nat)
    requires limit > 0 && offset <= |order|
    ensures AllPages(order, limit, offset) == order[offset..]
    decreases |order| - offset
  {
    if offset < |order| {
      var next := Min(offset + limit, |order|);
      assert order[offset..] == order[offset..next] + order[next..];
      if offset + limit <= |order| {
        PagesCover(order, limit, offset + limit);
      }
    }
  }
}
