/** Reconciliation: the deduplicating backfill loop, the wallet check, and the periodic sweep that drives both. */
module Backfill {
  import opened Kobo
  import opened Ledger
  import opened Store

  // A transaction as the provider lists it. The amount is in naira.
  datatype ProviderTxn = ProviderTxn(
    id: string, kind: string, status: string, naira: real, alias: string, recipient: string, createdAt: int)

  // One listed transaction with the fate of the database calls made for it.
  datatype Pull = Pull(txn: ProviderTxn, checkUp: bool, lookupUp: bool, insert: InsertFault, markUp: bool)

  function FaultFree(txn: ProviderTxn): Pull {
    Pull(txn, true, true, NO_FAULT, true)
  }

  function AccountNumber(txn: ProviderTxn): string {
    if txn.alias == "" then txn.recipient else txn.alias
  }

  predicate SuccessfulCredit(txn: ProviderTxn) {
    txn.kind == "CREDIT" && txn.status == "SUCCESSFUL"
  }

  predicate Known(accounts: map<string, VirtualAccount>, txn: ProviderTxn) {
    AccountNumber(txn) != "" && AccountNumber(txn) in accounts
  }

  function PullBatch(t: Tables, txn: ProviderTxn): seq<Entry>
    requires Known(t.accounts, txn)
  {
    BackfillLeg(Virtual(t.accounts[AccountNumber(txn)].id), NairaToKobo(txn.naira), txn.id, txn.createdAt, t.nextId)
  }

  /** The committed rows after one iteration of the loop. */
  function PullOne(t: Tables, p: Pull): Tables {
    if !SuccessfulCredit(p.txn) || !p.checkUp || p.txn.id in t.processed then t
    else if !p.lookupUp || !Known(t.accounts, p.txn) then t
    else
      var batch := PullBatch(t, p.txn);
      if !(Accepts(batch, p.insert.failAt) && p.insert.commits) then t
      else if p.markUp then Marked(Appended(t, batch), p.txn.id)
      else Appended(t, batch)
  }

  function PullAll(t: Tables, pulls: seq<Pull>): Tables {
    if pulls == [] then t else PullOne(PullAll(t, pulls[..|pulls| - 1]), pulls[|pulls| - 1])
  }

  datatype WalletInput = WalletInput(clientUp: bool, wallet: Option<real>, storeUp: bool, persistUp: bool)

  function RunRow(t: Tables, org: OrgId, runAt: int, naira: real): ReconciliationRun {
    var walletKobo := NairaToKobo(naira);
    var poolKobo := Balance(t.entries, System(org, Pool));
    ReconciliationRun(org, runAt, walletKobo, poolKobo, walletKobo - poolKobo,
                      if walletKobo == poolKobo then Ok else Mismatch)
  }

  predicate Runs(t: Tables, org: OrgId, input: WalletInput) {
    input.clientUp && input.wallet.Some? && System(org, Pool) in t.systemAccounts && input.storeUp && input.persistUp
  }

  function AfterRun(t: Tables, org: OrgId, runAt: int, input: WalletInput): Tables {
    if Runs(t, org, input) then t.(runs := t.runs + [RunRow(t, org, runAt, input.wallet.value)]) else t
  }

  const PAGE_LIMIT := 100

  /** The provider's transactions of the window [since, until]. */
  function Window(provider: seq<Pull>, since: int, until: int): seq<Pull> {
    if provider == [] then []
    else
      var rest, p := Window(provider[..|provider| - 1], since, until), provider[|provider| - 1];
      if since <= p.txn.createdAt <= until then rest + [p] else rest
  }

  /** What ListTransactions answers: page 1 of the window, at most 100 transactions. */
  function Listing(provider: seq<Pull>, since: int, until: int): seq<Pull> {
    var window := Window(provider, since, until);
    if |window| <= PAGE_LIMIT then window else window[..PAGE_LIMIT]
  }

  // What the provider and the database answer during the sweep of one org that starts at time `at`; no provider when
  // the client or the call fails.
  datatype SweepInput = SweepInput(
    org: OrgId, at: int, provider: Option<seq<Pull>>, runAt: int, wallet: WalletInput)

  /** The transactions that the sweep of one org looks at: those of the last two intervals. */
  function Looked(interval: nat, input: SweepInput): seq<Pull> {
    if input.provider.None? then [] else Listing(input.provider.value, input.at - 2 * interval, input.at)
  }

  function AfterSweep(t: Tables, interval: nat, input: SweepInput): Tables {
    AfterRun(PullAll(t, Looked(interval, input)), input.org, input.runAt, input.wallet)
  }

  function AfterSweeps(t: Tables, interval: nat, inputs: seq<SweepInput>): Tables {
    if inputs == [] then t
    else AfterSweep(AfterSweeps(t, interval, inputs[..|inputs| - 1]), interval, inputs[|inputs| - 1])
  }

  class ReconciliationService {
    const db: Database

    constructor (db: Database)
      ensures this.db == db
    {
      this.db := db;
    }

    method BackfillMissedCredits(provider: Option<seq<Pull>>, since: int, until: int)
        returns (ok: bool, backfilled: nat)
      requires db.staged.None?
      modifies db
      ensures db.staged.None?
      ensures ok == provider.Some?
      ensures db.committed ==
        if ok then PullAll(old(db.committed), Listing(provider.value, since, until)) else old(db.committed)
      ensures |db.committed.entries| == |old(db.committed.entries)| + backfilled
    {
      backfilled := 0;
      if provider.None? {
        return false, 0;
      }
      var pulls := Listing(provider.value, since, until);
      for i := 0 to |pulls|
        invariant db.staged.None?
        invariant db.committed == PullAll(old(db.committed), pulls[..i])
        invariant |db.committed.entries| == |old(db.committed.entries)| + backfilled
      {
        assert pulls[..i + 1][..i] == pulls[..i];
        var p := pulls[i];
        if p.txn.kind != "CREDIT" || p.txn.status != "SUCCESSFUL" {
          continue;
        }
        if !p.checkUp || p.txn.id in db.committed.processed {
          continue;
        }
        var accountNumber := p.txn.alias;
        if accountNumber == "" {
          accountNumber := p.txn.recipient;
        }
        if accountNumber == "" || !p.lookupUp || accountNumber !in db.committed.accounts {
          continue;
        }
        var ok := db.InsertEntries(false, PullBatch(db.committed, p.txn), p.insert);
        if !ok {
          continue;
        }
        var _ := db.MarkProcessed(p.txn.id, p.markUp);
        backfilled := backfilled + 1;
      }
      assert pulls[..|pulls|] == pulls;
      ok := true;
    }

    method Run(org: OrgId, runAt: int, input: WalletInput) returns (run: Option<ReconciliationRun>)
      requires db.staged.None?
      modifies db
      ensures db.staged.None?
      ensures db.committed == AfterRun(old(db.committed), org, runAt, input)
      ensures run.Some? <==>
        input.clientUp && input.wallet.Some? && System(org, Pool) in old(db.committed.systemAccounts) &&
        input.storeUp && input.persistUp
      ensures run.Some? ==>
        && run.value.org == org && run.value.runAt == runAt
        && run.value.walletKobo == NairaToKobo(input.wallet.value)
        && run.value.poolKobo == Balance(old(db.committed.entries), System(org, Pool))
        && run.value.delta == run.value.walletKobo - run.value.poolKobo
        && (run.value.status == Ok <==> run.value.delta == 0)
      ensures db.committed ==
        if run.Some? then old(db.committed).(runs := old(db.committed.runs) + [run.value]) else old(db.committed)
    {
      if !input.clientUp || input.wallet.None? {
        return None;
      }
      var nombaKobo := NairaToKobo(input.wallet.value);
      if System(org, Pool) !in db.committed.systemAccounts || !input.storeUp {
        return None;
      }
      var poolKobo := Balance(db.committed.entries, System(org, Pool));
      var delta := nombaKobo - poolKobo;
      var status := Ok;
      if delta != 0 {
        status := Mismatch;
      }
      var row := ReconciliationRun(org, runAt, nombaKobo, poolKobo, delta, status);
      if !input.persistUp {
        return None;
      }
      db.committed := db.committed.(runs := db.committed.runs + [row]);
      run := Some(row);
    }
  }

  class SweepWorker {
    const recon: ReconciliationService
    const interval: nat

    constructor (recon: ReconciliationService, interval: nat)
      ensures this.recon == recon && this.interval == interval
    {
      this.recon, this.interval := recon, interval;
    }

    /** The balance check runs even when the backfill failed. */
    method SweepOrg(input: SweepInput)
      requires recon.db.staged.None?
      modifies recon.db
      ensures recon.db.staged.None?
      ensures recon.db.committed == AfterSweep(old(recon.db.committed), interval, input)
    {
      var since := input.at - 2 * interval;
      var _, _ := recon.BackfillMissedCredits(input.provider, since, input.at);
      var _ := recon.Run(input.org, input.runAt, input.wallet);
    }

    /** No org is swept when the orgs cannot be listed. */
    method SweepAllOrgs(orgs: Option<seq<SweepInput>>)
      requires recon.db.staged.None?
      modifies recon.db
      ensures recon.db.staged.None?
      ensures recon.db.committed ==
        if orgs.Some? then AfterSweeps(old(recon.db.committed), interval, orgs.value) else old(recon.db.committed)
    {
      if orgs.None? {
        return;
      }
      var inputs := orgs.value;
      for i := 0 to |inputs|
        invariant recon.db.staged.None?
        invariant recon.db.committed == AfterSweeps(old(recon.db.committed), interval, inputs[..i])
      {
        assert inputs[..i + 1][..i] == inputs[..i];
        SweepOrg(inputs[i]);
      }
      assert inputs[..|inputs|] == inputs;
    }
  }
}
