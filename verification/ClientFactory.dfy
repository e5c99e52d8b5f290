/** Per-organisation provider clients, built from stored credentials and cached for five minutes. */
module ClientFactory {
  import opened Ledger
  import opened Store

  const TTL := 300
  const SANDBOX_URL := "https://sandbox.nomba.com"

  // A stored configuration; the flags say whether its two encrypted secrets can be decrypted.
  datatype Config = Config(
    clientId: string, clientSecret: string, secretOk: bool, accountId: string, subAccountId: string,
    webhookSecret: string, webhookOk: bool, sandbox: bool)

  datatype Client = Client(baseUrl: string, clientId: string, secret: string, accountId: string, subAccountId: string)

  datatype Verifier = Verifier(secret: string)

  datatype Built = Built(client: Client, verifier: Verifier)

  datatype BuildError = LoadFailed | NoCredentials | DecryptFailed

  datatype BuildResult = Success(built: Built) | Failure(error: BuildError)

  function FromConfig(baseUrl: string, c: Config): BuildResult {
    if !c.secretOk || !c.webhookOk then Failure(DecryptFailed)
    else
      var url := if c.sandbox then SANDBOX_URL else baseUrl;
      Success(Built(Client(url, c.clientId, c.clientSecret, c.accountId, c.subAccountId), Verifier(c.webhookSecret)))
  }

  /** What a build from the current configuration gives: the org's own credentials, else the global fallback. */
  function Build(baseUrl: string, config: Option<Config>, fallback: Option<Built>): BuildResult {
    match config
    case Some(c) => FromConfig(baseUrl, c)
    case None => if fallback.Some? then Success(fallback.value) else Failure(NoCredentials)
  }

  /** Which credentials a client and its verifier carry, and when there are none. */
  lemma BuildMeans(baseUrl: string, config: Option<Config>, fallback: Option<Built>)
    ensures var r := Build(baseUrl, config, fallback);
      && (config == None ==> r == if fallback == None then Failure(NoCredentials) else Success(fallback.value))
      && (config.Some? ==>
           var c := config.value;
           if c.secretOk && c.webhookOk then
             && r.Success? && r.built.verifier.secret == c.webhookSecret
             && r.built.client.clientId == c.clientId && r.built.client.secret == c.clientSecret
             && r.built.client.accountId == c.accountId && r.built.client.subAccountId == c.subAccountId
             && r.built.client.baseUrl == if c.sandbox then "https://sandbox.nomba.com" else baseUrl
           else r == Failure(DecryptFailed))
  {
  }

  function Lookup<K, V>(m: map<K, V>, k: K): Option<V> {
    if k in m then Some(m[k]) else None
  }

  datatype CachedEntry = CachedEntry(built: Built, expiresAt: int)

  class Factory {
    const baseUrl: string
    var configs: map<OrgId, Config>
    var cache: map<OrgId, CachedEntry>
    var fallback: Option<Built>

    constructor (baseUrl: string, fallback: Option<Built>)
      ensures this.baseUrl == baseUrl && this.fallback == fallback && cache == map[] && configs == map[]
    {
      this.baseUrl, this.fallback := baseUrl, fallback;
      cache, configs := map[], map[];
    }

    function Current(org: OrgId): BuildResult
      reads this
    {
      Build(baseUrl, Lookup(configs, org), fallback)
    }

    /** Every cached entry is what the current configuration builds. */
    ghost predicate Agrees()
      reads this
    {
      forall org <- cache :: Current(org) == Success(cache[org].built)
    }

    predicate Hit(org: OrgId, now: int)
      reads this
    {
      org in cache && now <= cache[org].expiresAt
    }

    method BuildEntry(org: OrgId, builtAt: int, up: bool) returns (r: BuildResult, entry: CachedEntry)
      ensures r == if up then Current(org) else Failure(LoadFailed)
      ensures r.Success? ==> entry == CachedEntry(r.built, builtAt + TTL)
    {
      entry := CachedEntry(Built(Client("", "", "", "", ""), Verifier("")), 0);
      if !up {
        return Failure(LoadFailed), entry;
      }
      if org !in configs {
        if fallback.None? {
          return Failure(NoCredentials), entry;
        }
        r := Success(fallback.value);
      } else {
        r := FromConfig(baseUrl, configs[org]);
      }
      if r.Success? {
        entry := CachedEntry(r.built, builtAt + TTL);
      }
    }

    /** The cached entry while it is fresh, a newly built and stored one otherwise. */
    method EntryFor(org: OrgId, now: int, builtAt: int, up: bool) returns (r: BuildResult)
      requires Agrees()
      modifies this`cache
      ensures Agrees()
      ensures r == if up || old(Hit(org, now)) then Current(org) else Failure(LoadFailed)
      ensures org in old(cache) && now <= old(cache)[org].expiresAt ==>
        r == Success(old(cache)[org].built) && cache == old(cache)
      ensures !(org in old(cache) && now <= old(cache)[org].expiresAt) ==>
        && r == (if !up then Failure(LoadFailed)
                 else Build(baseUrl, if org in configs then Some(configs[org]) else None, fallback))
        && cache == if r.Success? then old(cache)[org := CachedEntry(r.built, builtAt + 300)] else old(cache)
    {
      if org in cache && now <= cache[org].expiresAt {
        return Success(cache[org].built);
      }
      var entry;
      r, entry := BuildEntry(org, builtAt, up);
      if r.Success? {
        cache := cache[org := entry];
      }
    }

    method ForOrg(org: OrgId, now: int, builtAt: int, up: bool) returns (client: Option<Client>)
      requires Agrees()
      modifies this`cache
      ensures Agrees()
      ensures client.Some? <==> Current(org).Success? && (up || old(Hit(org, now)))
      ensures client.Some? ==> client.value == Current(org).built.client
    {
      var r := EntryFor(org, now, builtAt, up);
      client := if r.Success? then Some(r.built.client) else None;
    }

    method VerifierForOrg(org: OrgId, now: int, builtAt: int, up: bool) returns (verifier: Option<Verifier>)
      requires Agrees()
      modifies this`cache
      ensures Agrees()
      ensures verifier.Some? <==> Current(org).Success? && (up || old(Hit(org, now)))
      ensures verifier.Some? ==> verifier.value == Current(org).built.verifier
    {
      var r := EntryFor(org, now, builtAt, up);
      verifier := if r.Success? then Some(r.built.verifier) else None;
    }

    /** Saves the configuration, then evicts the cached entry. */
    method Upsert(org: OrgId, c: Config, up: bool) returns (ok: bool)
      requires Agrees()
      modifies this`configs, this`cache
      ensures Agrees()
      ensures ok == up
      ensures ok ==> configs == old(configs)[org := c] && cache == old(cache) - {org}
      ensures !ok ==> configs == old(configs) && cache == old(cache)
    {
      ok := up;
      if ok {
        configs := configs[org := c];
        cache := cache - {org};
      }
    }
  }

  // ----- reads, builds, stores, upserts and evictions as separate steps -----

  datatype Version = Version(org: OrgId, config: Config, at: int)

  // A built entry with the number of configuration versions its read saw, and when it was read and built.
  datatype Job = Job(org: OrgId, seen: nat, readAt: int, built: Built, builtAt: int)

  // `log` holds every configuration version in commit order. An entry is built when its read is finished.
  datatype World = World(
    clock: int, log: seq<Version>, loads: seq<(OrgId, nat, int)>, jobs: seq<Job>, cache: map<OrgId, Job>)

  datatype Label =
    | Wait(seconds: nat)
    | Save(org: OrgId, config: Config)
    | Load(org: OrgId)
    | Finish(l: nat)
    | StoreEntry(j: nat)
    | Invalidate(org: OrgId)

  const INIT := World(0, [], [], [], map[])

  /** The last version of the org's configuration in a log. */
  function Latest(log: seq<Version>, org: OrgId): Option<Config> {
    if log == [] then None
    else if log[|log| - 1].org == org then Some(log[|log| - 1].config)
    else Latest(log[..|log| - 1], org)
  }

  function Without<T>(xs: seq<T>, i: nat): (rest: seq<T>)
    requires i < |xs|
    ensures forall x <- rest :: x in xs
  {
    xs[..i] + xs[i + 1..]
  }

  /** An org's current configuration is the one saved last under it. */
  lemma LatestMeans(log: seq<Version>, org: OrgId, saved: Version)
    ensures Latest([], org) == None
    ensures Latest(log + [saved], org) == if saved.org == org then Some(saved.config) else Latest(log, org)
  {
    assert (log + [saved])[..|log|] == log;
  }

  function Step(w: World, l: Label, baseUrl: string, fallback: Option<Built>): World {
    match l
    case Wait(s) => w.(clock := w.clock + s)
    case Save(org, c) => w.(log := w.log + [Version(org, c, w.clock)])
    case Load(org) => w.(loads := w.loads + [(org, |w.log|, w.clock)])
    case Finish(i) =>
      if i < |w.loads| && w.loads[i].1 <= |w.log| then
        var (org, seen, readAt) := w.loads[i];
        var r, rest := Build(baseUrl, Latest(w.log[..seen], org), fallback), Without(w.loads, i);
        if r.Success? then w.(loads := rest, jobs := w.jobs + [Job(org, seen, readAt, r.built, w.clock)])
        else w.(loads := rest)
      else w
    case StoreEntry(j) =>
      if j < |w.jobs| then w.(cache := w.cache[w.jobs[j].org := w.jobs[j]], jobs := Without(w.jobs, j)) else w
    case Invalidate(org) => w.(cache := w.cache - {org})
  }

  function Run(w: World, ls: seq<Label>, baseUrl: string, fallback: Option<Built>): World {
    if ls == [] then w else Step(Run(w, ls[..|ls| - 1], baseUrl, fallback), ls[|ls| - 1], baseUrl, fallback)
  }

  /** The entry is the build of one version prefix; whatever it has not seen was saved after its read. */
  ghost predicate Faithful(w: World, j: Job, baseUrl: string, fallback: Option<Built>) {
    && j.seen <= |w.log| && j.readAt <= j.builtAt <= w.clock
    && Build(baseUrl, Latest(w.log[..j.seen], j.org), fallback) == Success(j.built)
    && forall k :: j.seen <= k < |w.log| ==> j.readAt <= w.log[k].at
  }

  ghost predicate Sound(w: World, baseUrl: string, fallback: Option<Built>) {
    && (forall l <- w.loads ::
          l.1 <= |w.log| && l.2 <= w.clock && forall k :: l.1 <= k < |w.log| ==> l.2 <= w.log[k].at)
    && (forall j <- w.jobs :: Faithful(w, j, baseUrl, fallback))
    && (forall org <- w.cache :: w.cache[org].org == org && Faithful(w, w.cache[org], baseUrl, fallback))
  }

  lemma SaveKeeps(w: World, j: Job, org: OrgId, c: Config, baseUrl: string, fallback: Option<Built>)
    requires Faithful(w, j, baseUrl, fallback)
    ensures Faithful(w.(log := w.log + [Version(org, c, w.clock)]), j, baseUrl, fallback)
  {
    assert (w.log + [Version(org, c, w.clock)])[..j.seen] == w.log[..j.seen];
  }

  lemma SaveSound(w: World, org: OrgId, c: Config, baseUrl: string, fallback: Option<Built>)
    requires Sound(w, baseUrl, fallback)
    ensures Sound(w.(log := w.log + [Version(org, c, w.clock)]), baseUrl, fallback)
  {
    forall j <- w.jobs {
      SaveKeeps(w, j, org, c, baseUrl, fallback);
    }
    forall o <- w.cache {
      SaveKeeps(w, w.cache[o], org, c, baseUrl, fallback);
    }
  }

  lemma FinishSound(w: World, i: nat, baseUrl: string, fallback: Option<Built>)
    requires Sound(w, baseUrl, fallback)
    ensures Sound(Step(w, Finish(i), baseUrl, fallback), baseUrl, fallback)
  {
    var w' := Step(w, Finish(i), baseUrl, fallback);
    if i < |w.loads| {
      assert w.loads[i] in w.loads;
      forall j <- w'.jobs ensures Faithful(w', j, baseUrl, fallback) {
        assert j in w.jobs ==> Faithful(w, j, baseUrl, fallback);
      }
    }
  }

  lemma StepSound(w: World, l: Label, baseUrl: string, fallback: Option<Built>)
    requires Sound(w, baseUrl, fallback)
    ensures Sound(Step(w, l, baseUrl, fallback), baseUrl, fallback)
  {
    if l.Save? {
      SaveSound(w, l.org, l.config, baseUrl, fallback);
    } else if l.Finish? {
      FinishSound(w, l.l, baseUrl, fallback);
    } else if l.StoreEntry? && l.j < |w.jobs| {
      assert w.jobs[l.j] in w.jobs;
    }
  }

  lemma {:induction false} RunSound(ls: seq<Label>, baseUrl: string, fallback: Option<Built>)
    ensures Sound(Run(INIT, ls, baseUrl, fallback), baseUrl, fallback)
  {
    if ls != [] {
      RunSound(ls[..|ls| - 1], baseUrl, fallback);
      StepSound(Run(INIT, ls[..|ls| - 1], baseUrl, fallback), ls[|ls| - 1], baseUrl, fallback);
    }
  }

  predicate Served(w: World, org: OrgId) {
    org in w.cache && w.clock <= w.cache[org].builtAt + TTL
  }

  /** Under any interleaving the client and verifier of a served entry come from the one version that was current at its
      read, and it misses only versions younger than five minutes plus its read-to-build gap. */
  lemma BoundedStaleness(ls: seq<Label>, baseUrl: string, fallback: Option<Built>, org: OrgId)
    requires Served(Run(INIT, ls, baseUrl, fallback), org)
    ensures var w := Run(INIT, ls, baseUrl, fallback);
      var e := w.cache[org];
      && e.seen <= |w.log|
      && Build(baseUrl, Latest(w.log[..e.seen], org), fallback) == Success(e.built)
      && forall k :: e.seen <= k < |w.log| ==> w.clock - w.log[k].at <= 300 + (e.builtAt - e.readAt)
  {
    RunSound(ls, baseUrl, fallback);
  }

  // A read that saw fewer than n versions and can still become an entry.
  predicate Outdated(w: World, load: (OrgId, nat, int), org: OrgId, n: nat, baseUrl: string, fallback: Option<Built>) {
    load.0 == org && load.1 < n && load.1 <= |w.log| && Build(baseUrl, Latest(w.log[..load.1], org), fallback).Success?
  }

  // An entry built from fewer than n versions that has not expired.
  predicate OldButFresh(w: World, j: Job, n: nat) {
    j.seen < n && w.clock <= j.builtAt + TTL
  }

  // Nothing under way or in the cache for the org can be served and is older than version n.
  predicate UpToDate(w: World, org: OrgId, n: nat, baseUrl: string, fallback: Option<Built>) {
    && n <= |w.log|
    && (forall load <- w.loads :: !Outdated(w, load, org, n, baseUrl, fallback))
    && (forall j <- w.jobs :: j.org == org ==> !OldButFresh(w, j, n))
    && (org in w.cache ==> !OldButFresh(w, w.cache[org], n))
  }

  lemma StepUpToDate(w: World, l: Label, org: OrgId, n: nat, baseUrl: string, fallback: Option<Built>)
    requires UpToDate(w, org, n, baseUrl, fallback)
    ensures UpToDate(Step(w, l, baseUrl, fallback), org, n, baseUrl, fallback)
  {
    if l.Save? {
      var w' := Step(w, l, baseUrl, fallback);
      forall load <- w'.loads ensures !Outdated(w', load, org, n, baseUrl, fallback) {
        assert load in w.loads && (load.1 <= |w.log| ==> w'.log[..load.1] == w.log[..load.1]);
      }
    } else if l.Finish? && l.l < |w.loads| {
      assert w.loads[l.l] in w.loads;
    } else if l.StoreEntry? && l.j < |w.jobs| {
      assert w.jobs[l.j] in w.jobs;
    }
  }

  lemma {:induction false} StaysUpToDate(
      w: World, ls: seq<Label>, org: OrgId, n: nat, baseUrl: string, fallback: Option<Built>)
    requires UpToDate(w, org, n, baseUrl, fallback)
    ensures UpToDate(Run(w, ls, baseUrl, fallback), org, n, baseUrl, fallback)
  {
    if ls != [] {
      StaysUpToDate(w, ls[..|ls| - 1], org, n, baseUrl, fallback);
      StepUpToDate(Run(w, ls[..|ls| - 1], baseUrl, fallback), ls[|ls| - 1], org, n, baseUrl, fallback);
    }
  }

  predicate NeverOlder(w: World, ls: seq<Label>, org: OrgId, n: nat, baseUrl: string, fallback: Option<Built>) {
    var w' := Run(w, ls, baseUrl, fallback);
    Served(w', org) ==> n <= w'.cache[org].seen
  }

  /** Nothing that could still be served for the org is older than version n. */
  predicate NothingOld(w: World, org: OrgId, n: nat, baseUrl: string, fallback: Option<Built>) {
    && (forall j <- w.jobs :: j.org == org ==> !OldButFresh(w, j, n))
    && (forall l <- w.loads :: !Outdated(w, l, org, n, baseUrl, fallback))
  }

  /** The eviction of an org, whatever has come since its configuration was saved as version n: no older entry is served
      in any continuation if and only if, at the eviction, no fresh older entry of the org is waiting to be stored and
      no read that would build one is under way. */
  lemma InvalidationHoldsIff(w: World, org: OrgId, n: nat, baseUrl: string, fallback: Option<Built>)
    requires n <= |w.log|
    ensures var w' := Step(w, Invalidate(org), baseUrl, fallback);
      (forall ls :: NeverOlder(w', ls, org, n, baseUrl, fallback)) <==> NothingOld(w, org, n, baseUrl, fallback)
  {
    var w' := Step(w, Invalidate(org), baseUrl, fallback);
    if j :| j in w.jobs && j.org == org && OldButFresh(w, j, n) {
      var k :| 0 <= k < |w.jobs| && w.jobs[k] == j;
      StoredIsServed(w', k, n, baseUrl, fallback);
    } else if load :| load in w.loads && Outdated(w, load, org, n, baseUrl, fallback) {
      var i :| 0 <= i < |w.loads| && w.loads[i] == load;
      FinishedIsServed(w', i, org, n, baseUrl, fallback);
    } else {
      forall ls ensures NeverOlder(w', ls, org, n, baseUrl, fallback) {
        StaysUpToDate(w', ls, org, n, baseUrl, fallback);
      }
    }
  }

  lemma StoredIsServed(w: World, k: nat, n: nat, baseUrl: string, fallback: Option<Built>)
    requires k < |w.jobs| && OldButFresh(w, w.jobs[k], n)
    ensures !NeverOlder(w, [StoreEntry(k)], w.jobs[k].org, n, baseUrl, fallback)
  {
    RunOne(w, StoreEntry(k), baseUrl, fallback);
  }

  lemma FinishedIsServed(w: World, i: nat, org: OrgId, n: nat, baseUrl: string, fallback: Option<Built>)
    requires i < |w.loads| && Outdated(w, w.loads[i], org, n, baseUrl, fallback)
    ensures !NeverOlder(w, [Finish(i), StoreEntry(|w.jobs|)], org, n, baseUrl, fallback)
  {
    assert [Finish(i), StoreEntry(|w.jobs|)][..1] == [Finish(i)];
    RunOne(w, Finish(i), baseUrl, fallback);
  }

  lemma RunOne(w: World, l: Label, baseUrl: string, fallback: Option<Built>)
    ensures Run(w, [l], baseUrl, fallback) == Step(w, l, baseUrl, fallback)
  {
    assert [l][..0] == [];
  }

  // ----- the serial case: whole calls, and every save followed by its eviction -----

  datatype Op = Use(org: OrgId) | Configure(org: OrgId, config: Config) | Pass(seconds: nat)

  function Do(w: World, op: Op, baseUrl: string, fallback: Option<Built>): World {
    match op
    case Use(org) =>
      if Served(w, org) then w
      else
        var finished := Step(Step(w, Load(org), baseUrl, fallback), Finish(|w.loads|), baseUrl, fallback);
        if |finished.jobs| > |w.jobs| then Step(finished, StoreEntry(|w.jobs|), baseUrl, fallback) else finished
    case Configure(org, c) => Step(Step(w, Save(org, c), baseUrl, fallback), Invalidate(org), baseUrl, fallback)
    case Pass(s) => Step(w, Wait(s), baseUrl, fallback)
  }

  function DoAll(w: World, ops: seq<Op>, baseUrl: string, fallback: Option<Built>): World {
    if ops == [] then w else Do(DoAll(w, ops[..|ops| - 1], baseUrl, fallback), ops[|ops| - 1], baseUrl, fallback)
  }

  /** A whole call: the fresh entry as it is, else a build of the latest version, cached when there is one. */
  lemma UseMeans(w: World, org: OrgId, baseUrl: string, fallback: Option<Built>)
    ensures var w', r := Do(w, Use(org), baseUrl, fallback), Build(baseUrl, Latest(w.log, org), fallback);
      && w'.log == w.log && w'.loads == w.loads && w'.jobs == w.jobs && w'.clock == w.clock
      && (Served(w, org) ==> w' == w)
      && (!Served(w, org) && r.Failure? ==> w'.cache == w.cache)
      && (!Served(w, org) && r.Success? ==>
           w'.cache == w.cache[org := Job(org, |w.log|, w.clock, r.built, w.clock)])
  {
    assert w.log[..|w.log|] == w.log;
    var loaded := Step(w, Load(org), baseUrl, fallback);
    assert loaded.loads[..|w.loads|] + loaded.loads[|w.loads| + 1..] == w.loads;
    var finished := Step(loaded, Finish(|w.loads|), baseUrl, fallback);
    assert |finished.jobs| > |w.jobs| ==> finished.jobs[..|w.jobs|] + finished.jobs[|w.jobs| + 1..] == w.jobs;
  }

  ghost predicate CacheCurrent(w: World, baseUrl: string, fallback: Option<Built>) {
    forall org <- w.cache :: Build(baseUrl, Latest(w.log, org), fallback) == Success(w.cache[org].built)
  }

  lemma DoKeepsCurrent(w: World, op: Op, baseUrl: string, fallback: Option<Built>)
    requires CacheCurrent(w, baseUrl, fallback)
    ensures CacheCurrent(Do(w, op, baseUrl, fallback), baseUrl, fallback)
  {
    match op
    case Use(org) => assert w.log[..|w.log|] == w.log;
    case Configure(org, c) => assert (w.log + [Version(org, c, w.clock)])[..|w.log|] == w.log;
    case Pass(_) =>
  }

  /** In every serial run each cached client and verifier is what the configuration of that moment would build. */
  lemma {:induction false} SerialRunsAgree(ops: seq<Op>, baseUrl: string, fallback: Option<Built>)
    ensures CacheCurrent(DoAll(INIT, ops, baseUrl, fallback), baseUrl, fallback)
  {
    if ops != [] {
      SerialRunsAgree(ops[..|ops| - 1], baseUrl, fallback);
      DoKeepsCurrent(DoAll(INIT, ops[..|ops| - 1], baseUrl, fallback), ops[|ops| - 1], baseUrl, fallback);
    }
  }
}
