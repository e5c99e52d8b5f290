/** API-key authentication with a 60-second cache in front of the key store. */
module KeyCache {
  import opened Ledger
  import opened Store

  // SHA-256 of the bearer token, treated as an opaque value.
  type Hash = string

  const TTL := 60

  // Keys created before organisations existed have none.
  datatype ApiKey = ApiKey(org: Option<OrgId>, revokedAt: Option<int>)

  datatype CachedKey = CachedKey(org: Option<OrgId>, expiresAt: int)

  datatype Credential = NoBearer | StaticKey | Key(hash: Hash)

  datatype Decision = Malformed | Static(pinned: Option<OrgId>) | Accepted(org: OrgId) | NoOrganisation | Invalid

  /** GetByHash finds active keys only. */
  predicate Unrevoked(keys: map<Hash, ApiKey>, hash: Hash) {
    hash in keys && keys[hash].revokedAt.None?
  }

  /** The decision without any cache. */
  function Uncached(keys: map<Hash, ApiKey>, c: Credential, staticOrg: Option<OrgId>): Decision {
    match c
    case NoBearer => Malformed
    case StaticKey => Static(staticOrg)
    case Key(h) =>
      if !Unrevoked(keys, h) then Invalid
      else if keys[h].org.None? then NoOrganisation
      else Accepted(keys[h].org.value)
  }

  predicate Hit(cache: map<Hash, CachedKey>, hash: Hash, now: int) {
    hash in cache && now < cache[hash].expiresAt
  }

  class APIKeyAuth {
    var keys: map<Hash, ApiKey>
    var cache: map<Hash, CachedKey>
    const staticOrg: Option<OrgId>

    constructor (staticOrg: Option<OrgId>)
      ensures this.staticOrg == staticOrg && keys == map[] && cache == map[]
    {
      this.staticOrg := staticOrg;
      keys, cache := map[], map[];
    }

    /** Every cached entry is an active key with its organisation. */
    ghost predicate Agrees()
      reads this
    {
      forall h <- cache :: Unrevoked(keys, h) && keys[h].org.Some? && cache[h].org == keys[h].org
    }

    /** One request: `now` is read at the cache lookup and `later` after the database lookup, which fails when `up` is
        false. */
    method Authenticate(c: Credential, now: int, later: int, up: bool) returns (d: Decision)
      requires Agrees()
      modifies this`cache
      ensures Agrees()
      // A request that is answered without the database is answered as the database would.
      ensures d == if up || !c.Key? || Hit(old(cache), c.hash, now) then Uncached(keys, c, staticOrg) else Invalid
      ensures c == NoBearer ==> d == Malformed
      ensures c == StaticKey ==> d == Static(staticOrg)
      ensures !c.Key? ==> cache == old(cache)
      // A cached key is accepted, for 60 seconds after it was stored, whether or not the database is up.
      ensures c.Key? && c.hash in old(cache) && now < old(cache)[c.hash].expiresAt ==>
        old(cache)[c.hash].org.Some? && d == Accepted(old(cache)[c.hash].org.value) && cache == old(cache)
      ensures c.Key? && !(c.hash in old(cache) && now < old(cache)[c.hash].expiresAt) ==>
        && (d == Invalid <==> !up || c.hash !in keys || keys[c.hash].revokedAt.Some?)
        && (d == NoOrganisation <==> up && c.hash in keys && keys[c.hash].revokedAt.None? && keys[c.hash].org.None?)
        && (d.Accepted? <==> up && c.hash in keys && keys[c.hash].revokedAt.None? && keys[c.hash].org.Some?)
        && (d.Accepted? ==> Some(d.org) == keys[c.hash].org)
        && cache == if d.Accepted? then old(cache)[c.hash := CachedKey(Some(d.org), later + 60)]
                    else old(cache) - {c.hash}
    {
      if c.NoBearer? {
        return Malformed;
      }
      if c.StaticKey? {
        return Static(staticOrg);
      }
      if c.hash in cache {
        var entry := cache[c.hash];
        if now < entry.expiresAt {
          if entry.org.None? {
            return NoOrganisation;
          }
          return Accepted(entry.org.value);
        }
        cache := cache - {c.hash};
      }
      if !up || !Unrevoked(keys, c.hash) {
        return Invalid;
      }
      var k := keys[c.hash];
      if k.org.None? {
        return NoOrganisation;
      }
      cache := cache[c.hash := CachedKey(k.org, later + TTL)];
      d := Accepted(k.org.value);
    }

    method CreateKey(hash: Hash, org: Option<OrgId>) returns (ok: bool)
      requires Agrees()
      modifies this`keys
      ensures Agrees()
      ensures ok == (hash !in old(keys))
      ensures keys == if ok then old(keys)[hash := ApiKey(org, None)] else old(keys)
    {
      ok := hash !in keys;
      if ok {
        keys := keys[hash := ApiKey(org, None)];
      }
    }

    /** Revokes in the store first, then evicts; without a successful update the cache is left alone. */
    method Revoke(hash: Hash, now: int, up: bool) returns (ok: bool)
      requires Agrees()
      modifies this
      ensures Agrees()
      ensures ok == (up && hash in old(keys))
      ensures ok ==> keys == old(keys)[hash := old(keys)[hash].(revokedAt := Some(now))] && cache == old(cache) - {hash}
      ensures !ok ==> keys == old(keys) && cache == old(cache)
      ensures ok ==> Uncached(keys, Key(hash), staticOrg) == Invalid
    {
      ok := hash in keys && up;
      if ok {
        keys := keys[hash := keys[hash].(revokedAt := Some(now))];
        cache := cache - {hash};
      }
    }
  }

  // ----- lookups, stores, revocations and evictions as separate steps -----

  // A cache entry with when its key was read and when it was stored.
  datatype Line = Line(org: OrgId, readAt: int, storedAt: int)

  datatype Lookup = Lookup(hash: Hash, org: OrgId, at: int)

  // `lookups` are the active keys read from the database and not yet stored; `revoked` says since when a key is
  // revoked.
  datatype World = World(
    clock: int, keys: map<Hash, ApiKey>, revoked: map<Hash, int>, lookups: seq<Lookup>, cache: map<Hash, Line>)

  datatype Label =
    | Wait(seconds: nat)
    | Create(h: Hash, owner: Option<OrgId>)
    | ReadKey(h: Hash)
    | StoreRead(i: nat)
    | RevokeInStore(h: Hash)
    | Evict(h: Hash)

  const INIT := World(0, map[], map[], [], map[])

  function Step(w: World, l: Label): World {
    match l
    case Wait(s) => w.(clock := w.clock + s)
    case Create(h, org) => if h in w.keys then w else w.(keys := w.keys[h := ApiKey(org, None)])
    case ReadKey(h) =>
      if Unrevoked(w.keys, h) && w.keys[h].org.Some?
      then w.(lookups := w.lookups + [Lookup(h, w.keys[h].org.value, w.clock)]) else w
    case StoreRead(i) =>
      if i < |w.lookups| then
        var r := w.lookups[i];
        w.(cache := w.cache[r.hash := Line(r.org, r.at, w.clock)], lookups := w.lookups[..i] + w.lookups[i + 1..])
      else w
    case RevokeInStore(h) =>
      if h !in w.keys then w
      else w.(keys := w.keys[h := w.keys[h].(revokedAt := Some(w.clock))],
              revoked := if h in w.revoked then w.revoked else w.revoked[h := w.clock])
    case Evict(h) => w.(cache := w.cache - {h})
  }

  function Run(w: World, ls: seq<Label>): World {
    if ls == [] then w else Step(Run(w, ls[..|ls| - 1]), ls[|ls| - 1])
  }

  /** The key belonged to org and was not revoked at time t. */
  predicate ActiveAt(w: World, h: Hash, org: OrgId, t: int) {
    h in w.keys && w.keys[h].org == Some(org) && (h in w.revoked ==> t <= w.revoked[h])
  }

  ghost predicate Sound(w: World) {
    && w.revoked.Keys <= w.keys.Keys
    && (forall h <- w.keys :: w.keys[h].revokedAt.None? <==> h !in w.revoked)
    && (forall r <- w.lookups :: r.at <= w.clock && ActiveAt(w, r.hash, r.org, r.at))
    && (forall h <- w.cache ::
          w.cache[h].readAt <= w.cache[h].storedAt <= w.clock && ActiveAt(w, h, w.cache[h].org, w.cache[h].readAt))
  }

  lemma StepSound(w: World, l: Label)
    requires Sound(w)
    ensures Sound(Step(w, l))
  {
  }

  lemma {:induction false} RunSound(ls: seq<Label>)
    ensures Sound(Run(INIT, ls))
  {
    if ls != [] {
      RunSound(ls[..|ls| - 1]);
      StepSound(Run(INIT, ls[..|ls| - 1]), ls[|ls| - 1]);
    }
  }

  /** Whether the cache answers for h now. */
  predicate Served(w: World, h: Hash) {
    h in w.cache && w.clock < w.cache[h].storedAt + TTL
  }

  /** Under any interleaving, a request served from the cache is for a key that was active, for that organisation, when
      the entry's own lookup read it; so its revocation is less than 60 seconds plus the lookup-to-store gap old. */
  lemma BoundedStaleness(ls: seq<Label>, h: Hash)
    requires Served(Run(INIT, ls), h)
    ensures var w := Run(INIT, ls);
      var e := w.cache[h];
      && ActiveAt(w, h, e.org, e.readAt)
      && (h in w.revoked ==> w.clock - w.revoked[h] < 60 + (e.storedAt - e.readAt))
  {
    RunSound(ls);
  }

  // The key is revoked, and neither the cache nor any lookup under way knows it.
  predicate Forgotten(w: World, h: Hash) {
    h in w.keys && !Unrevoked(w.keys, h) && h !in w.cache && forall r <- w.lookups :: r.hash != h
  }

  lemma {:induction false} StaysForgotten(w: World, ls: seq<Label>, h: Hash)
    requires Forgotten(w, h)
    ensures Forgotten(Run(w, ls), h)
  {
    if ls != [] {
      StaysForgotten(w, ls[..|ls| - 1], h);
    }
  }

  /** The eviction of a revoked key, whatever has come since its revocation: it is never served again, in any
      continuation, if and only if no lookup of it is under way at the eviction. */
  lemma EvictionHoldsIff(w: World, h: Hash)
    requires h in w.keys && !Unrevoked(w.keys, h)
    ensures (forall ls :: !Served(Run(Step(w, Evict(h)), ls), h)) <==> (forall r <- w.lookups :: r.hash != h)
  {
    var w' := Step(w, Evict(h));
    if forall r <- w.lookups :: r.hash != h {
      forall ls ensures !Served(Run(w', ls), h) {
        StaysForgotten(w', ls, h);
      }
    } else {
      var i :| 0 <= i < |w.lookups| && w.lookups[i].hash == h;
      RunOne(w', StoreRead(i));
      assert Served(Run(w', [StoreRead(i)]), h);
    }
  }

  /** Over a whole revocation with anything in between: the key is gone for good if and only if every lookup of it that
      was under way at the revocation has been stored by the eviction. */
  lemma RevocationHoldsIff(w: World, h: Hash, between: seq<Label>)
    requires h in w.keys
    ensures var evicting := Run(Step(w, RevokeInStore(h)), between);
      (forall ls :: !Served(Run(Step(evicting, Evict(h)), ls), h)) <==> (forall r <- evicting.lookups :: r.hash != h)
    ensures forall r <- Run(Step(w, RevokeInStore(h)), between).lookups :: r.hash == h ==> r in w.lookups
  {
    StaysRevoked(Step(w, RevokeInStore(h)), between, h);
    EvictionHoldsIff(Run(Step(w, RevokeInStore(h)), between), h);
  }

  // A revoked key stays revoked, and no new lookup finds it.
  lemma {:induction false} StaysRevoked(w: World, ls: seq<Label>, h: Hash)
    requires h in w.keys && !Unrevoked(w.keys, h)
    ensures h in Run(w, ls).keys && !Unrevoked(Run(w, ls).keys, h)
    ensures forall r <- Run(w, ls).lookups :: r.hash == h ==> r in w.lookups
  {
    if ls != [] {
      StaysRevoked(w, ls[..|ls| - 1], h);
    }
  }

  lemma RunOne(w: World, l: Label)
    ensures Run(w, [l]) == Step(w, l)
  {
    assert [l][..0] == [];
  }

  // ----- the serial case: whole requests and whole revocations -----

  datatype Op = Ask(h: Hash) | Revoke(h: Hash) | Make(h: Hash, owner: Option<OrgId>) | Pass(seconds: nat)

  function Do(w: World, op: Op): World {
    match op
    case Ask(h) =>
      if Served(w, h) then w
      else
        var looked := Step(Step(w, Evict(h)), ReadKey(h));
        if |looked.lookups| > |w.lookups| then Step(looked, StoreRead(|w.lookups|)) else looked
    case Revoke(h) => if h in w.keys then Step(Step(w, RevokeInStore(h)), Evict(h)) else w
    case Make(h, org) => Step(w, Create(h, org))
    case Pass(s) => Step(w, Wait(s))
  }

  function DoAll(w: World, ops: seq<Op>): World {
    if ops == [] then w else Do(DoAll(w, ops[..|ops| - 1]), ops[|ops| - 1])
  }

  /** A whole request: served as before while its entry is fresh, else answered by the store, and cached when
      accepted. */
  lemma AskMeans(w: World, h: Hash)
    ensures var w' := Do(w, Ask(h));
      && w'.keys == w.keys && w'.lookups == w.lookups && w'.clock == w.clock
      && (forall g <- w.cache :: g != h ==> g in w'.cache && w'.cache[g] == w.cache[g])
      && (Served(w, h) ==> w' == w)
      && (!Served(w, h) && h in w.keys && w.keys[h].revokedAt == None && w.keys[h].org.Some? ==>
           h in w'.cache && w'.cache[h] == Line(w.keys[h].org.value, w.clock, w.clock))
      && (!Served(w, h) && !(h in w.keys && w.keys[h].revokedAt == None && w.keys[h].org.Some?) ==> h !in w'.cache)
  {
    var looked := Step(Step(w, Evict(h)), ReadKey(h));
    var n := |w.lookups|;
    assert |looked.lookups| > n ==> looked.lookups[..n] + looked.lookups[n + 1..] == w.lookups;
  }

  ghost predicate Agrees(w: World) {
    forall h <- w.cache :: Uncached(w.keys, Key(h), None) == Accepted(w.cache[h].org)
  }

  lemma DoAgrees(w: World, op: Op)
    requires Agrees(w)
    ensures Agrees(Do(w, op))
  {
  }

  /** In every serial run the cache answers only what the store would answer at that very moment. */
  lemma {:induction false} SerialRunsAgree(ops: seq<Op>)
    ensures Agrees(DoAll(INIT, ops))
  {
    if ops != [] {
      SerialRunsAgree(ops[..|ops| - 1]);
      DoAgrees(DoAll(INIT, ops[..|ops| - 1]), ops[|ops| - 1]);
    }
  }
}
