/**
 API keys in Postgres behind a read-through Redis cache. Times are milliseconds. A lookup reads in one step and
 fills the cache in another, and a revocation writes to the database in one step and deletes from the cache in
 another; how stale an answer can be, and what a revocation guarantees, are stated over whole runs.
 */
module ApiKeyCache {
  import opened Wrappers

  const CACHE_TTL: nat := 300_000

  datatype ServiceAccount = ServiceAccount(tenant: string, roles: seq<string>, active: bool)

  datatype KeyRow = KeyRow(id: string, account: string, expires: Option<nat>, revoked: bool)

  /** Keys by their hash, which is unique, and accounts by identifier. */
  datatype Database = Database(keys: map<string, KeyRow>, accounts: map<string, ServiceAccount>)

  datatype Identity = Identity(keyId: string, account: string, tenant: string, roles: seq<string>, expires: Option<nat>)

  datatype FindError = KeyNotFound | KeyExpired | Unavailable

  predicate Past(expires: Option<nat>, now: nat) { expires.Some? && now > expires.value }

  /** The source of truth: an unrevoked key of an active account, not past its expiry. */
  function Truth(db: Database, hash: string, now: nat): Result<Identity, FindError> {
    if hash !in db.keys then Err(KeyNotFound)
    else
      var k := db.keys[hash];
      if k.revoked || k.account !in db.accounts || !db.accounts[k.account].active then Err(KeyNotFound)
      else if Past(k.expires, now) then Err(KeyExpired)
      else Ok(Identity(k.id, k.account, db.accounts[k.account].tenant, db.accounts[k.account].roles, k.expires))
  }

  function Revoked(db: Database, keyId: string): Database {
    db.(keys := map h | h in db.keys :: if db.keys[h].id == keyId then db.keys[h].(revoked := true) else db.keys[h])
  }

  class PostgresApiKeyStore {
    var db: Database

    constructor (db: Database)
      ensures this.db == db
    {
      this.db := db;
    }

    method Save(hash: string, key: KeyRow) returns (ok: bool)
      modifies this
      ensures ok == (hash !in old(db).keys && key.account in old(db).accounts)
      ensures db == if ok then old(db).(keys := old(db).keys[hash := key]) else old(db)
    {
      ok := hash !in db.keys && key.account in db.accounts;
      if ok {
        db := db.(keys := db.keys[hash := key]);
      }
    }

    method FindActiveByHash(hash: string, now: nat, down: bool) returns (r: Result<Identity, FindError>)
      ensures r == if down then Err(Unavailable) else Truth(db, hash, now)
    {
      if down {
        return Err(Unavailable);
      }
      if hash !in db.keys {
        return Err(KeyNotFound);
      }
      var k := db.keys[hash];
      if k.revoked || k.account !in db.accounts || !db.accounts[k.account].active {
        return Err(KeyNotFound);
      }
      if k.expires.Some? && now > k.expires.value {
        return Err(KeyExpired);
      }
      var sa := db.accounts[k.account];
      r := Ok(Identity(k.id, k.account, sa.tenant, sa.roles, k.expires));
    }

    method Revoke(keyId: string, down: bool) returns (ok: bool)
      modifies this
      ensures ok == !down && db == if down then old(db) else Revoked(old(db), keyId)
    {
      if !down {
        db := db.(keys := map h | h in db.keys :: if db.keys[h].id == keyId then db.keys[h].(revoked := true) else db.keys[h]);
      }
      ok := !down;
    }
  }

  // ---------- The cache ----------

  /** A cached identity; without a deadline it stays until it is deleted or overwritten. */
  datatype Cached = Cached(identity: Identity, deadline: Option<nat>)

  type Cache = map<string, Cached>

  function CacheGet(cache: Cache, hash: string, now: nat): Option<Identity> {
    if hash in cache && (cache[hash].deadline.None? || now < cache[hash].deadline.value) then Some(cache[hash].identity)
    else None
  }

  /**
   The entry written for an identity: five minutes, or what is left of the key. A TTL that is not positive
   means none.
   */
  function Entry(identity: Identity, now: nat): Cached {
    var left := if identity.expires.Some? && identity.expires.value as int - now < CACHE_TTL
      then identity.expires.value as int - now else CACHE_TTL;
    Cached(identity, if left > 0 then Some(now + left) else None)
  }

  /** Which of a lookup's reads fail. */
  datatype Faults = Faults(get: bool, del: bool, query: bool)

  /** The first part of a lookup: the cache once cleaned, the answer, and whether it came from the database. */
  function Look(db: Database, cache: Cache, hash: string, now: nat, f: Faults): (Cache, Result<Identity, FindError>, bool) {
    var hit := if f.get then None else CacheGet(cache, hash, now);
    if hit.Some? && !Past(hit.value.expires, now) then (cache, Ok(hit.value), false)
    else
      var cleaned := if hit.Some? && !f.del then cache - {hash} else cache;
      (cleaned, if f.query then Err(Unavailable) else Truth(db, hash, now), true)
  }

  /** A whole lookup with nothing in between. */
  function Find(db: Database, cache: Cache, hash: string, now: nat, f: Faults, fillFails: bool)
    : (Cache, Result<Identity, FindError>)
  {
    var (cleaned, r, queried) := Look(db, cache, hash, now, f);
    (if queried && r.Ok? && !fillFails then cleaned[hash := Entry(r.value, now)] else cleaned, r)
  }

  class RedisApiKeyStore {
    const postgres: PostgresApiKeyStore
    var cache: Cache

    constructor (postgres: PostgresApiKeyStore)
      ensures this.postgres == postgres && cache == map[]
    {
      this.postgres := postgres;
      cache := map[];
    }

    method FindActiveByHash(hash: string, now: nat, f: Faults, fillFails: bool) returns (r: Result<Identity, FindError>)
      modifies this
      ensures (cache, r) == Find(postgres.db, old(cache), hash, now, f, fillFails)
    {
      var data: Option<Identity> := None;
      if !f.get {
        data := CacheGet(cache, hash, now);
      }
      if data.Some? {
        var p := data.value;
        if p.expires.Some? && now > p.expires.value {
          if !f.del {
            cache := cache - {hash};
          }
        } else {
          return Ok(p);
        }
      }
      r := postgres.FindActiveByHash(hash, now, f.query);
      if r.Err? {
        return;
      }
      var identity := r.value;
      var ttl: int := CACHE_TTL;
      if identity.expires.Some? {
        var remaining := identity.expires.value as int - now;
        if remaining < ttl {
          ttl := remaining;
        }
      }
      if !fillFails {
        cache := cache[hash := Cached(identity, if ttl > 0 then Some(now + ttl) else None)];
      }
    }

    method Revoke(keyId: string, hash: string, down: bool, delFails: bool) returns (ok: bool)
      modifies this, postgres
      ensures ok == !down
      ensures postgres.db == if down then old(postgres.db) else Revoked(old(postgres.db), keyId)
      ensures cache == if down || hash == "" || delFails then old(cache) else old(cache) - {hash}
    {
      ok := postgres.Revoke(keyId, down);
      if !ok {
        return;
      }
      if hash != "" && !delFails {
        cache := cache - {hash};
      }
    }
  }

  // ---------- Runs ----------

  /** What a lookup read, and when, that has yet to fill the cache. */
  datatype Waiting = Waiting(hash: string, identity: Identity, readAt: nat)

  datatype State = State(now: nat, db: Database, cache: Cache, waiting: seq<Waiting>)

  /**
   `SetAccount` stands for any change to an account: roles, tenant, activation. A delete or fill that fails
   does not happen; a lookup that never fills is one that waits for ever.
   */
  datatype Action =
    | Tick(delay: nat)
    | Save(hash: string, key: KeyRow)
    | SetAccount(id: string, account: ServiceAccount)
    | Read(hash: string, f: Faults)
    | Fill(i: nat, fails: bool)
    | Revoke(keyId: string)
    | Delete(hash: string)

  function Next(s: State, a: Action): State {
    match a
    case Tick(delay) => s.(now := s.now + delay)
    case Save(hash, key) =>
      if hash !in s.db.keys && key.account in s.db.accounts then s.(db := s.db.(keys := s.db.keys[hash := key])) else s
    case SetAccount(id, account) => s.(db := s.db.(accounts := s.db.accounts[id := account]))
    case Read(hash, f) =>
      var (cleaned, r, queried) := Look(s.db, s.cache, hash, s.now, f);
      s.(cache := cleaned, waiting := s.waiting + if queried && r.Ok? then [Waiting(hash, r.value, s.now)] else [])
    case Fill(i, fails) => if i < |s.waiting| then DoFill(s, i, fails) else s
    case Revoke(keyId) => s.(db := Revoked(s.db, keyId))
    case Delete(hash) => s.(cache := s.cache - {hash})
  }

  function DoFill(s: State, i: nat, fails: bool): State
    requires i < |s.waiting|
  {
    var w := s.waiting[i];
    s.(cache := if fails then s.cache else s.cache[w.hash := Entry(w.identity, s.now)],
       waiting := s.waiting[..i] + s.waiting[i + 1..])
  }

  function Run(s: State, actions: seq<Action>): State {
    if actions == [] then s else Next(Run(s, actions[..|actions| - 1]), actions[|actions| - 1])
  }

  function Initial(now: nat): State { State(now, Database(map[], map[]), map[], []) }

  /** A lookup that fills at once is the uninterrupted one. */
  lemma LookupIsTwoSteps(s: State, hash: string, f: Faults, fillFails: bool)
    ensures Next(Next(s, Read(hash, f)), Fill(|s.waiting|, fillFails))
         == s.(cache := Find(s.db, s.cache, hash, s.now, f, fillFails).0)
  {
    var s1 := Next(s, Read(hash, f));
    hide Look, Entry;
    if |s1.waiting| > |s.waiting| {
      assert s1.waiting[..|s.waiting|] + s1.waiting[|s.waiting| + 1..] == s.waiting;
    } else {
      assert s1.waiting == s.waiting;
    }
  }

  // ---------- What one lookup answers ----------

  /** The key can be used: it is there, unrevoked, not past its expiry, and its account is there and active. */
  predicate Usable(db: Database, hash: string, now: nat) {
    && hash in db.keys && !db.keys[hash].revoked
    && db.keys[hash].account in db.accounts && db.accounts[db.keys[hash].account].active
    && (db.keys[hash].expires.Some? ==> now <= db.keys[hash].expires.value)
  }

  /**
   The database returns an identity exactly for a usable key, with the key's and its account's data; a key that is
   past its expiry and otherwise usable is reported as expired, and any other as not found.
   */
  lemma TruthExact(db: Database, hash: string, now: nat)
    ensures var r := Truth(db, hash, now);
      && (r.Ok? <==> Usable(db, hash, now))
      && (r.Ok? ==>
            var (k, account) := (db.keys[hash], db.accounts[db.keys[hash].account]);
            r.value == Identity(k.id, k.account, account.tenant, account.roles, k.expires))
      && (r == Err(KeyExpired) <==>
            hash in db.keys && db.keys[hash].expires.Some? && now > db.keys[hash].expires.value
            && Usable(db.(keys := db.keys[hash := db.keys[hash].(expires := None)]), hash, now))
      && r != Err(Unavailable)
  {
  }

  /** Revoking by identifier makes exactly the keys with it unusable; no other answer changes. */
  lemma RevokedExact(db: Database, keyId: string, hash: string, now: nat)
    ensures hash in db.keys && db.keys[hash].id == keyId ==> Truth(Revoked(db, keyId), hash, now) == Err(KeyNotFound)
    ensures hash !in db.keys || db.keys[hash].id != keyId ==>
      Truth(Revoked(db, keyId), hash, now) == Truth(db, hash, now)
  {
  }

  /** The cache has an entry that has not run out, and whose key is not past its expiry. */
  predicate Hit(cache: Cache, hash: string, now: nat) {
    && hash in cache && (cache[hash].deadline.Some? ==> now < cache[hash].deadline.value)
    && (cache[hash].identity.expires.Some? ==> now <= cache[hash].identity.expires.value)
  }

  /**
   A lookup is answered from the cache exactly if it can be read and has the key, and from the database otherwise. It
   fills the cache exactly with what the database returned, unless the fill fails, and removes at most an entry of
   its own key that it found expired.
   */
  lemma FindExact(db: Database, cache: Cache, hash: string, now: nat, f: Faults, fillFails: bool)
    ensures var (cache', r) := Find(db, cache, hash, now, f, fillFails);
      && (!f.get && Hit(cache, hash, now) ==> r == Ok(cache[hash].identity) && cache' == cache)
      && (f.get || !Hit(cache, hash, now) ==>
            && r == (if f.query then Err(Unavailable) else Truth(db, hash, now))
            && (forall h :: h != hash ==> (h in cache' <==> h in cache) && (h in cache ==> cache'[h] == cache[h]))
            && (r.Ok? && !fillFails ==> hash in cache' && cache'[hash].identity == r.value)
            && (r.Err? || fillFails ==>
                  if f.get || f.del || hash !in cache || (cache[hash].deadline.Some? && now >= cache[hash].deadline.value)
                  then cache' == cache else cache' == cache - {hash}))
  {
    hide Truth;
  }

  /**
   What a lookup fills in is served, whatever the database says by then, for five minutes or until the key expires,
   whichever is sooner.
   */
  lemma FilledServes(db: Database, cache: Cache, hash: string, now: nat, f: Faults, later: nat, db': Database)
    requires (f.get || !Hit(cache, hash, now)) && !f.query && Usable(db, hash, now) && now <= later
    requires db.keys[hash].expires.Some? ==> now < db.keys[hash].expires.value
    ensures var (cache', r) := Find(db, cache, hash, now, f, false);
      var expires := db.keys[hash].expires;
      Find(db', cache', hash, later, Faults(false, false, true), true).1 ==
        if later < now + 300_000 && (expires.Some? ==> later < expires.value) then r else Err(Unavailable)
  {
    TruthExact(db, hash, now);
    hide Truth;
  }

  // ---------- What a cached entry goes back to ----------

  /** What the database said of a key after the first n actions. */
  function TruthAt(start: State, actions: seq<Action>, n: nat, hash: string): Result<Identity, FindError>
    requires n <= |actions|
  {
    Truth(Run(start, actions[..n]).db, hash, Run(start, actions[..n]).now)
  }

  function NowAt(start: State, actions: seq<Action>, n: nat): nat
    requires n <= |actions|
  {
    Run(start, actions[..n]).now
  }

  /** A lookup read this after the first n actions. */
  predicate ReadAt(start: State, actions: seq<Action>, w: Waiting, n: nat) {
    n <= |actions| && TruthAt(start, actions, n, w.hash) == Ok(w.identity) && NowAt(start, actions, n) == w.readAt
  }

  /** The m-th action filled the cache with what a lookup read. */
  predicate FilledAt(start: State, actions: seq<Action>, w: Waiting, m: nat) {
    && m < |actions| && actions[m].Fill? && !actions[m].fails
    && actions[m].i < |Run(start, actions[..m]).waiting| && Run(start, actions[..m]).waiting[actions[m].i] == w
  }

  lemma PrefixSame(start: State, actions: seq<Action>, a: Action, n: nat)
    requires n <= |actions|
    ensures (actions + [a])[..n] == actions[..n]
  {
  }

  lemma RunLast(start: State, actions: seq<Action>, a: Action)
    ensures Run(start, actions + [a]) == Next(Run(start, actions), a)
    ensures (actions + [a])[..|actions|] == actions
  {
    hide Next;
    var all := actions + [a];
    assert all[..|all| - 1] == actions;
  }

  lemma LookAsksTruth(db: Database, cache: Cache, hash: string, now: nat, f: Faults)
    ensures var (_, r, queried) := Look(db, cache, hash, now, f); queried && r.Ok? ==> r == Truth(db, hash, now)
  {
    hide Truth;
  }

  /** A lookup waits after a step because it waited before it, or because it has just read. */
  lemma WaitingFrom(s: State, a: Action, i: nat)
    requires i < |Next(s, a).waiting|
    ensures var w := Next(s, a).waiting[i];
      (exists k :: 0 <= k < |s.waiting| && s.waiting[k] == w)
      || (Truth(s.db, w.hash, s.now) == Ok(w.identity) && w.readAt == s.now)
  {
    hide Truth, Entry, Look;
    var w := Next(s, a).waiting[i];
    match a
    case Fill(j, _) =>
      if j < |s.waiting| {
        assert s.waiting[if i < j then i else i + 1] == w;
      } else {
        assert s.waiting[i] == w;
      }
    case Read(hash, f) =>
      LookAsksTruth(s.db, s.cache, hash, s.now, f);
      if i < |s.waiting| {
        assert s.waiting[i] == w;
      }
    case _ =>
      assert s.waiting[i] == w;
  }

  lemma {:induction false} WaitingRead(start: State, actions: seq<Action>, i: nat) returns (n: nat)
    requires start.waiting == [] && i < |Run(start, actions).waiting|
    ensures ReadAt(start, actions, Run(start, actions).waiting[i], n)
    decreases |actions|
  {
    var before, a := actions[..|actions| - 1], actions[|actions| - 1];
    assert actions == before + [a];
    RunLast(start, before, a);
    var s, w := Run(start, before), Run(start, actions).waiting[i];
    WaitingFrom(s, a, i);
    hide Next, Truth, Run;
    if k :| 0 <= k < |s.waiting| && s.waiting[k] == w {
      n := WaitingRead(start, before, k);
      PrefixSame(start, before, a, n);
    } else {
      n := |before|;
    }
  }

  /** An entry is in the cache after a step because it was before it, or because the step filled it in. */
  lemma CachedFrom(s: State, a: Action, hash: string)
    ensures hash in Next(s, a).cache ==>
      || (hash in s.cache && s.cache[hash] == Next(s, a).cache[hash])
      || (a.Fill? && !a.fails && a.i < |s.waiting| && s.waiting[a.i].hash == hash
          && Next(s, a).cache[hash] == Entry(s.waiting[a.i].identity, s.now))
  {
    hide Truth, Entry;
  }

  /** Every cached entry was filled in at some moment, by a lookup that read it at an earlier one. */
  lemma {:induction false} CacheFilled(start: State, actions: seq<Action>, hash: string) returns (w: Waiting, n: nat, m: nat)
    requires start.cache == map[] && start.waiting == [] && hash in Run(start, actions).cache
    ensures n <= m && w.hash == hash && ReadAt(start, actions, w, n) && FilledAt(start, actions, w, m)
    ensures Run(start, actions).cache[hash] == Entry(w.identity, NowAt(start, actions, m))
    decreases |actions|
  {
    var before, a := actions[..|actions| - 1], actions[|actions| - 1];
    assert actions == before + [a];
    RunLast(start, before, a);
    var s := Run(start, before);
    CachedFrom(s, a, hash);
    hide Next, Truth, Run, Entry;
    if hash in s.cache && s.cache[hash] == Run(start, actions).cache[hash] {
      w, n, m := CacheFilled(start, before, hash);
      PrefixSame(start, before, a, n);
      PrefixSame(start, before, a, m);
    } else {
      w, m := s.waiting[a.i], |before|;
      n := WaitingRead(start, before, a.i);
      PrefixSame(start, before, a, n);
    }
  }

  lemma {:induction false} ClockForward(start: State, actions: seq<Action>, n: nat)
    requires n <= |actions|
    ensures NowAt(start, actions, n) <= Run(start, actions).now
    decreases |actions|
  {
    if n < |actions| {
      ClockForward(start, actions[..|actions| - 1], n);
      assert actions[..|actions| - 1][..n] == actions[..n];
      hide Look, Entry;
    } else {
      assert actions[..n] == actions;
    }
  }

  // ---------- How stale an answer can be ----------

  lemma EntryLives(identity: Identity, filled: nat, cache: Cache, hash: string, now: nat)
    requires hash in cache && cache[hash] == Entry(identity, filled) && filled <= now
    requires CacheGet(cache, hash, now).Some? && !Past(identity.expires, now)
    ensures now <= filled + CACHE_TTL && CacheGet(cache, hash, now) == Some(identity)
  {
  }

  /**
   Whatever fails and however lookups interleave: an identity that a lookup returns is not past its expiry, and
   it is either what the database says now, or what a lookup read from it at some moment and filled in at a
   later one, no more than five minutes ago.
   */
  lemma StalenessFromFill(start: nat, actions: seq<Action>, hash: string, f: Faults)
    ensures var s := Run(Initial(start), actions);
      var r := Look(s.db, s.cache, hash, s.now, f).1;
      r.Ok? ==>
        && !Past(r.value.expires, s.now)
        && (r == Truth(s.db, hash, s.now)
            || exists w: Waiting, n: nat, m: nat :: n <= m && w.hash == hash && w.identity == r.value
                 && ReadAt(Initial(start), actions, w, n) && FilledAt(Initial(start), actions, w, m)
                 && NowAt(Initial(start), actions, m) <= s.now <= NowAt(Initial(start), actions, m) + CACHE_TTL)
  {
    var s := Run(Initial(start), actions);
    var (_, r, queried) := Look(s.db, s.cache, hash, s.now, f);
    if r.Ok? && !queried {
      var w, n, m := CacheFilled(Initial(start), actions, hash);
      ClockForward(Initial(start), actions, m);
      hide Run, Truth;
      EntryLives(w.identity, NowAt(Initial(start), actions, m), s.cache, hash, s.now);
    }
  }

  /** Every fill comes at most so long after the read it belongs to. */
  ghost predicate FillsWithin(start: State, actions: seq<Action>, delay: nat) {
    forall w: Waiting, m: nat :: FilledAt(start, actions, w, m) ==> NowAt(start, actions, m) <= w.readAt + delay
  }

  /**
   If lookups fill the cache within some delay, an identity that a lookup returns is what the database would have
   returned at some moment of the run in the preceding five minutes and that delay.
   */
  lemma BoundedStaleness(start: nat, actions: seq<Action>, hash: string, f: Faults, delay: nat)
    requires FillsWithin(Initial(start), actions, delay)
    ensures var s := Run(Initial(start), actions);
      var r := Look(s.db, s.cache, hash, s.now, f).1;
      r.Ok? ==>
        && !Past(r.value.expires, s.now)
        && exists n :: 0 <= n <= |actions| && TruthAt(Initial(start), actions, n, hash) == r
             && NowAt(Initial(start), actions, n) <= s.now <= NowAt(Initial(start), actions, n) + delay + CACHE_TTL
  {
    StalenessFromFill(start, actions, hash, f);
    var s := Run(Initial(start), actions);
    assert actions[..|actions|] == actions;
    var r := Look(s.db, s.cache, hash, s.now, f).1;
    if r.Ok? && r != Truth(s.db, hash, s.now) {
      hide Run, Truth, Look;
      var w: Waiting, n: nat, m: nat :| n <= m && w.hash == hash && w.identity == r.value
        && ReadAt(Initial(start), actions, w, n) && FilledAt(Initial(start), actions, w, m)
        && NowAt(Initial(start), actions, m) <= s.now <= NowAt(Initial(start), actions, m) + CACHE_TTL;
      ClockForward(Initial(start), actions, n);
      assert TruthAt(Initial(start), actions, n, hash) == r;
    } else {
      assert TruthAt(Initial(start), actions, |actions|, hash) == Truth(s.db, hash, s.now);
    }
  }

  /** No lookup is interrupted: a fill directly follows the read it belongs to. */
  predicate DirectFills(start: State, actions: seq<Action>) {
    forall m :: 0 <= m < |actions| && actions[m].Fill? ==> DirectFill(start, actions, m)
  }

  predicate DirectFill(start: State, actions: seq<Action>, m: nat)
    requires m < |actions| && actions[m].Fill?
  {
    m > 0 && actions[m - 1].Read? && |Run(start, actions[..m - 1]).waiting| <= actions[m].i
  }

  /** What a direct fill puts into the cache is what the database says at that moment. */
  lemma DirectFillIsFresh(start: State, actions: seq<Action>, w: Waiting, m: nat)
    requires FilledAt(start, actions, w, m) && DirectFill(start, actions, m)
    ensures w.readAt == NowAt(start, actions, m) && TruthAt(start, actions, m, w.hash) == Ok(w.identity)
  {
    var read := actions[m - 1];
    assert actions[..m] == actions[..m - 1] + [read];
    RunLast(start, actions[..m - 1], read);
    hide Run, Truth, Entry;
  }

  /** With uninterrupted lookups there is no delay between read and fill. */
  lemma DirectIsPrompt(start: State, actions: seq<Action>)
    requires DirectFills(start, actions)
    ensures FillsWithin(start, actions, 0)
  {
    hide Run, Truth, DirectFill;
    forall w: Waiting, m: nat | FilledAt(start, actions, w, m) ensures NowAt(start, actions, m) <= w.readAt {
      DirectFillIsFresh(start, actions, w, m);
    }
  }

  /** With uninterrupted lookups an answer is what the database would have returned within the last five minutes. */
  lemma AtomicStaleness(start: nat, actions: seq<Action>, hash: string, f: Faults)
    requires DirectFills(Initial(start), actions)
    ensures var s := Run(Initial(start), actions);
      var r := Look(s.db, s.cache, hash, s.now, f).1;
      r.Ok? ==>
        && !Past(r.value.expires, s.now)
        && exists n :: 0 <= n <= |actions| && TruthAt(Initial(start), actions, n, hash) == r
             && NowAt(Initial(start), actions, n) <= s.now <= NowAt(Initial(start), actions, n) + CACHE_TTL
  {
    DirectIsPrompt(Initial(start), actions);
    hide DirectFills, FillsWithin, Run, Look;
    BoundedStaleness(start, actions, hash, f, 0);
  }

  // ---------- Revocation ----------

  predicate KeyRevoked(s: State, hash: string) { hash in s.db.keys && s.db.keys[hash].revoked }

  /** A lookup that read the key, before it expired and before it was revoked, is still to fill the cache. */
  predicate StillWaits(s: State, i: nat, hash: string) {
    i < |s.waiting| && s.waiting[i].hash == hash && !Past(s.waiting[i].identity.expires, s.now)
  }

  /** However the run goes on and whatever fails, every lookup of the key is refused. */
  ghost predicate RefusedFromNowOn(s: State, hash: string) {
    forall after: seq<Action>, f: Faults :: RefusedAfter(s, hash, after, f)
  }

  predicate RefusedAfter(s: State, hash: string, after: seq<Action>, f: Faults) {
    var t := Run(s, after);
    Look(t.db, t.cache, hash, t.now, f).1.Err?
  }

  /** Revoked, and neither cached nor about to be, save for what has expired. */
  ghost predicate Gone(s: State, hash: string) {
    && KeyRevoked(s, hash)
    && (hash in s.cache ==> Past(s.cache[hash].identity.expires, s.now))
    && forall i: nat :: !StillWaits(s, i, hash)
  }

  lemma KeyStaysRevoked(s: State, a: Action, hash: string)
    requires KeyRevoked(s, hash)
    ensures KeyRevoked(Next(s, a), hash)
  {
    hide Look;
  }

  lemma RevokedIsErr(s: State, hash: string)
    requires KeyRevoked(s, hash)
    ensures Truth(s.db, hash, s.now).Err?
  {
  }

  lemma GoneStays(s: State, a: Action, hash: string)
    requires Gone(s, hash)
    ensures Gone(Next(s, a), hash)
  {
    KeyStaysRevoked(s, a, hash);
    RevokedIsErr(s, hash);
    var s' := Next(s, a);
    CachedFrom(s, a, hash);
    assert s.now <= s'.now;
    forall i: nat ensures !StillWaits(s', i, hash) {
      if i < |s'.waiting| {
        WaitingFrom(s, a, i);
        hide Next, Truth;
        if k :| 0 <= k < |s.waiting| && s.waiting[k] == s'.waiting[i] {
          assert !StillWaits(s, k, hash);
        }
      }
    }
    if a.Fill? && a.i < |s.waiting| {
      assert !StillWaits(s, a.i, hash);
    }
  }

  lemma {:induction false} GoneForever(s: State, after: seq<Action>, hash: string)
    requires Gone(s, hash)
    ensures Gone(Run(s, after), hash)
  {
    hide Next, Gone;
    if after != [] {
      GoneForever(s, after[..|after| - 1], hash);
      GoneStays(Run(s, after[..|after| - 1]), after[|after| - 1], hash);
    }
  }

  lemma GoneIsRefused(s: State, hash: string, f: Faults)
    requires Gone(s, hash)
    ensures Look(s.db, s.cache, hash, s.now, f).1.Err?
  {
    RevokedIsErr(s, hash);
    hide Truth;
  }

  lemma RunOne(s: State, a: Action)
    ensures Run(s, [a]) == Next(s, a)
  {
    hide Next;
    assert [a][..|[a]| - 1] == [];
    assert Run(s, []) == s;
  }

  /** A fill that comes late is served at once. */
  lemma LateFillServes(s: State, i: nat, hash: string)
    requires StillWaits(s, i, hash)
    ensures var t := Next(s, Fill(i, false));
      Look(t.db, t.cache, hash, t.now, Faults(false, false, false)).1 == Ok(s.waiting[i].identity)
  {
  }

  /**
   Once a key is revoked and its cache entry deleted, in whatever state and with whatever lookups under way, the
   key is refused ever after exactly if no lookup that read it while it was good is still to fill the cache.
   */
  lemma RevokedForGoodIff(s: State, hash: string)
    requires KeyRevoked(s, hash)
    ensures var s' := Next(s, Delete(hash));
      RefusedFromNowOn(s', hash) <==> forall i: nat :: !StillWaits(s', i, hash)
  {
    var s' := Next(s, Delete(hash));
    KeyStaysRevoked(s, Delete(hash), hash);
    assert hash !in s'.cache;
    hide Next, Look, KeyRevoked;
    if forall i: nat :: !StillWaits(s', i, hash) {
      assert Gone(s', hash);
      hide Gone, StillWaits;
      forall after: seq<Action>, f: Faults ensures RefusedAfter(s', hash, after, f) {
        GoneForever(s', after, hash);
        GoneIsRefused(Run(s', after), hash, f);
      }
    } else {
      var i: nat :| StillWaits(s', i, hash);
      LateFillServes(s', i, hash);
      RunOne(s', Fill(i, false));
      hide StillWaits, Run;
      assert !RefusedAfter(s', hash, [Fill(i, false)], Faults(false, false, false));
    }
  }

  lemma {:induction false} RevokedStays(s: State, after: seq<Action>, hash: string)
    requires KeyRevoked(s, hash)
    ensures KeyRevoked(Run(s, after), hash)
  {
    hide Next, KeyRevoked;
    if after != [] {
      RevokedStays(s, after[..|after| - 1], hash);
      KeyStaysRevoked(Run(s, after[..|after| - 1]), after[|after| - 1], hash);
    }
  }

  lemma {:induction false} RunConcat(s: State, a: seq<Action>, b: seq<Action>)
    ensures Run(s, a + b) == Run(Run(s, a), b)
  {
    hide Next;
    if b == [] {
      assert a + b == a;
    } else {
      RunConcat(s, a, b[..|b| - 1]);
      assert (a + b)[..|a + b| - 1] == a + b[..|b| - 1];
    }
  }

  /** With uninterrupted lookups a revoked key that is not cached stays out of the cache. */
  lemma {:induction false} StaysUncached(s: State, after: seq<Action>, hash: string)
    requires KeyRevoked(s, hash) && hash !in s.cache && DirectFills(s, after)
    ensures hash !in Run(s, after).cache
  {
    if after != [] {
      var before, a := after[..|after| - 1], after[|after| - 1];
      assert forall m :: 0 <= m < |after| ==> after[..m] == before[..m];
      StaysUncached(s, before, hash);
      CachedFrom(Run(s, before), a, hash);
      hide Run, Next, KeyRevoked;
      if hash in Run(s, after).cache {
        var w := Run(s, before).waiting[a.i];
        DirectFillIsFresh(s, after, w, |before|);
        RevokedStays(s, before, hash);
        RevokedIsErr(Run(s, before), hash);
      }
    }
  }

  /**
   With uninterrupted lookups, a key that is revoked and whose cache entry is deleted is refused ever after,
   whatever lookups were under way and whatever fails.
   */
  lemma AtomicRevokedForGood(s: State, hash: string, after: seq<Action>, f: Faults)
    requires KeyRevoked(s, hash) && DirectFills(Next(s, Delete(hash)), after)
    ensures RefusedAfter(Next(s, Delete(hash)), hash, after, f)
  {
    var s' := Next(s, Delete(hash));
    KeyStaysRevoked(s, Delete(hash), hash);
    assert hash !in s'.cache;
    hide Next, DirectFills;
    StaysUncached(s', after, hash);
    RevokedStays(s', after, hash);
    RevokedIsErr(Run(s', after), hash);
    hide Run, KeyRevoked, Truth;
  }

  /** After a revocation the database has said nothing good of the key, so a good answer is from before it. */
  lemma GoodBefore(start: nat, before: seq<Action>, a: Action, after: seq<Action>, hash: string, n: nat)
    requires KeyRevoked(Next(Run(Initial(start), before), a), hash)
    requires n <= |before + [a] + after| && TruthAt(Initial(start), before + [a] + after, n, hash).Ok?
    ensures NowAt(Initial(start), before + [a] + after, n) <= Run(Initial(start), before).now
  {
    var all := before + [a] + after;
    if n <= |before| {
      assert all[..n] == before[..n];
      ClockForward(Initial(start), before, n);
    } else {
      var m := n - |before| - 1;
      assert all[..n] == before + [a] + after[..m];
      RunLast(Initial(start), before, a);
      RunConcat(Initial(start), before + [a], after[..m]);
      hide Run, Next, KeyRevoked, Truth;
      RevokedStays(Next(Run(Initial(start), before), a), after[..m], hash);
      RevokedIsErr(Run(Next(Run(Initial(start), before), a), after[..m]), hash);
    }
  }

  /**
   Even if the cache delete fails, the key is gone five minutes after the revocation, and the delay with which
   lookups fill the cache.
   */
  lemma RevokedWithinTtl(start: nat, before: seq<Action>, keyId: string, hash: string, after: seq<Action>,
                         f: Faults, delay: nat)
    requires var s := Run(Initial(start), before); hash in s.db.keys && s.db.keys[hash].id == keyId
    requires FillsWithin(Initial(start), before + [Revoke(keyId)] + after, delay)
    requires Run(Initial(start), before + [Revoke(keyId)] + after).now > Run(Initial(start), before).now + delay + CACHE_TTL
    ensures var t := Run(Initial(start), before + [Revoke(keyId)] + after);
      Look(t.db, t.cache, hash, t.now, f).1.Err?
  {
    var all := before + [Revoke(keyId)] + after;
    var t := Run(Initial(start), all);
    assert KeyRevoked(Next(Run(Initial(start), before), Revoke(keyId)), hash);
    BoundedStaleness(start, all, hash, f, delay);
    hide Run, Next, KeyRevoked, Look, Truth, FillsWithin, TruthAt, NowAt;
    if Look(t.db, t.cache, hash, t.now, f).1.Ok? {
      var n :| 0 <= n <= |all| && TruthAt(Initial(start), all, n, hash) == Look(t.db, t.cache, hash, t.now, f).1
        && NowAt(Initial(start), all, n) <= t.now <= NowAt(Initial(start), all, n) + delay + CACHE_TTL;
      GoodBefore(start, before, Revoke(keyId), after, hash, n);
    }
  }

  /**
   For example: a lookup reads a key, the key is revoked and its cache entry deleted, and the lookup fills the
   cache. The key is served again although the database refuses it.
   */
  lemma LateFillRevives(start: nat, hash: string, key: KeyRow, account: ServiceAccount, f: Faults)
    requires account.active && !key.revoked && !Past(key.expires, start) && f == Faults(false, false, false)
    ensures var t := Run(Initial(start),
        [SetAccount(key.account, account), Save(hash, key), Read(hash, f), Revoke(key.id), Delete(hash), Fill(0, false)]);
      Look(t.db, t.cache, hash, t.now, f).1.Ok? && Truth(t.db, hash, t.now) == Err(KeyNotFound)
  {
    var start := Initial(start);
    var setup, race := [SetAccount(key.account, account), Save(hash, key)], [Read(hash, f), Revoke(key.id)];
    var late := [Delete(hash), Fill(0, false)];
    assert setup + race + late
      == [SetAccount(key.account, account), Save(hash, key), Read(hash, f), Revoke(key.id), Delete(hash), Fill(0, false)];
    RunConcat(start, setup + race, late);
    RunConcat(start, setup, race);
    RunTwo(start, SetAccount(key.account, account), Save(hash, key));
    var s2 := Run(start, setup);
    RunTwo(s2, Read(hash, f), Revoke(key.id));
    var s4 := Run(s2, race);
    RunTwo(s4, Delete(hash), Fill(0, false));
    hide Run;
    ReadThenRevoked(s2, hash, key, f);
    hide Next, Look, StillWaits;
    LateFillServes(Next(s4, Delete(hash)), 0, hash);
  }

  /** Between its read and its fill, a lookup waits with a key that is revoked meanwhile. */
  lemma ReadThenRevoked(s: State, hash: string, key: KeyRow, f: Faults)
    requires s.cache == map[] && s.waiting == [] && hash in s.db.keys && s.db.keys[hash] == key
    requires Truth(s.db, hash, s.now).Ok? && f == Faults(false, false, false)
    ensures var t := Next(Next(Next(s, Read(hash, f)), Revoke(key.id)), Delete(hash));
      var filled := Next(t, Fill(0, false));
      StillWaits(t, 0, hash) && |t.waiting| == 1 && Truth(filled.db, hash, filled.now) == Err(KeyNotFound)
  {
    var read := Next(s, Read(hash, f));
    assert read.waiting == [Waiting(hash, Truth(s.db, hash, s.now).value, s.now)] && read.db == s.db && read.now == s.now;
    hide Look, Entry;
  }

  lemma RunTwo(s: State, a: Action, b: Action)
    ensures Run(s, [a, b]) == Next(Next(s, a), b)
  {
    RunOne(s, a);
    RunLast(s, [a], b);
    assert [a] + [b] == [a, b];
  }
}
