/**
 Refresh tokens in Redis and in memory. Redis revokes a user's tokens lazily, by remembering when
 the user was revoked, and forgets entries on their deadlines; the memory store flags every token.
 Times are nanoseconds since the epoch.
 */
module TokenStore {
  import opened Wrappers
  import opened Redis

  const SECOND: nat := 1_000_000_000

  /** `time.Time.Unix()`. */
  function Unix(t: nat): nat { t / SECOND }

  lemma UnixMonotone(t: nat, u: nat)
    requires t <= u
    ensures Unix(t) <= Unix(u)
  {
  }

  datatype Token = Token(user: string, created: nat, expires: nat)

  datatype FindError = TokenNotFound | TokenRevoked | TokenExpired

  // ---------- The memory store ----------

  datatype Flagged = Flagged(token: Token, revoked: bool)

  type Memory = map<string, Flagged>

  function MemFind(mem: Memory, hash: string, now: nat): Result<Token, FindError> {
    if hash !in mem then Err(TokenNotFound)
    else if mem[hash].revoked then Err(TokenRevoked)
    else if now > mem[hash].token.expires then Err(TokenExpired)
    else Ok(mem[hash].token)
  }

  function MemRevoke(mem: Memory, hash: string): Memory {
    if hash in mem then mem[hash := mem[hash].(revoked := true)] else mem
  }

  function MemRevokeAll(mem: Memory, user: string): Memory {
    map h | h in mem :: if mem[h].token.user == user then mem[h].(revoked := true) else mem[h]
  }

  class MemoryTokenStore {
    var tokens: Memory

    constructor ()
      ensures tokens == map[]
    {
      tokens := map[];
    }

    method Save(hash: string, token: Token)
      modifies this
      ensures tokens == old(tokens)[hash := Flagged(token, false)]
    {
      tokens := tokens[hash := Flagged(token, false)];
    }

    method FindByHash(hash: string, now: nat) returns (r: Result<Token, FindError>)
      ensures r == MemFind(tokens, hash, now)
    {
      if hash !in tokens {
        return Err(TokenNotFound);
      }
      var rt := tokens[hash];
      if rt.revoked {
        return Err(TokenRevoked);
      }
      if now > rt.token.expires {
        return Err(TokenExpired);
      }
      r := Ok(rt.token);
    }

    method Revoke(hash: string)
      modifies this
      ensures tokens == MemRevoke(old(tokens), hash)
    {
      if hash in tokens {
        tokens := tokens[hash := tokens[hash].(revoked := true)];
      }
    }

    method RevokeAllForUser(user: string) returns (count: nat)
      modifies this
      ensures tokens == MemRevokeAll(old(tokens), user)
      ensures count == |set h | h in old(tokens) && old(tokens)[h].token.user == user && !old(tokens)[h].revoked|
    {
      count := 0;
      var todo := tokens.Keys;
      ghost var flagged: set<string> := {};
      while todo != {}
        invariant todo <= tokens.Keys == old(tokens).Keys
        invariant forall h :: h in todo ==> tokens[h] == old(tokens)[h]
        invariant forall h :: h in tokens && h !in todo ==> tokens[h] == MemRevokeAll(old(tokens), user)[h]
        invariant flagged == set h | h in old(tokens) && h !in todo && old(tokens)[h].token.user == user && !old(tokens)[h].revoked
        invariant count == |flagged|
        decreases todo
      {
        var h :| h in todo;
        todo := todo - {h};
        if tokens[h].token.user == user && !tokens[h].revoked {
          tokens := tokens[h := tokens[h].(revoked := true)];
          count := count + 1;
          flagged := flagged + {h};
        }
      }
      assert tokens == MemRevokeAll(old(tokens), user);
      assert flagged == set h | h in old(tokens) && old(tokens)[h].token.user == user && !old(tokens)[h].revoked;
    }
  }

  // ---------- The Redis store ----------

  type Entries = map<string, Timed<Flagged>>

  /** Per user, the second of the latest mass revocation. */
  type Marks = map<string, Timed<nat>>

  function RedisSave(entries: Entries, hash: string, token: Token, now: nat): (Entries, bool) {
    if token.expires <= now then (entries, false)
    else (entries[hash := Timed(Flagged(token, false), token.expires)], true)
  }

  function RedisFind(entries: Entries, marks: Marks, hash: string, now: nat): Result<Token, FindError> {
    match Get(entries, hash, now)
    case None => Err(TokenNotFound)
    case Some(payload) =>
      if payload.revoked then Err(TokenRevoked)
      else if now > payload.token.expires then Err(TokenExpired)
      else
        var revokedBefore := Get(marks, payload.token.user, now).GetOr(0);
        if revokedBefore > 0 && Unix(payload.token.created) < revokedBefore then Err(TokenRevoked)
        else Ok(payload.token)
  }

  function RedisRevoke(entries: Entries, hash: string, now: nat): Entries {
    match Get(entries, hash, now)
    case None => entries
    case Some(payload) =>
      if payload.token.expires <= now then entries - {hash}
      else entries[hash := Timed(payload.(revoked := true), payload.token.expires)]
  }

  class RedisTokenStore {
    var entries: Entries
    var marks: Marks
    const refreshTokenTTL: nat

    constructor (refreshTokenTTL: nat)
      ensures entries == map[] && marks == map[] && this.refreshTokenTTL == refreshTokenTTL
    {
      this.refreshTokenTTL := refreshTokenTTL;
      entries := map[];
      marks := map[];
    }

    method Save(hash: string, token: Token, now: nat) returns (ok: bool)
      modifies `entries
      ensures (entries, ok) == RedisSave(old(entries), hash, token, now)
    {
      if token.expires <= now {
        return false;
      }
      entries := entries[hash := Timed(Flagged(token, false), token.expires)];
      ok := true;
    }

    method FindByHash(hash: string, now: nat) returns (r: Result<Token, FindError>)
      ensures r == RedisFind(entries, marks, hash, now)
    {
      var data := Get(entries, hash, now);
      if data.None? {
        return Err(TokenNotFound);
      }
      var payload := data.value;
      if payload.revoked {
        return Err(TokenRevoked);
      }
      if now > payload.token.expires {
        return Err(TokenExpired);
      }
      var revokedBefore := Get(marks, payload.token.user, now).GetOr(0);
      if revokedBefore > 0 && Unix(payload.token.created) < revokedBefore {
        return Err(TokenRevoked);
      }
      r := Ok(payload.token);
    }

    method Revoke(hash: string, now: nat)
      modifies `entries
      ensures entries == RedisRevoke(old(entries), hash, now)
    {
      var data := Get(entries, hash, now);
      if data.Some? {
        var payload := data.value.(revoked := true);
        if payload.token.expires <= now {
          entries := entries - {hash};
        } else {
          entries := entries[hash := Timed(payload, payload.token.expires)];
        }
      }
    }

    method RevokeAllForUser(user: string, now: nat)
      modifies `marks
      ensures marks == old(marks)[user := Timed(Unix(now), now + refreshTokenTTL)]
    {
      marks := marks[user := Timed(Unix(now), now + refreshTokenTTL)];
    }
  }

  // ---------- Both stores under the same calls ----------

  datatype Call =
    | Save(hash: string, token: Token)
    | Revoke(hash: string)
    | RevokeAll(user: string)

  /** What was called, and when. */
  datatype Entry = Entry(call: Call, at: nat)

  datatype State = State(now: nat, mem: Memory, entries: Entries, marks: Marks, log: seq<Entry>)

  datatype Action = Tick(delay: nat) | Do(call: Call)

  /** Tokens are issued with `created` read from the clock and `expires` at most the TTL later. */
  predicate Issuable(now: nat, ttl: nat, token: Token) {
    token.created <= now < token.expires <= token.created + ttl
  }

  function Next(ttl: nat, s: State, a: Action): State {
    match a
    case Tick(delay) => s.(now := s.now + delay)
    case Do(call) =>
      (match call
       case Save(hash, token) =>
         if !Issuable(s.now, ttl, token) then s else
         s.(mem := s.mem[hash := Flagged(token, false)],
            entries := RedisSave(s.entries, hash, token, s.now).0,
            log := s.log + [Entry(call, s.now)])
       case Revoke(hash) =>
         s.(mem := MemRevoke(s.mem, hash),
            entries := RedisRevoke(s.entries, hash, s.now),
            log := s.log + [Entry(call, s.now)])
       case RevokeAll(user) =>
         s.(mem := MemRevokeAll(s.mem, user),
            marks := s.marks[user := Timed(Unix(s.now), s.now + ttl)],
            log := s.log + [Entry(call, s.now)]))
  }

  function Run(ttl: nat, s: State, actions: seq<Action>): State {
    if actions == [] then s else Next(ttl, Run(ttl, s, actions[..|actions| - 1]), actions[|actions| - 1])
  }

  function Initial(now: nat): State { State(now, map[], map[], map[], []) }

  // ---------- What the calls so far say about a token ----------

  function Last(log: seq<Entry>): Entry
    requires log != []
  {
    log[|log| - 1]
  }

  function Init(log: seq<Entry>): seq<Entry>
    requires log != []
    ensures |Init(log)| < |log|
  {
    log[..|log| - 1]
  }

  /** The latest token saved under the hash, and when. */
  function Issued(log: seq<Entry>, hash: string): Option<(Token, nat)> {
    if log == [] then None
    else if Last(log).call.Save? && Last(log).call.hash == hash then Some((Last(log).call.token, Last(log).at))
    else Issued(Init(log), hash)
  }

  /** The token itself was revoked after it was saved. */
  predicate Revoked(log: seq<Entry>, hash: string) {
    if log == [] || (Last(log).call.Save? && Last(log).call.hash == hash) then false
    else Last(log).call == Revoke(hash) || Revoked(Init(log), hash)
  }

  /** The user was revoked after the token was saved. */
  predicate MassRevoked(log: seq<Entry>, hash: string, user: string) {
    if log == [] || (Last(log).call.Save? && Last(log).call.hash == hash) then false
    else Last(log).call == RevokeAll(user) || MassRevoked(Init(log), hash, user)
  }

  /** The user was revoked, before or after the token was saved, in a later second than `second`. */
  predicate RevokedAfter(log: seq<Entry>, user: string, second: nat) {
    if log == [] then false
    else (Last(log).call == RevokeAll(user) && Unix(Last(log).at) > second) || RevokedAfter(Init(log), user, second)
  }

  /** The user was revoked after the token was saved, in the very second `second`. */
  predicate RevokedWithin(log: seq<Entry>, hash: string, user: string, second: nat) {
    if log == [] || (Last(log).call.Save? && Last(log).call.hash == hash) then false
    else (Last(log).call == RevokeAll(user) && Unix(Last(log).at) == second) || RevokedWithin(Init(log), hash, user, second)
  }

  /** When the user was revoked last. */
  function LatestMark(log: seq<Entry>, user: string): Option<nat> {
    if log == [] then None
    else if Last(log).call == RevokeAll(user) then Some(Last(log).at)
    else LatestMark(Init(log), user)
  }

  // ---------- The stores hold what the calls say ----------

  ghost predicate MemOk(s: State, hash: string) {
    match Issued(s.log, hash)
    case None => hash !in s.mem
    case Some((token, _)) =>
      hash in s.mem && s.mem[hash] == Flagged(token, Revoked(s.log, hash) || MassRevoked(s.log, hash, token.user))
  }

  ghost predicate RedisOk(s: State, hash: string) {
    match Issued(s.log, hash)
    case None => hash !in s.entries
    case Some((token, _)) =>
      && (s.now < token.expires ==>
            hash in s.entries && s.entries[hash] == Timed(Flagged(token, Revoked(s.log, hash)), token.expires))
      && (hash in s.entries ==> s.entries[hash].deadline == token.expires)
  }

  ghost predicate MarkOk(ttl: nat, s: State, user: string) {
    match LatestMark(s.log, user)
    case None => user !in s.marks
    case Some(at) => user in s.marks && s.marks[user] == Timed(Unix(at), at + ttl) && at <= s.now
  }

  ghost predicate IssuedOk(ttl: nat, s: State, hash: string) {
    match Issued(s.log, hash)
    case None => true
    case Some((token, at)) => at <= s.now && Issuable(at, ttl, token)
  }

  /** Entries stand in the order of their times. */
  predicate Sorted(log: seq<Entry>, now: nat) {
    log == [] || (Last(log).at <= now && Sorted(Init(log), Last(log).at))
  }

  ghost predicate HashOk(ttl: nat, s: State, hash: string) {
    MemOk(s, hash) && RedisOk(s, hash) && IssuedOk(ttl, s, hash)
  }

  ghost predicate Inv(ttl: nat, s: State) {
    && Sorted(s.log, s.now)
    && (forall hash :: HashOk(ttl, s, hash))
    && (forall user :: MarkOk(ttl, s, user))
  }

  lemma LogLast(log: seq<Entry>, e: Entry)
    ensures Last(log + [e]) == e && Init(log + [e]) == log
  {
  }

  lemma SaveKeeps(ttl: nat, s: State, saved: string, token: Token, hash: string)
    requires HashOk(ttl, s, hash) && Issuable(s.now, ttl, token)
    ensures HashOk(ttl, Next(ttl, s, Do(Save(saved, token))), hash)
  {
    LogLast(s.log, Entry(Save(saved, token), s.now));
  }

  lemma RevokeKeeps(ttl: nat, s: State, revoked: string, hash: string)
    requires HashOk(ttl, s, hash)
    ensures HashOk(ttl, Next(ttl, s, Do(Revoke(revoked))), hash)
  {
    hide MassRevoked;
    LogLast(s.log, Entry(Revoke(revoked), s.now));
    if Issued(s.log, hash).Some? {
      RevokeIsNotMass(s.log, Entry(Revoke(revoked), s.now), hash, Issued(s.log, hash).value.0.user);
    }
  }

  lemma RevokeIsNotMass(log: seq<Entry>, e: Entry, hash: string, user: string)
    requires e.call.Revoke?
    ensures MassRevoked(log + [e], hash, user) == MassRevoked(log, hash, user)
  {
    LogLast(log, e);
  }

  lemma RevokeAllKeeps(ttl: nat, s: State, user: string, hash: string)
    requires HashOk(ttl, s, hash)
    ensures HashOk(ttl, Next(ttl, s, Do(RevokeAll(user))), hash)
  {
    hide Unix;
    LogLast(s.log, Entry(RevokeAll(user), s.now));
  }

  lemma HashKeeps(ttl: nat, s: State, a: Action, hash: string)
    requires HashOk(ttl, s, hash)
    ensures HashOk(ttl, Next(ttl, s, a), hash)
  {
    match a
    case Tick(_) =>
    case Do(Save(saved, token)) =>
      if Issuable(s.now, ttl, token) {
        SaveKeeps(ttl, s, saved, token, hash);
      }
    case Do(Revoke(revoked)) => RevokeKeeps(ttl, s, revoked, hash);
    case Do(RevokeAll(user)) => RevokeAllKeeps(ttl, s, user, hash);
  }

  lemma SortedKeeps(ttl: nat, s: State, a: Action)
    requires Sorted(s.log, s.now)
    ensures Sorted(Next(ttl, s, a).log, Next(ttl, s, a).now)
  {
    if a.Do? {
      LogLast(s.log, Entry(a.call, s.now));
    }
  }

  lemma MarkLast(log: seq<Entry>, e: Entry, user: string)
    ensures LatestMark(log + [e], user) == if e.call == RevokeAll(user) then Some(e.at) else LatestMark(log, user)
  {
    LogLast(log, e);
  }

  lemma MarkKeeps(ttl: nat, s: State, a: Action, user: string)
    requires MarkOk(ttl, s, user)
    ensures MarkOk(ttl, Next(ttl, s, a), user)
  {
    if a.Do? {
      MarkLast(s.log, Entry(a.call, s.now), user);
    }
    hide Unix, LatestMark, MemRevoke, MemRevokeAll, RedisRevoke, RedisSave, Issuable;
  }

  lemma StepKeeps(ttl: nat, s: State, a: Action)
    requires Inv(ttl, s)
    ensures Inv(ttl, Next(ttl, s, a))
  {
    SortedKeeps(ttl, s, a);
    hide Next, HashOk, MarkOk;
    forall hash ensures HashOk(ttl, Next(ttl, s, a), hash) { HashKeeps(ttl, s, a, hash); }
    forall user ensures MarkOk(ttl, Next(ttl, s, a), user) { MarkKeeps(ttl, s, a, user); }
  }

  lemma {:induction false} Reachable(ttl: nat, start: nat, actions: seq<Action>)
    ensures Inv(ttl, Run(ttl, Initial(start), actions))
  {
    if actions != [] {
      Reachable(ttl, start, actions[..|actions| - 1]);
      StepKeeps(ttl, Run(ttl, Initial(start), actions[..|actions| - 1]), actions[|actions| - 1]);
    }
  }

  // ---------- What each store answers ----------

  /** Revocation takes effect at once on every token saved so far. */
  function EagerAnswer(log: seq<Entry>, hash: string, now: nat): Result<Token, FindError> {
    match Issued(log, hash)
    case None => Err(TokenNotFound)
    case Some(issued) =>
      var token := issued.0;
      if Revoked(log, hash) || MassRevoked(log, hash, token.user) then Err(TokenRevoked)
      else if now > token.expires then Err(TokenExpired)
      else Ok(token)
  }

  /** Mass revocation is by second, and an expired token is simply gone. */
  function LazyAnswer(log: seq<Entry>, hash: string, now: nat): Result<Token, FindError> {
    match Issued(log, hash)
    case None => Err(TokenNotFound)
    case Some(issued) =>
      var token := issued.0;
      if now >= token.expires then Err(TokenNotFound)
      else if Revoked(log, hash) || RevokedAfter(log, token.user, Unix(token.created)) then Err(TokenRevoked)
      else Ok(token)
  }

  lemma {:induction false} MarkIsLatest(log: seq<Entry>, now: nat, user: string, second: nat)
    requires Sorted(log, now)
    ensures LatestMark(log, user).Some? ==> LatestMark(log, user).value <= now
    ensures RevokedAfter(log, user, second) <==> LatestMark(log, user).Some? && Unix(LatestMark(log, user).value) > second
  {
    if log != [] {
      MarkIsLatest(Init(log), Last(log).at, user, second);
      if LatestMark(Init(log), user).Some? {
        UnixMonotone(LatestMark(Init(log), user).value, Last(log).at);
      }
      hide Unix;
    }
  }

  /** The memory store's answer, from the calls alone. */
  lemma MemMeaning(ttl: nat, s: State, hash: string)
    requires Inv(ttl, s)
    ensures MemFind(s.mem, hash, s.now) == EagerAnswer(s.log, hash, s.now)
  {
    assert HashOk(ttl, s, hash);
  }

  /** A mark outlives every token it revokes: reading it as gone never revives one. */
  lemma MarkStillThere(ttl: nat, s: State, hash: string)
    requires Inv(ttl, s) && Issued(s.log, hash).Some?
    ensures var token := Issued(s.log, hash).value.0;
      s.now < token.expires ==>
        (RevokedAfter(s.log, token.user, Unix(token.created)) <==>
           Get(s.marks, token.user, s.now).GetOr(0) > Unix(token.created))
  {
    var token := Issued(s.log, hash).value.0;
    assert HashOk(ttl, s, hash) && MarkOk(ttl, s, token.user);
    MarkIsLatest(s.log, s.now, token.user, Unix(token.created));
    if s.now < token.expires && LatestMark(s.log, token.user).Some? {
      var at := LatestMark(s.log, token.user).value;
      if at <= token.created {
        UnixMonotone(at, token.created);
      }
    }
    hide Unix;
  }

  /** The Redis store's answer, from the calls alone. */
  lemma RedisMeaning(ttl: nat, s: State, hash: string)
    requires Inv(ttl, s)
    ensures RedisFind(s.entries, s.marks, hash, s.now) == LazyAnswer(s.log, hash, s.now)
  {
    hide Unix;
    assert HashOk(ttl, s, hash);
    if Issued(s.log, hash).Some? {
      MarkStillThere(ttl, s, hash);
    }
  }

  // ---------- Where the two can differ ----------

  lemma {:induction false} IssuedBefore(log: seq<Entry>, now: nat, hash: string)
    requires Sorted(log, now) && Issued(log, hash).Some?
    ensures Issued(log, hash).value.1 <= now
  {
    if Issued(Init(log), hash).Some? {
      IssuedBefore(Init(log), Last(log).at, hash);
    }
  }

  /** A mass revocation that came after the save but not in a later second came in that very second. */
  lemma {:induction false} MassOrWithin(log: seq<Entry>, now: nat, hash: string, user: string, second: nat)
    requires Sorted(log, now) && Issued(log, hash).Some? && second <= Unix(Issued(log, hash).value.1)
    requires MassRevoked(log, hash, user) && !RevokedAfter(log, user, second)
    ensures RevokedWithin(log, hash, user, second)
  {
    if Last(log).call == RevokeAll(user) {
      IssuedBefore(log, Last(log).at, hash);
      UnixMonotone(Issued(log, hash).value.1, Last(log).at);
    } else {
      MassOrWithin(Init(log), Last(log).at, hash, user, second);
    }
  }

  /** A revocation in a later second than the save came after the save. */
  lemma {:induction false} LaterIsMass(log: seq<Entry>, now: nat, hash: string, user: string)
    requires Sorted(log, now) && Issued(log, hash).Some?
    requires RevokedAfter(log, user, Unix(Issued(log, hash).value.1))
    ensures MassRevoked(log, hash, user)
  {
    if Last(log).call.Save? && Last(log).call.hash == hash {
      NoneAfter(Init(log), Last(log).at, user);
    } else if Last(log).call != RevokeAll(user) {
      LaterIsMass(Init(log), Last(log).at, hash, user);
    }
  }

  lemma NoneAfter(log: seq<Entry>, now: nat, user: string)
    requires Sorted(log, now)
    ensures !RevokedAfter(log, user, Unix(now))
  {
    MarkIsLatest(log, now, user, Unix(now));
    if LatestMark(log, user).Some? {
      UnixMonotone(LatestMark(log, user).value, now);
    }
  }

  /**
   Lazy revocation is safe: what the Redis store accepts the memory store accepts too, unless
   the user was revoked in the very second the token was created.
   */
  lemma LazyRefinesEager(ttl: nat, start: nat, actions: seq<Action>, hash: string)
    ensures var s := Run(ttl, Initial(start), actions);
      var r := RedisFind(s.entries, s.marks, hash, s.now);
      r.Ok? && !RevokedWithin(s.log, hash, r.value.user, Unix(r.value.created)) ==> MemFind(s.mem, hash, s.now) == r
  {
    Reachable(ttl, start, actions);
    hide Run;
    var s := Run(ttl, Initial(start), actions);
    RedisMeaning(ttl, s, hash);
    MemMeaning(ttl, s, hash);
    var r := RedisFind(s.entries, s.marks, hash, s.now);
    if r.Ok? && MassRevoked(s.log, hash, r.value.user) {
      assert HashOk(ttl, s, hash);
      UnixMonotone(r.value.created, Issued(s.log, hash).value.1);
      MassOrWithin(s.log, s.now, hash, r.value.user, Unix(r.value.created));
    }
  }

  /**
   And it is complete: before its expiry, a token saved at its creation that the memory store accepts is
   accepted by the Redis store.
   */
  lemma EagerRefinesLazy(ttl: nat, start: nat, actions: seq<Action>, hash: string)
    ensures var s := Run(ttl, Initial(start), actions);
      var r := MemFind(s.mem, hash, s.now);
      r.Ok? && s.now < r.value.expires && Issued(s.log, hash) == Some((r.value, r.value.created)) ==>
        RedisFind(s.entries, s.marks, hash, s.now) == r
  {
    Reachable(ttl, start, actions);
    hide Run;
    var s := Run(ttl, Initial(start), actions);
    RedisMeaning(ttl, s, hash);
    MemMeaning(ttl, s, hash);
    var r := MemFind(s.mem, hash, s.now);
    if r.Ok? && Issued(s.log, hash) == Some((r.value, r.value.created))
       && RevokedAfter(s.log, r.value.user, Unix(r.value.created)) {
      LaterIsMass(s.log, s.now, hash, r.value.user);
    }
  }

  /**
   Before a token's expiry the stores answer the same exactly if both or neither see a mass revocation, or
   it was revoked anyway.
   */
  lemma AgreeIff(ttl: nat, start: nat, actions: seq<Action>, hash: string)
    ensures var s := Run(ttl, Initial(start), actions);
      var issued := Issued(s.log, hash);
      issued.Some? && s.now < issued.value.0.expires ==>
        var token := issued.value.0;
        (RedisFind(s.entries, s.marks, hash, s.now) == MemFind(s.mem, hash, s.now) <==>
           Revoked(s.log, hash)
           || (MassRevoked(s.log, hash, token.user) <==> RevokedAfter(s.log, token.user, Unix(token.created))))
  {
    Reachable(ttl, start, actions);
    hide Run;
    var s := Run(ttl, Initial(start), actions);
    RedisMeaning(ttl, s, hash);
    MemMeaning(ttl, s, hash);
  }

  /**
   For a token saved at its creation, the calls tell when the stores agree before its expiry: exactly if it was
   revoked by itself, or with its user in a later second, or its user was not revoked since.
   */
  lemma AgreeAtCreationIff(ttl: nat, start: nat, actions: seq<Action>, hash: string)
    ensures var s := Run(ttl, Initial(start), actions);
      var issued := Issued(s.log, hash);
      issued.Some? && s.now < issued.value.0.expires && issued.value.0.created == issued.value.1 ==>
        var token := issued.value.0;
        (RedisFind(s.entries, s.marks, hash, s.now) == MemFind(s.mem, hash, s.now) <==>
           || Revoked(s.log, hash)
           || RevokedAfter(s.log, token.user, Unix(token.created))
           || !MassRevoked(s.log, hash, token.user))
  {
    AgreeIff(ttl, start, actions, hash);
    Reachable(ttl, start, actions);
    hide Run;
    var s := Run(ttl, Initial(start), actions);
    var issued := Issued(s.log, hash);
    if issued.Some? && issued.value.0.created == issued.value.1
       && RevokedAfter(s.log, issued.value.0.user, Unix(issued.value.0.created)) {
      LaterIsMass(s.log, s.now, hash, issued.value.0.user);
    }
  }

  /** A token revoked with its user in the second of its creation is still accepted by Redis. */
  lemma SameSecondSlips(ttl: nat, start: nat, hash: string, user: string)
    requires ttl > 0
    ensures var token := Token(user, start, start + ttl);
      var s := Run(ttl, Initial(start), [Do(Save(hash, token)), Do(RevokeAll(user))]);
      && RedisFind(s.entries, s.marks, hash, s.now) == Ok(token)
      && MemFind(s.mem, hash, s.now) == Err(TokenRevoked)
  {
    var token := Token(user, start, start + ttl);
    var save, mass := Do(Save(hash, token)), Do(RevokeAll(user));
    assert [save, mass][..1] == [save] && [save][..0] == [];
    hide Unix;
    var s := Next(ttl, Initial(start), save);
    assert Run(ttl, Initial(start), [save]) == s;
    assert Run(ttl, Initial(start), [save, mass]) == Next(ttl, s, mass);
  }

  // ---------- Each store on its own ----------

  /** An entry of the Redis store that has not run out. */
  predicate Live(entries: Entries, hash: string, now: nat) { hash in entries && now < entries[hash].deadline }

  /** The user's mark, while it lasts, is from a later second than the token. */
  predicate Marked(marks: Marks, token: Token, now: nat) {
    && token.user in marks && now < marks[token.user].deadline
    && marks[token.user].value > token.created / 1_000_000_000
  }

  /** Whatever is in the Redis store: a token is found exactly if its entry lives, unflagged, unexpired and unmarked. */
  lemma RedisFindExact(entries: Entries, marks: Marks, hash: string, now: nat)
    ensures var r := RedisFind(entries, marks, hash, now);
      && (r == Err(TokenNotFound) <==> !Live(entries, hash, now))
      && (Live(entries, hash, now) ==>
            var payload := entries[hash].value;
            && (r == Err(TokenExpired) <==> !payload.revoked && now > payload.token.expires)
            && (r == Err(TokenRevoked) <==>
                  payload.revoked || (now <= payload.token.expires && Marked(marks, payload.token, now)))
            && (r.Ok? ==> r.value == payload.token))
  {
  }

  /** Revoking a token in the Redis store refuses it at any later time and leaves every other answer as it was. */
  lemma RedisRevokeExact(entries: Entries, marks: Marks, hash: string, now: nat, other: string, later: nat)
    requires now <= later
    ensures RedisFind(RedisRevoke(entries, hash, now), marks, hash, later).Err?
    ensures other != hash ==>
      RedisFind(RedisRevoke(entries, hash, now), marks, other, later) == RedisFind(entries, marks, other, later)
  {
    hide Unix;
  }

  /** Saving a token in the Redis store makes it found until it expires, or is refused if it already has. */
  lemma RedisSaveExact(entries: Entries, hash: string, token: Token, now: nat, other: string, later: nat)
    requires now <= later
    ensures var (saved, ok) := RedisSave(entries, hash, token, now);
      && (ok <==> now < token.expires) && (!ok ==> saved == entries)
      && (ok ==> RedisFind(saved, map[], hash, later) == if later < token.expires then Ok(token) else Err(TokenNotFound))
      && (other != hash ==> RedisFind(saved, map[], other, later) == RedisFind(entries, map[], other, later))
  {
    hide Unix;
  }

  lemma SaveThenWait(ttl: nat, start: nat, hash: string, token: Token, delay: nat, user: string)
    ensures Run(ttl, Initial(start), [Do(Save(hash, token)), Tick(delay), Do(RevokeAll(user))])
         == Next(ttl, Next(ttl, Next(ttl, Initial(start), Do(Save(hash, token))), Tick(delay)), Do(RevokeAll(user)))
  {
    var actions := [Do(Save(hash, token)), Tick(delay), Do(RevokeAll(user))];
    assert actions[..2][..1] == [actions[0]] && [actions[0]][..0] == [];
    assert Run(ttl, Initial(start), []) == Initial(start);
    assert actions[..2][1] == actions[1];
    hide Next;
    assert Run(ttl, Initial(start), actions[..2][..1]) == Next(ttl, Initial(start), actions[0]);
    assert Run(ttl, Initial(start), actions[..2]) == Next(ttl, Next(ttl, Initial(start), actions[0]), actions[1]);
  }

  /**
   A token whose user is revoked a while after its creation is refused by the Redis store exactly if that is in a
   later second of the clock; the memory store refuses it in any case.
   */
  lemma MassRevocationBySecond(ttl: nat, start: nat, hash: string, user: string, delay: nat)
    requires delay < ttl
    ensures var token := Token(user, start, start + ttl);
      var s := Run(ttl, Initial(start), [Do(Save(hash, token)), Tick(delay), Do(RevokeAll(user))]);
      && (RedisFind(s.entries, s.marks, hash, s.now) == Ok(token) <==>
            (start + delay) / 1_000_000_000 == start / 1_000_000_000)
      && (RedisFind(s.entries, s.marks, hash, s.now).Err? <==>
            RedisFind(s.entries, s.marks, hash, s.now) == Err(TokenRevoked))
      && MemFind(s.mem, hash, s.now) == Err(TokenRevoked)
  {
    var token := Token(user, start, start + ttl);
    SaveThenWait(ttl, start, hash, token, delay, user);
    UnixMonotone(start, start + delay);
    hide Run;
    var s := Next(ttl, Initial(start), Do(Save(hash, token)));
    var s1 := Next(ttl, s, Tick(delay));
    assert s1.entries == map[hash := Timed(Flagged(token, false), start + ttl)] && s1.now == start + delay;
    assert s1.mem == map[hash := Flagged(token, false)];
    var s2 := Next(ttl, s1, Do(RevokeAll(user)));
    assert s2.marks == map[user := Timed((start + delay) / 1_000_000_000, start + delay + ttl)] && s2.entries == s1.entries;
    RedisFindExact(s2.entries, s2.marks, hash, s2.now);
    hide RedisFind;
  }
}
