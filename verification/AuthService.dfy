/** Refresh-token rotation over the Redis store: a token is good for one refresh, and for none once revoked. */
module AuthService {
  import opened Wrappers
  import opened TokenStore

  datatype RefreshError = InvalidToken | LookupFailed

  /** How reloading the token's user goes. */
  datatype UserLookup = Found | Missing | Failing

  /** A fresh token for a user, created now and valid for the whole TTL. */
  function NewToken(user: string, now: nat, ttl: nat): Token { Token(user, now, now + ttl) }

  function Issue(ttl: nat, s: State, hash: string, user: string): State {
    Next(ttl, s, Do(Save(hash, NewToken(user, s.now, ttl))))
  }

  /** Find, revoke, reload the user, issue: `user` says how the reload goes. */
  function DoRefresh(ttl: nat, s: State, hash: string, newHash: string, user: UserLookup)
    : (State, Result<Token, RefreshError>)
  {
    match RedisFind(s.entries, s.marks, hash, s.now)
    case Err(_) => (s, Err(InvalidToken))
    case Ok(token) =>
      var t := Next(ttl, s, Do(Revoke(hash)));
      if user == Missing then (t, Err(InvalidToken))
      else if user == Failing then (t, Err(LookupFailed))
      else (Issue(ttl, t, newHash, token.user), Ok(NewToken(token.user, s.now, ttl)))
  }

  class Service {
    const store: RedisTokenStore

    constructor (store: RedisTokenStore)
      ensures this.store == store
    {
      this.store := store;
    }

    ghost predicate Holds(s: State)
      reads store
    {
      store.entries == s.entries && store.marks == s.marks
    }

    method IssueTokenPair(user: string, newHash: string, now: nat, ghost s: State) returns (token: Token)
      requires Holds(s) && s.now == now && store.refreshTokenTTL > 0
      modifies store
      ensures Holds(Issue(store.refreshTokenTTL, s, newHash, user)) && token == NewToken(user, now, store.refreshTokenTTL)
    {
      token := Token(user, now, now + store.refreshTokenTTL);
      var _ := store.Save(newHash, token, now);
    }

    method Refresh(hash: string, newHash: string, user: UserLookup, now: nat, ghost s: State)
      returns (r: Result<Token, RefreshError>)
      requires Holds(s) && s.now == now && store.refreshTokenTTL > 0
      modifies store
      ensures Holds(DoRefresh(store.refreshTokenTTL, s, hash, newHash, user).0)
      ensures r == DoRefresh(store.refreshTokenTTL, s, hash, newHash, user).1
    {
      hide Unix;
      var rt := store.FindByHash(hash, now);
      if rt.Err? {
        return Err(InvalidToken);
      }
      store.Revoke(hash, now);
      if user == Missing {
        return Err(InvalidToken);
      }
      if user == Failing {
        return Err(LookupFailed);
      }
      var token := IssueTokenPair(rt.value.user, newHash, now, Next(store.refreshTokenTTL, s, Do(TokenStore.Revoke(hash))));
      r := Ok(token);
    }

    method Logout(hash: string, now: nat, ghost s: State)
      requires Holds(s) && s.now == now
      modifies store
      ensures Holds(Next(store.refreshTokenTTL, s, Do(TokenStore.Revoke(hash))))
    {
      store.Revoke(hash, now);
    }
  }

  // ---------- Sequences of requests ----------

  datatype Request =
    | Login(user: string, hash: string)
    | Refresh(hash: string, newHash: string, lookup: UserLookup)
    | Logout(hash: string)
    | RevokeUser(user: string)
    | Wait(delay: nat)

  /** The store, and the hashes presented to a refresh that accepted them, in order. */
  datatype World = World(store: State, used: seq<string>)

  /** New hashes are new; the server draws them at random. */
  predicate Unused(log: seq<Entry>, hash: string) { Issued(log, hash).None? }

  function Serve(ttl: nat, w: World, q: Request): World {
    match q
    case Login(user, hash) => if Unused(w.store.log, hash) then w.(store := Issue(ttl, w.store, hash, user)) else w
    case Refresh(hash, newHash, user) =>
      if !Unused(w.store.log, newHash) then w else
      World(DoRefresh(ttl, w.store, hash, newHash, user).0,
            if RedisFind(w.store.entries, w.store.marks, hash, w.store.now).Ok? then w.used + [hash] else w.used)
    case Logout(hash) => w.(store := Next(ttl, w.store, Do(TokenStore.Revoke(hash))))
    case RevokeUser(user) => w.(store := Next(ttl, w.store, Do(RevokeAll(user))))
    case Wait(delay) => w.(store := Next(ttl, w.store, Tick(delay)))
  }

  function ServeAll(ttl: nat, w: World, requests: seq<Request>): World {
    if requests == [] then w else Serve(ttl, ServeAll(ttl, w, requests[..|requests| - 1]), requests[|requests| - 1])
  }

  /** Revoked for good: by itself, or with its user in a second after its creation. */
  predicate Dead(log: seq<Entry>, hash: string) {
    && Issued(log, hash).Some?
    && var token := Issued(log, hash).value.0;
       Revoked(log, hash) || RevokedAfter(log, token.user, Unix(token.created))
  }

  lemma DeadIsRefused(ttl: nat, s: State, hash: string)
    requires TokenStore.Inv(ttl, s) && Dead(s.log, hash)
    ensures RedisFind(s.entries, s.marks, hash, s.now).Err?
  {
    RedisMeaning(ttl, s, hash);
  }

  /** One store call on another hash, or a revocation of this one, leaves a dead token dead. */
  lemma CallKeepsDead(ttl: nat, s: State, a: Action, hash: string)
    requires Dead(s.log, hash) && (a.Do? && a.call.Save? ==> a.call.hash != hash)
    ensures Dead(Next(ttl, s, a).log, hash)
  {
    hide Unix;
    if a.Do? {
      LogLast(s.log, Entry(a.call, s.now));
    }
  }

  lemma ServeKeepsInv(ttl: nat, w: World, q: Request)
    requires TokenStore.Inv(ttl, w.store)
    ensures TokenStore.Inv(ttl, Serve(ttl, w, q).store)
  {
    hide Next, TokenStore.Inv, RedisFind;
    match q
    case Login(user, hash) => StepKeeps(ttl, w.store, Do(Save(hash, NewToken(user, w.store.now, ttl))));
    case Logout(hash) => StepKeeps(ttl, w.store, Do(TokenStore.Revoke(hash)));
    case RevokeUser(user) => StepKeeps(ttl, w.store, Do(RevokeAll(user)));
    case Wait(delay) => StepKeeps(ttl, w.store, Tick(delay));
    case Refresh(hash, newHash, user) =>
      var r := RedisFind(w.store.entries, w.store.marks, hash, w.store.now);
      if r.Ok? {
        var s := Next(ttl, w.store, Do(TokenStore.Revoke(hash)));
        StepKeeps(ttl, w.store, Do(TokenStore.Revoke(hash)));
        StepKeeps(ttl, s, Do(Save(newHash, NewToken(r.value.user, s.now, ttl))));
      }
  }

  lemma RevokedIsDead(ttl: nat, s: State, hash: string)
    requires Issued(s.log, hash).Some?
    ensures Dead(Next(ttl, s, Do(TokenStore.Revoke(hash))).log, hash)
  {
    hide Unix;
    LogLast(s.log, Entry(TokenStore.Revoke(hash), s.now));
  }

  lemma ServeKeepsDead(ttl: nat, w: World, q: Request, hash: string)
    requires Dead(w.store.log, hash)
    ensures Dead(Serve(ttl, w, q).store.log, hash)
  {
    hide Next, RedisFind;
    match q
    case Login(user, h) =>
      if Unused(w.store.log, h) {
        CallKeepsDead(ttl, w.store, Do(Save(h, NewToken(user, w.store.now, ttl))), hash);
      }
    case Logout(h) => CallKeepsDead(ttl, w.store, Do(TokenStore.Revoke(h)), hash);
    case RevokeUser(user) => CallKeepsDead(ttl, w.store, Do(RevokeAll(user)), hash);
    case Wait(delay) => CallKeepsDead(ttl, w.store, Tick(delay), hash);
    case Refresh(h, newHash, known) =>
      var r := RedisFind(w.store.entries, w.store.marks, h, w.store.now);
      if r.Ok? && Unused(w.store.log, newHash) {
        var s := Next(ttl, w.store, Do(TokenStore.Revoke(h)));
        CallKeepsDead(ttl, w.store, Do(TokenStore.Revoke(h)), hash);
        CallKeepsDead(ttl, s, Do(Save(newHash, NewToken(r.value.user, s.now, ttl))), hash);
      }
  }

  /** A refresh that accepts a token kills it. */
  lemma RefreshKills(ttl: nat, w: World, hash: string, newHash: string, user: UserLookup)
    requires TokenStore.Inv(ttl, w.store) && Unused(w.store.log, newHash)
    requires RedisFind(w.store.entries, w.store.marks, hash, w.store.now).Ok?
    ensures Dead(Serve(ttl, w, Refresh(hash, newHash, user)).store.log, hash)
  {
    RedisMeaning(ttl, w.store, hash);
    var s := Next(ttl, w.store, Do(TokenStore.Revoke(hash)));
    RevokedIsDead(ttl, w.store, hash);
    hide Next, Dead, RedisFind;
    var owner := RedisFind(w.store.entries, w.store.marks, hash, w.store.now).value.user;
    CallKeepsDead(ttl, s, Do(Save(newHash, NewToken(owner, s.now, ttl))), hash);
  }

  /** Every used hash is dead, and none was used twice. */
  ghost predicate UsedOnce(w: World) {
    && (forall i :: 0 <= i < |w.used| ==> Dead(w.store.log, w.used[i]))
    && (forall i, j :: 0 <= i < j < |w.used| ==> w.used[i] != w.used[j])
  }

  lemma ServeKeepsUsedOnce(ttl: nat, w: World, q: Request)
    requires TokenStore.Inv(ttl, w.store) && UsedOnce(w)
    ensures UsedOnce(Serve(ttl, w, q))
  {
    hide Dead, Next, RedisFind, TokenStore.Inv;
    var w' := Serve(ttl, w, q);
    forall i | 0 <= i < |w.used| ensures Dead(w'.store.log, w.used[i]) {
      ServeKeepsDead(ttl, w, q, w.used[i]);
    }
    if w'.used != w.used {
      RefreshKills(ttl, w, q.hash, q.newHash, q.lookup);
      forall i | 0 <= i < |w.used| ensures w.used[i] != q.hash {
        DeadIsRefused(ttl, w.store, w.used[i]);
      }
    }
  }

  /** Over any sequence of logins, refreshes, logouts and mass revocations, each refresh token is accepted at most once. */
  lemma {:induction false} SingleUse(ttl: nat, start: nat, requests: seq<Request>)
    ensures var w := ServeAll(ttl, World(Initial(start), []), requests);
      TokenStore.Inv(ttl, w.store) && UsedOnce(w)
  {
    if requests == [] {
      Reachable(ttl, start, []);
    } else {
      SingleUse(ttl, start, requests[..|requests| - 1]);
      hide TokenStore.Inv, UsedOnce, Serve;
      var w := ServeAll(ttl, World(Initial(start), []), requests[..|requests| - 1]);
      ServeKeepsInv(ttl, w, requests[|requests| - 1]);
      ServeKeepsUsedOnce(ttl, w, requests[|requests| - 1]);
    }
  }

  /** A token that was logged out, or revoked with its user in a later second, is refused ever after. */
  lemma {:induction false} RefusedForever(ttl: nat, w: World, requests: seq<Request>, hash: string)
    requires TokenStore.Inv(ttl, w.store) && Dead(w.store.log, hash)
    ensures var s := ServeAll(ttl, w, requests).store;
      TokenStore.Inv(ttl, s) && Dead(s.log, hash) && RedisFind(s.entries, s.marks, hash, s.now).Err?
  {
    hide Dead, Serve, TokenStore.Inv, RedisFind;
    if requests != [] {
      RefusedForever(ttl, w, requests[..|requests| - 1], hash);
      var w' := ServeAll(ttl, w, requests[..|requests| - 1]);
      ServeKeepsInv(ttl, w', requests[|requests| - 1]);
      ServeKeepsDead(ttl, w', requests[|requests| - 1], hash);
    }
    DeadIsRefused(ttl, ServeAll(ttl, w, requests).store, hash);
  }

  /** Logging a token out is final. */
  lemma LogoutIsFinal(ttl: nat, start: nat, before: seq<Request>, hash: string, after: seq<Request>)
    requires Issued(ServeAll(ttl, World(Initial(start), []), before).store.log, hash).Some?
    ensures var w := Serve(ttl, ServeAll(ttl, World(Initial(start), []), before), Logout(hash));
      var s := ServeAll(ttl, w, after).store;
      RedisFind(s.entries, s.marks, hash, s.now).Err?
  {
    SingleUse(ttl, start, before);
    hide Dead, TokenStore.Inv, RedisFind, Next;
    var w := ServeAll(ttl, World(Initial(start), []), before);
    RevokedIsDead(ttl, w.store, hash);
    ServeKeepsInv(ttl, w, Logout(hash));
    RefusedForever(ttl, Serve(ttl, w, Logout(hash)), after, hash);
  }

  // ---------- Refreshes at the same time ----------

  /** A refresh that has found its token and has not revoked it yet. */
  datatype Attempt = Attempt(hash: string, token: Token)

  datatype Busy = Busy(store: State, attempts: seq<Attempt>, used: seq<string>)

  /** A refresh finds its token in one step, and revokes it and issues the next in another. */
  datatype Step =
    | Other(q: Request)
    | Find(hash: string)
    | Conclude(i: nat, newHash: string, lookup: UserLookup)

  function Revoking(ttl: nat, s: State, a: Attempt, newHash: string, lookup: UserLookup): State {
    var t := Next(ttl, s, Do(TokenStore.Revoke(a.hash)));
    if lookup == Found then Issue(ttl, t, newHash, a.token.user) else t
  }

  function Take(ttl: nat, b: Busy, step: Step): Busy {
    match step
    case Other(q) => if q.Refresh? then b else b.(store := Serve(ttl, World(b.store, []), q).store)
    case Find(hash) =>
      (match RedisFind(b.store.entries, b.store.marks, hash, b.store.now)
       case Err(_) => b
       case Ok(token) => b.(attempts := b.attempts + [Attempt(hash, token)]))
    case Conclude(i, newHash, lookup) =>
      if i >= |b.attempts| || !Unused(b.store.log, newHash) then b
      else
        Busy(Revoking(ttl, b.store, b.attempts[i], newHash, lookup),
             b.attempts[..i] + b.attempts[i + 1..], b.used + [b.attempts[i].hash])
  }

  function TakeAll(ttl: nat, b: Busy, steps: seq<Step>): Busy {
    if steps == [] then b else Take(ttl, TakeAll(ttl, b, steps[..|steps| - 1]), steps[|steps| - 1])
  }

  /** Before anything happens. */
  function Idle(start: nat): Busy { Busy(Initial(start), [], []) }

  /** Without anything in between the two steps are the refresh. */
  lemma RefreshIsTwoSteps(ttl: nat, w: World, attempts: seq<Attempt>, hash: string, newHash: string, lookup: UserLookup)
    requires Unused(w.store.log, newHash)
    ensures Take(ttl, Take(ttl, Busy(w.store, attempts, w.used), Find(hash)), Conclude(|attempts|, newHash, lookup))
         == var w' := Serve(ttl, w, Refresh(hash, newHash, lookup)); Busy(w'.store, attempts, w'.used)
  {
    hide Next;
    var b := Busy(w.store, attempts, w.used);
    var found := RedisFind(w.store.entries, w.store.marks, hash, w.store.now);
    if found.Ok? {
      var more := attempts + [Attempt(hash, found.value)];
      assert more[..|attempts|] + more[|attempts| + 1..] == attempts;
    }
    hide RedisFind;
  }

  /** The token is still in the hands of a refresh that found it. */
  predicate InHand(b: Busy, hash: string) {
    exists i :: 0 <= i < |b.attempts| && b.attempts[i].hash == hash
  }

  /** No way to go on has the token accepted by one more refresh. */
  ghost predicate NeverUsedAgain(ttl: nat, b: Busy, hash: string) {
    forall steps :: UsedNoMore(ttl, b, hash, steps)
  }

  predicate UsedNoMore(ttl: nat, b: Busy, hash: string, steps: seq<Step>) {
    Uses(TakeAll(ttl, b, steps).used, hash) == Uses(b.used, hash)
  }

  function Uses(used: seq<string>, hash: string): nat {
    if used == [] then 0 else Uses(used[..|used| - 1], hash) + if used[|used| - 1] == hash then 1 else 0
  }

  lemma UsesLast(used: seq<string>, h: string, hash: string)
    ensures Uses(used + [h], hash) == Uses(used, hash) + if h == hash then 1 else 0
  {
    assert (used + [h])[..|used|] == used;
  }

  lemma RevokingKeeps(ttl: nat, s: State, a: Attempt, newHash: string, lookup: UserLookup)
    requires TokenStore.Inv(ttl, s)
    ensures TokenStore.Inv(ttl, Revoking(ttl, s, a, newHash, lookup))
  {
    hide Next, TokenStore.Inv;
    var t := Next(ttl, s, Do(TokenStore.Revoke(a.hash)));
    StepKeeps(ttl, s, Do(TokenStore.Revoke(a.hash)));
    StepKeeps(ttl, t, Do(Save(newHash, NewToken(a.token.user, t.now, ttl))));
  }

  lemma RevokingKeepsDead(ttl: nat, s: State, a: Attempt, newHash: string, lookup: UserLookup, hash: string)
    requires Dead(s.log, hash) && Unused(s.log, newHash)
    ensures Dead(Revoking(ttl, s, a, newHash, lookup).log, hash)
  {
    var t := Next(ttl, s, Do(TokenStore.Revoke(a.hash)));
    CallKeepsDead(ttl, s, Do(TokenStore.Revoke(a.hash)), hash);
    assert newHash != hash;
    hide Next, Dead;
    CallKeepsDead(ttl, t, Do(Save(newHash, NewToken(a.token.user, t.now, ttl))), hash);
  }

  /** A dead token that nobody has in hand. */
  ghost predicate Finished(ttl: nat, b: Busy, hash: string) {
    TokenStore.Inv(ttl, b.store) && Dead(b.store.log, hash) && !InHand(b, hash)
  }

  lemma TakeKeepsStore(ttl: nat, b: Busy, step: Step, hash: string)
    requires TokenStore.Inv(ttl, b.store) && Dead(b.store.log, hash)
    ensures TokenStore.Inv(ttl, Take(ttl, b, step).store) && Dead(Take(ttl, b, step).store.log, hash)
  {
    hide TokenStore.Inv, Dead, Serve, Revoking, RedisFind;
    match step
    case Other(q) =>
      ServeKeepsInv(ttl, World(b.store, []), q);
      ServeKeepsDead(ttl, World(b.store, []), q, hash);
    case Find(_) =>
    case Conclude(i, newHash, lookup) =>
      if i < |b.attempts| && Unused(b.store.log, newHash) {
        RevokingKeeps(ttl, b.store, b.attempts[i], newHash, lookup);
        RevokingKeepsDead(ttl, b.store, b.attempts[i], newHash, lookup, hash);
      }
  }

  lemma TakeKeepsFinished(ttl: nat, b: Busy, step: Step, hash: string)
    requires Finished(ttl, b, hash)
    ensures Finished(ttl, Take(ttl, b, step), hash) && Uses(Take(ttl, b, step).used, hash) == Uses(b.used, hash)
  {
    TakeKeepsStore(ttl, b, step, hash);
    DeadIsRefused(ttl, b.store, hash);
    hide TokenStore.Inv, Dead, Serve, Revoking, RedisFind;
    if step.Conclude? && step.i < |b.attempts| {
      UsesLast(b.used, b.attempts[step.i].hash, hash);
    }
    hide Uses;
  }

  lemma {:induction false} FinishedForever(ttl: nat, b: Busy, steps: seq<Step>, hash: string)
    requires Finished(ttl, b, hash)
    ensures Finished(ttl, TakeAll(ttl, b, steps), hash) && Uses(TakeAll(ttl, b, steps).used, hash) == Uses(b.used, hash)
  {
    hide Take, Finished;
    if steps != [] {
      FinishedForever(ttl, b, steps[..|steps| - 1], hash);
      TakeKeepsFinished(ttl, TakeAll(ttl, b, steps[..|steps| - 1]), steps[|steps| - 1], hash);
    }
  }

  /** A hash that no token was saved under: one that is longer than all of them. */
  function Longer(log: seq<Entry>): (hash: string) {
    if log == [] then "" else Longer(Init(log)) + if Last(log).call.Save? then Last(log).call.hash + "+" else ""
  }

  lemma {:induction false} LongerIsUnused(log: seq<Entry>, hash: string)
    requires |hash| >= |Longer(log)|
    ensures Unused(log, hash)
  {
    if log != [] {
      LongerIsUnused(Init(log), hash);
    }
  }

  lemma TakeOne(ttl: nat, b: Busy, step: Step)
    ensures TakeAll(ttl, b, [step]) == Take(ttl, b, step)
  {
    hide Take;
    assert [step][..|[step]| - 1] == [];
    assert TakeAll(ttl, b, []) == b;
  }

  lemma UsedAgainIff(ttl: nat, b: Busy, hash: string)
    requires TokenStore.Inv(ttl, b.store) && Dead(b.store.log, hash)
    ensures NeverUsedAgain(ttl, b, hash) <==> !InHand(b, hash)
  {
    hide Dead, TokenStore.Inv, Take, Revoking;
    if InHand(b, hash) {
      var i :| 0 <= i < |b.attempts| && b.attempts[i].hash == hash;
      var newHash := Longer(b.store.log);
      LongerIsUnused(b.store.log, newHash);
      TakeOne(ttl, b, Conclude(i, newHash, Missing));
      ConcludeUses(ttl, b, i, newHash);
      assert !UsedNoMore(ttl, b, hash, [Conclude(i, newHash, Missing)]);
    } else {
      hide InHand;
      forall steps ensures UsedNoMore(ttl, b, hash, steps) {
        FinishedForever(ttl, b, steps, hash);
      }
    }
  }

  lemma ConcludeUses(ttl: nat, b: Busy, i: nat, newHash: string)
    requires i < |b.attempts| && Unused(b.store.log, newHash)
    ensures var hash := b.attempts[i].hash;
      Uses(Take(ttl, b, Conclude(i, newHash, Missing)).used, hash) == Uses(b.used, hash) + 1
  {
    hide Revoking;
    UsesLast(b.used, b.attempts[i].hash, b.attempts[i].hash);
  }

  /** The invariant of the store holds after any steps. */
  lemma {:induction false} BusyReachable(ttl: nat, start: nat, steps: seq<Step>)
    ensures TokenStore.Inv(ttl, TakeAll(ttl, Idle(start), steps).store)
  {
    if steps == [] {
      Reachable(ttl, start, []);
    } else {
      BusyReachable(ttl, start, steps[..|steps| - 1]);
      var b, step := TakeAll(ttl, Idle(start), steps[..|steps| - 1]), steps[|steps| - 1];
      hide TokenStore.Inv, Serve, Revoking, RedisFind;
      match step
      case Other(q) => ServeKeepsInv(ttl, World(b.store, []), q);
      case Find(_) =>
      case Conclude(i, newHash, lookup) =>
        if i < |b.attempts| {
          RevokingKeeps(ttl, b.store, b.attempts[i], newHash, lookup);
        }
    }
  }

  /**
   Once a token is revoked, by a refresh, a logout or with its user, in whatever run, no refresh accepts it again
   whatever follows, exactly if no refresh that found it before is still under way.
   */
  lemma AcceptedAgainIff(ttl: nat, start: nat, steps: seq<Step>, hash: string)
    requires Dead(TakeAll(ttl, Idle(start), steps).store.log, hash)
    ensures var b := TakeAll(ttl, Idle(start), steps); NeverUsedAgain(ttl, b, hash) <==> !InHand(b, hash)
  {
    BusyReachable(ttl, start, steps);
    hide TakeAll, Dead;
    UsedAgainIff(ttl, TakeAll(ttl, Idle(start), steps), hash);
  }

  lemma {:induction false} TakeAllConcat(ttl: nat, b: Busy, x: seq<Step>, y: seq<Step>)
    ensures TakeAll(ttl, b, x + y) == TakeAll(ttl, TakeAll(ttl, b, x), y)
  {
    hide Take;
    if y == [] {
      assert x + y == x;
    } else {
      TakeAllConcat(ttl, b, x, y[..|y| - 1]);
      assert (x + y)[..|x + y| - 1] == x + y[..|y| - 1];
    }
  }

  lemma BothGoThrough(ttl: nat, b: Busy, hash: string, first: string, second: string)
    requires RedisFind(b.store.entries, b.store.marks, hash, b.store.now).Ok? && b.attempts == []
    requires Unused(b.store.log, first) && Unused(b.store.log, second) && first != second
    ensures TakeAll(ttl, b, [Find(hash), Find(hash), Conclude(0, first, Found), Conclude(0, second, Found)]).used
         == b.used + [hash, hash]
  {
    var token := RedisFind(b.store.entries, b.store.marks, hash, b.store.now).value;
    var b1 := Take(ttl, b, Find(hash));
    var b2 := Take(ttl, b1, Find(hash));
    assert b2.attempts == [Attempt(hash, token), Attempt(hash, token)] && b2.store == b.store;
    RevokingUses(ttl, b2.store, b2.attempts[0], first, second);
    hide Revoking, RedisFind;
    var b3 := Take(ttl, b2, Conclude(0, first, Found));
    var b4 := Take(ttl, b3, Conclude(0, second, Found));
    assert b4.used == b.used + [hash, hash];
    var steps := [Find(hash), Find(hash), Conclude(0, first, Found), Conclude(0, second, Found)];
    hide Take;
    TakeOne(ttl, b, Find(hash));
    assert steps[..1] == [Find(hash)];
    assert steps[..2][..1] == steps[..1] && TakeAll(ttl, b, steps[..2]) == b2;
    assert steps[..3][..2] == steps[..2] && TakeAll(ttl, b, steps[..3]) == b3;
    assert steps[..|steps| - 1] == steps[..3];
  }

  lemma LoginFinds(ttl: nat, start: nat, user: string, hash: string)
    requires ttl > 0
    ensures var b := Take(ttl, Idle(start), Other(Login(user, hash)));
      && RedisFind(b.store.entries, b.store.marks, hash, b.store.now).Ok? && b.attempts == [] && b.used == []
      && forall h :: h != hash ==> Unused(b.store.log, h)
  {
    var s := Initial(start);
    assert Unused(s.log, hash);
    forall h | h != hash ensures Unused(Issue(ttl, s, hash, user).log, h) {
      UnusedAfter(ttl, s, Save(hash, NewToken(user, start, ttl)), h);
    }
    hide Unused;
  }

  /** For example: two refreshes that both find a token after a login, before either revokes it, both go through. */
  lemma TwoAtOnce(ttl: nat, start: nat, user: string, hash: string, first: string, second: string)
    requires ttl > 0 && hash != first && hash != second && first != second
    ensures TakeAll(ttl, Idle(start), [Other(Login(user, hash)), Find(hash), Find(hash),
        Conclude(0, first, Found), Conclude(0, second, Found)]).used
      == [hash, hash]
  {
    var login := Other(Login(user, hash));
    var rest := [Find(hash), Find(hash), Conclude(0, first, Found), Conclude(0, second, Found)];
    LoginFinds(ttl, start, user, hash);
    hide Take, RedisFind, Unused, Idle;
    TakeOne(ttl, Idle(start), login);
    BothGoThrough(ttl, Take(ttl, Idle(start), login), hash, first, second);
    TakeAllConcat(ttl, Idle(start), [login], rest);
    assert [login] + rest == [login, Find(hash), Find(hash), Conclude(0, first, Found), Conclude(0, second, Found)];
    hide TakeAll;
  }

  lemma UnusedAfter(ttl: nat, s: State, call: Call, other: string)
    requires Unused(s.log, other) && (call.Save? ==> call.hash != other)
    ensures Unused(Next(ttl, s, Do(call)).log, other)
  {
    LogLast(s.log, Entry(call, s.now));
    hide MemRevoke, MemRevokeAll, RedisRevoke, RedisSave, Unix;
  }

  /** Issuing one token leaves the hash of another unused. */
  lemma RevokingUses(ttl: nat, s: State, a: Attempt, newHash: string, other: string)
    requires Unused(s.log, other) && other != newHash
    ensures Unused(Revoking(ttl, s, a, newHash, Found).log, other)
  {
    var t := Next(ttl, s, Do(TokenStore.Revoke(a.hash)));
    UnusedAfter(ttl, s, TokenStore.Revoke(a.hash), other);
    hide Next, Unused;
    UnusedAfter(ttl, t, Save(newHash, NewToken(a.token.user, t.now, ttl)), other);
  }

  // ---------- What one refresh does ----------

  /** The calls so far leave the token good: saved, not past its expiry, and revoked neither by itself nor with its user. */
  predicate Good(log: seq<Entry>, hash: string, now: nat) {
    && Issued(log, hash).Some?
    && var token := Issued(log, hash).value.0;
       now < token.expires && !TokenStore.Revoked(log, hash) && !RevokedAfter(log, token.user, token.created / 1_000_000_000)
  }

  lemma GoodIsFound(ttl: nat, s: State, hash: string)
    requires TokenStore.Inv(ttl, s)
    ensures Good(s.log, hash, s.now) <==> RedisFind(s.entries, s.marks, hash, s.now).Ok?
    ensures Good(s.log, hash, s.now) ==>
      RedisFind(s.entries, s.marks, hash, s.now) == Ok(Issued(s.log, hash).value.0)
  {
    RedisMeaning(ttl, s, hash);
    hide TokenStore.Inv, RedisFind;
  }

  /** Answers about a token that neither call touches. */
  lemma OthersStay(entries: Entries, marks: Marks, hash: string, newHash: string, token: Token, now: nat, other: string)
    requires other != hash && other != newHash
    ensures RedisFind(RedisSave(RedisRevoke(entries, hash, now), newHash, token, now).0, marks, other, now)
         == RedisFind(entries, marks, other, now)
    ensures RedisFind(RedisRevoke(entries, hash, now), marks, other, now) == RedisFind(entries, marks, other, now)
  {
    RedisRevokeExact(entries, marks, hash, now, other, now);
    hide Unix;
  }

  /**
   A refresh succeeds exactly if its token is good and its user is found. Then a new token of the same user, created
   now and good for one TTL, is found under the new hash. Whether or not the user is found, a good token is refused
   from then on; one that is not good is refused and nothing changes. No other token is affected.
   */
  lemma RefreshExact(ttl: nat, s: State, hash: string, newHash: string, user: UserLookup)
    requires TokenStore.Inv(ttl, s) && ttl > 0 && Unused(s.log, newHash)
    ensures var (s', r) := DoRefresh(ttl, s, hash, newHash, user);
      && (r.Ok? <==> Good(s.log, hash, s.now) && user == Found)
      && (r == Err(LookupFailed) <==> Good(s.log, hash, s.now) && user == Failing)
      && (!Good(s.log, hash, s.now) ==> s' == s)
      && (Good(s.log, hash, s.now) ==>
            s'.now == s.now && Dead(s'.log, hash) && RedisFind(s'.entries, s'.marks, hash, s.now).Err?)
      && (r.Ok? ==>
            && r.value == Token(Issued(s.log, hash).value.0.user, s.now, s.now + ttl)
            && RedisFind(s'.entries, s'.marks, newHash, s.now) == Ok(r.value))
      && forall h :: h != hash && h != newHash ==>
           RedisFind(s'.entries, s'.marks, h, s.now) == RedisFind(s.entries, s.marks, h, s.now)
  {
    GoodIsFound(ttl, s, hash);
    hide Good;
    var found := RedisFind(s.entries, s.marks, hash, s.now);
    if found.Ok? {
      var token := NewToken(found.value.user, s.now, ttl);
      var (s', r) := DoRefresh(ttl, s, hash, newHash, user);
      forall h | h != hash && h != newHash
        ensures RedisFind(s'.entries, s'.marks, h, s.now) == RedisFind(s.entries, s.marks, h, s.now)
      {
        OthersStay(s.entries, s.marks, hash, newHash, token, s.now, h);
        hide RedisFind, RedisRevoke, MemRevoke;
      }
      RefreshedIs(ttl, s, hash, newHash, user);
      hide RedisFind, Next;
    }
  }

  /** After a refresh that found its token: the old one is dead, and the new one, if there is one, is found. */
  lemma RefreshedIs(ttl: nat, s: State, hash: string, newHash: string, user: UserLookup)
    requires TokenStore.Inv(ttl, s) && ttl > 0 && Unused(s.log, newHash)
    requires RedisFind(s.entries, s.marks, hash, s.now).Ok?
    ensures var (s', r) := DoRefresh(ttl, s, hash, newHash, user);
      && s'.now == s.now && Dead(s'.log, hash) && RedisFind(s'.entries, s'.marks, hash, s.now).Err?
      && (user == Found ==> r.Ok? && RedisFind(s'.entries, s'.marks, newHash, s.now) == Ok(r.value))
  {
    RefreshKills(ttl, World(s, []), hash, newHash, user);
    ServeKeepsInv(ttl, World(s, []), Refresh(hash, newHash, user));
    var (s', r) := DoRefresh(ttl, s, hash, newHash, user);
    assert s' == Serve(ttl, World(s, []), Refresh(hash, newHash, user)).store;
    DeadIsRefused(ttl, s', hash);
    MarksArePast(ttl, s);
    hide TokenStore.Inv, Dead;
    if user == Found {
      IssuedIsFound(ttl, Next(ttl, s, Do(TokenStore.Revoke(hash))), newHash, r.value);
    }
    hide RedisFind;
  }

  lemma MarksArePast(ttl: nat, s: State)
    requires TokenStore.Inv(ttl, s)
    ensures forall u :: u in s.marks ==> s.marks[u].value <= s.now / 1_000_000_000
  {
    forall u | u in s.marks ensures s.marks[u].value <= s.now / 1_000_000_000 {
      assert MarkOk(ttl, s, u);
      UnixMonotone(LatestMark(s.log, u).value, s.now);
    }
  }

  /** A token issued now is found: no mark is from a later second. */
  lemma IssuedIsFound(ttl: nat, s: State, hash: string, token: Token)
    requires token.created == s.now && token.expires == s.now + ttl && ttl > 0
    requires forall u :: u in s.marks ==> s.marks[u].value <= s.now / 1_000_000_000
    ensures var s' := Next(ttl, s, Do(Save(hash, token)));
      RedisFind(s'.entries, s'.marks, hash, s.now) == Ok(token)
  {
  }
}
