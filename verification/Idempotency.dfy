/**
 The idempotency middleware over a Redis store: the first request of a scope runs the handler and stores
 its response, later ones replay it or are turned away while it runs. Times are in seconds.
 */
module Idempotency {
  import opened Wrappers
  import opened Redis
  import opened Strconv

  datatype Response = Response(code: int, body: string)

  // ---------- Recording a handler's response ----------

  datatype Op = WriteHeader(code: int) | Write(data: string)

  predicate Valid(code: int) { 100 <= code <= 999 }

  /** An informational status, which is sent ahead and leaves the response open. */
  predicate Early(code: int) { 100 <= code <= 199 && code != 101 }

  /** A final status whose response carries no body: what is written to it is dropped. */
  predicate Bodyless(code: int) { code == 101 || code == 204 || code == 304 }

  /** What the server makes of the calls on a response writer: the final response, once there is one. */
  datatype Wire = Unsent | Sent(r: Response) | Panicked

  function Send(w: Wire, op: Op): Wire {
    match w
    case Panicked => Panicked
    case Sent(r) => if op.Write? && !Bodyless(r.code) then Sent(r.(body := r.body + op.data)) else w
    case Unsent =>
      match op
      case WriteHeader(code) =>
        if Early(code) then Unsent else if Valid(code) then Sent(Response(code, "")) else Panicked
      case Write(data) => Sent(Response(200, data))
  }

  function SendAll(ops: seq<Op>): Wire {
    if ops == [] then Unsent else Send(SendAll(ops[..|ops| - 1]), ops[|ops| - 1])
  }

  /** The response the client gets; a handler that writes nothing answers 200. `None` is a panic. */
  function Delivered(ops: seq<Op>): Option<Response> {
    match SendAll(ops)
    case Unsent => Some(Response(200, ""))
    case Sent(r) => Some(r)
    case Panicked => None
  }

  datatype Recording = Recording(statusCode: int, body: string, written: bool)

  function Note(rec: Recording, op: Op): Recording {
    match op
    case WriteHeader(code) => if rec.written then rec else rec.(statusCode := code, written := true)
    case Write(data) =>
      Recording(if rec.written then rec.statusCode else 200, rec.body + data, true)
  }

  function Recorded(ops: seq<Op>): Recording {
    if ops == [] then Recording(0, "", false) else Note(Recorded(ops[..|ops| - 1]), ops[|ops| - 1])
  }

  /** What reaches the client when a status and a body are written out. */
  function Flushed(code: int, body: string): Option<Response> { Delivered([WriteHeader(code), Write(body)]) }

  class ResponseRecorder {
    var statusCode: int
    var body: string
    var written: bool

    constructor ()
      ensures Value() == Recorded([])
    {
      statusCode := 0;
      body := "";
      written := false;
    }

    ghost function Value(): Recording
      reads this
    {
      Recording(statusCode, body, written)
    }

    method WriteHeader(code: int)
      modifies this
      ensures Value() == Note(old(Value()), Op.WriteHeader(code))
    {
      if !written {
        statusCode := code;
        written := true;
      }
    }

    method Write(data: string)
      modifies this
      ensures Value() == Note(old(Value()), Op.Write(data))
    {
      if !written {
        statusCode := 200;
        written := true;
      }
      body := body + data;
    }

    /** A handler's calls, one after another. */
    method Serve(ops: seq<Op>)
      requires Value() == Recorded([])
      modifies this
      ensures Value() == Recorded(ops)
    {
      for i := 0 to |ops|
        invariant Value() == Recorded(ops[..i])
      {
        assert ops[..i + 1][..i] == ops[..i];
        match ops[i] {
          case WriteHeader(code) => WriteHeader(code);
          case Write(data) => Write(data);
        }
      }
      assert ops[..|ops|] == ops;
    }
  }

  /** The status and body that come of writing out a status and a body. */
  lemma FlushedIs(code: int, body: string)
    ensures Flushed(code, body) ==
      if !Valid(code) then None
      else if Early(code) then Some(Response(200, body))
      else Some(Response(code, if Bodyless(code) then "" else body))
  {
    var ops := [WriteHeader(code), Write(body)];
    assert ops[..1] == [WriteHeader(code)] && ops[..1][..0] == [];
    assert SendAll([]) == Unsent;
    assert SendAll(ops[..1]) == Send(Unsent, WriteHeader(code));
    assert "" + body == body;
  }

  /** The first status that is final; a write that comes before any sets 200. */
  function FirstFinal(ops: seq<Op>): Option<int> {
    if ops == [] then None
    else
      var before := FirstFinal(ops[..|ops| - 1]);
      if before.Some? then before
      else
        match ops[|ops| - 1]
        case WriteHeader(code) => if Early(code) then None else Some(code)
        case Write(_) => Some(200)
  }

  /** The wire goes by the first final status and the recording by the first status of all. */
  lemma {:induction false} RecordedIsSent(ops: seq<Op>)
    ensures var (rec, final) := (Recorded(ops), FirstFinal(ops));
      match SendAll(ops)
      case Unsent => final == None && rec.body == "" && (ops == [] || Early(rec.statusCode))
      case Sent(r) => final == Some(r.code) && Valid(r.code) && r.body == (if Bodyless(r.code) then "" else rec.body)
      case Panicked => final.Some? && !Valid(final.value)
    ensures var (rec, final) := (Recorded(ops), FirstFinal(ops));
      ops != [] ==> rec.written && (Early(rec.statusCode) || final == Some(rec.statusCode))
    ensures ops != [] ==> Recorded(ops).statusCode == if ops[0].WriteHeader? then ops[0].code else 200
    ensures FirstFinal(ops).Some? ==> !Early(FirstFinal(ops).value)
  {
    if ops != [] {
      RecordedIsSent(ops[..|ops| - 1]);
    }
  }

  /** A handler that sends an informational status first. */
  predicate OpensEarly(ops: seq<Op>) { ops != [] && ops[0].WriteHeader? && Early(ops[0].code) }

  /**
   Recording and flushing is transparent exactly when the handler writes something, and does not send an
   informational status first, or else ends up with 200, by itself or because it names no final status.
   */
  lemma TransparentIff(ops: seq<Op>)
    ensures Flushed(Recorded(ops).statusCode, Recorded(ops).body) == Delivered(ops) <==>
      ops != [] && (OpensEarly(ops) ==> FirstFinal(ops).GetOr(200) == 200)
  {
    RecordedIsSent(ops);
    FlushedIs(Recorded(ops).statusCode, Recorded(ops).body);
    assert ops == [] ==> SendAll(ops) == Unsent && Recorded(ops) == Recording(0, "", false);
    hide Recorded, Flushed, FirstFinal;
  }

  /** For example: a handler that sends early hints and then answers 404 is recorded with, and answers, 200. */
  lemma EarlyHintsLost(early: int, code: int)
    requires Early(early) && Valid(code) && !Early(code) && code != 200
    ensures var ops := [WriteHeader(early), WriteHeader(code)];
      Delivered(ops) == Some(Response(code, "")) &&
      Flushed(Recorded(ops).statusCode, Recorded(ops).body) == Some(Response(200, ""))
  {
    var ops := [WriteHeader(early), WriteHeader(code)];
    assert ops[..1] == [WriteHeader(early)] && ops[..1][..0] == [];
    assert SendAll([]) == Unsent && Recorded([]) == Recording(0, "", false);
    assert SendAll(ops[..1]) == Unsent && Recorded(ops[..1]) == Recording(early, "", true);
    FlushedIs(early, "");
  }

  /**
   Storing the response as it was delivered, which the model does, is as good as storing it as it was recorded,
   which the program does: both are of the same kind and are written out alike.
   */
  lemma StoredAlike(code: int, body: string)
    requires Flushed(code, body).Some?
    ensures var r := Flushed(code, body).value; Flushed(r.code, r.body) == Some(r) && (r.code >= 400 <==> code >= 400)
  {
    FlushedIs(code, body);
    FlushedIs(Flushed(code, body).value.code, Flushed(code, body).value.body);
    hide Flushed;
  }

  // ---------- The store ----------

  datatype Record = Processing | Completed(r: Response) | Failed(r: Response)

  type Store = map<string, Timed<Record>>

  datatype Acquired = Owner | Existing(r: Response) | InFlight

  /** The script: one atomic get-or-set. */
  function GetOrSet(store: Store, scope: string, now: nat, ttl: nat): (Store, Acquired) {
    match Get(store, scope, now)
    case None => (store[scope := Timed(Processing, now + ttl)], Owner)
    case Some(rec) => (store, if rec.Processing? then InFlight else Existing(rec.r))
  }

  function Overwrite(store: Store, scope: string, rec: Record, now: nat, ttl: nat): Store {
    store[scope := Timed(rec, now + ttl)]
  }

  function RecordOf(r: Response): Record { if r.code >= 400 then Failed(r) else Completed(r) }

  class RedisStore {
    var records: Store
    const ttl: nat

    constructor (ttl: nat)
      ensures records == map[] && this.ttl == ttl
    {
      this.ttl := ttl;
      records := map[];
    }

    method Acquire(scope: string, now: nat) returns (r: Acquired)
      modifies this
      ensures (records, r) == GetOrSet(old(records), scope, now, ttl)
    {
      var existing := Get(records, scope, now);
      if existing.None? {
        records := records[scope := Timed(Processing, now + ttl)];
        return Owner;
      }
      r := if existing.value.Processing? then InFlight else Existing(existing.value.r);
    }

    method Complete(scope: string, rec: Record, now: nat)
      modifies this
      ensures records == Overwrite(old(records), scope, rec, now, ttl)
    {
      records := records[scope := Timed(rec, now + ttl)];
    }
  }

  // ---------- The machine ----------

  datatype Answer = Fresh(r: Response) | Replay(r: Response) | Conflict | Unprotected(r: Response) | Aborted

  datatype Phase = Arrived | Owning | Degraded | Storing(r: Response) | Answered(a: Answer)

  /** `since` is when the request became the owner of its scope. */
  datatype Request = Request(scope: string, phase: Phase, since: Option<nat>)

  /** The handler ran for a request. */
  datatype State = State(now: nat, store: Store, reqs: seq<Request>, runs: seq<nat>)

  datatype Action =
    | Tick(delay: nat)
    | Arrive(scope: string)
    | TryAcquire(r: nat, fault: Fault)
    | Execute(r: nat, ops: seq<Op>, survives: bool)
    | Persist(r: nat, fault: Fault)
    | Crash(r: nat)

  datatype Config = Config(ttl: nat, maxBody: nat)

  function Set(s: State, r: nat, phase: Phase): State
    requires r < |s.reqs|
  {
    s.(reqs := s.reqs[r := s.reqs[r].(phase := phase)])
  }

  function DoAcquire(cfg: Config, s: State, r: nat, fault: Fault): State
    requires r < |s.reqs|
  {
    var (store, got) := GetOrSet(s.store, s.reqs[r].scope, s.now, cfg.ttl);
    match fault
    case Fails => Set(s, r, Degraded)
    case Lost => Set(s.(store := store), r, Degraded)
    case Fine =>
      (match got
       case InFlight => Set(s, r, Answered(Conflict))
       case Existing(resp) => Set(s, r, Answered(Replay(resp)))
       case Owner => s.(store := store, reqs := s.reqs[r := Request(s.reqs[r].scope, Owning, Some(s.now))]))
  }

  /** Run the handler. An owner's response is recorded, answered, and kept for storing unless it is too large. */
  function DoExecute(cfg: Config, s: State, r: nat, ops: seq<Op>, survives: bool): State
    requires r < |s.reqs|
  {
    var s' := s.(runs := s.runs + [r]);
    if !survives then Set(s', r, Answered(Aborted))
    else if s.reqs[r].phase == Degraded then
      (match Delivered(ops)
       case None => Set(s', r, Answered(Aborted))
       case Some(resp) => Set(s', r, Answered(Unprotected(resp))))
    else
      var rec := Recorded(ops);
      match Flushed(rec.statusCode, rec.body)
      case None => Set(s', r, Answered(Aborted))
      case Some(resp) => Set(s', r, if |rec.body| > cfg.maxBody then Answered(Fresh(resp)) else Storing(resp))
  }

  function DoPersist(cfg: Config, s: State, r: nat, fault: Fault): State
    requires r < |s.reqs| && s.reqs[r].phase.Storing?
  {
    var resp := s.reqs[r].phase.r;
    var stored := Overwrite(s.store, s.reqs[r].scope, RecordOf(resp), s.now, cfg.ttl);
    Set(if fault == Fails then s else s.(store := stored), r, Answered(Fresh(resp)))
  }

  predicate Enabled(s: State, a: Action) {
    match a
    case Tick(_) => true
    case Arrive(_) => true
    case TryAcquire(r, _) => r < |s.reqs| && s.reqs[r].phase == Arrived
    case Execute(r, _, _) => r < |s.reqs| && (s.reqs[r].phase == Owning || s.reqs[r].phase == Degraded)
    case Persist(r, _) => r < |s.reqs| && s.reqs[r].phase.Storing?
    case Crash(r) => r < |s.reqs| && (s.reqs[r].phase == Owning || s.reqs[r].phase == Degraded)
  }

  function Next(cfg: Config, s: State, a: Action): State {
    if !Enabled(s, a) then s else
    match a
    case Tick(delay) => s.(now := s.now + delay)
    case Arrive(scope) => s.(reqs := s.reqs + [Request(scope, Arrived, None)])
    case TryAcquire(r, fault) => DoAcquire(cfg, s, r, fault)
    case Execute(r, ops, survives) => DoExecute(cfg, s, r, ops, survives)
    case Persist(r, fault) => DoPersist(cfg, s, r, fault)
    case Crash(r) => Set(s, r, Answered(Aborted))
  }

  function Run(cfg: Config, s: State, actions: seq<Action>): State {
    if actions == [] then s else Next(cfg, Run(cfg, s, actions[..|actions| - 1]), actions[|actions| - 1])
  }

  function Initial(now: nat): State { State(now, map[], [], []) }

  // ---------- The invariant ----------

  /** Someone owned the scope and answered its client with this response. */
  ghost predicate AnsweredFresh(s: State, scope: string, resp: Response) {
    exists q :: 0 <= q < |s.reqs| && OwnAnswer(s.reqs[q], scope, resp)
  }

  predicate OwnAnswer(q: Request, scope: string, resp: Response) {
    q.scope == scope && q.since.Some? && q.phase == Answered(Fresh(resp))
  }

  /** While an owner's time lasts, the scope is taken in the store. */
  predicate OwnerOk(cfg: Config, start: nat, s: State, r: nat)
    requires r < |s.reqs|
  {
    s.reqs[r].since.Some? ==>
      var since := s.reqs[r].since.value;
      && start <= since <= s.now
      && (s.now < since + cfg.ttl ==> s.reqs[r].scope in s.store && s.store[s.reqs[r].scope].deadline >= since + cfg.ttl)
  }

  /** Who owns, who ran, and what a replay repeats. */
  ghost predicate PhaseOk(s: State, r: nat)
    requires r < |s.reqs|
  {
    var q := s.reqs[r];
    match q.phase
    case Arrived => q.since.None? && r !in s.runs
    case Owning => q.since.Some? && r !in s.runs
    case Degraded => q.since.None? && r !in s.runs
    case Storing(_) => q.since.Some?
    case Answered(Fresh(_)) => q.since.Some?
    case Answered(Replay(resp)) => q.since.None? && r !in s.runs && AnsweredFresh(s, q.scope, resp)
    case Answered(Conflict) => q.since.None? && r !in s.runs
    case Answered(Unprotected(_)) => q.since.None?
    case Answered(Aborted) => true
  }

  /** A stored response was some owner's answer, and is stored as failed exactly if its status is an error. */
  ghost predicate StoreOk(s: State, scope: string) {
    scope in s.store && !s.store[scope].value.Processing? ==>
      var rec := s.store[scope].value;
      AnsweredFresh(s, scope, rec.r) && (rec.Failed? <==> rec.r.code >= 400)
  }

  /** Two owners of one scope are at least the TTL apart. */
  ghost predicate Apart(cfg: Config, s: State) {
    forall q, r :: 0 <= q < |s.reqs| && 0 <= r < |s.reqs| && q != r && s.reqs[q].scope == s.reqs[r].scope ==>
      FarApart(cfg, s.reqs[q].since, s.reqs[r].since)
  }

  predicate FarApart(cfg: Config, a: Option<nat>, b: Option<nat>) {
    a.Some? && b.Some? ==> a.value + cfg.ttl <= b.value || b.value + cfg.ttl <= a.value
  }

  ghost predicate RunsOk(s: State) {
    && (forall i :: 0 <= i < |s.runs| ==> s.runs[i] < |s.reqs|)
    && (forall i, j :: 0 <= i < j < |s.runs| ==> s.runs[i] != s.runs[j])
  }

  ghost predicate Inv(cfg: Config, start: nat, s: State) {
    && start <= s.now
    && (forall r :: 0 <= r < |s.reqs| ==> OwnerOk(cfg, start, s, r) && PhaseOk(s, r))
    && (forall scope :: StoreOk(s, scope))
    && Apart(cfg, s) && RunsOk(s)
  }

  /** Only a request's phase changes, to one that keeps its answer if it had one. */
  lemma FreshStays(s: State, s': State, scope: string, resp: Response)
    requires AnsweredFresh(s, scope, resp) && |s.reqs| <= |s'.reqs|
    requires forall q :: 0 <= q < |s.reqs| && s.reqs[q].phase.Answered? ==> s'.reqs[q] == s.reqs[q]
    ensures AnsweredFresh(s', scope, resp)
  {
    var q :| 0 <= q < |s.reqs| && OwnAnswer(s.reqs[q], scope, resp);
    assert s'.reqs[q] == s.reqs[q];
  }

  /** A step of request `r` that leaves the store alone. */
  lemma SetKeeps(cfg: Config, start: nat, s: State, r: nat, phase: Phase, runs: seq<nat>)
    requires Inv(cfg, start, s) && r < |s.reqs| && !s.reqs[r].phase.Answered?
    requires runs == s.runs || (runs == s.runs + [r] && r !in s.runs)
    requires PhaseOk(Set(s.(runs := runs), r, phase), r)
    ensures Inv(cfg, start, Set(s.(runs := runs), r, phase))
  {
    var s' := Set(s.(runs := runs), r, phase);
    forall q | 0 <= q < |s'.reqs| ensures OwnerOk(cfg, start, s', q) && PhaseOk(s', q) {
      assert OwnerOk(cfg, start, s, q) && PhaseOk(s, q);
      if q != r && s.reqs[q].phase.Answered? && s.reqs[q].phase.a.Replay? {
        FreshStays(s, s', s.reqs[q].scope, s.reqs[q].phase.a.r);
      }
    }
    forall scope ensures StoreOk(s', scope) {
      assert StoreOk(s, scope);
      if scope in s.store && !s.store[scope].value.Processing? {
        FreshStays(s, s', scope, s.store[scope].value.r);
      }
    }
  }

  lemma ExecuteKeeps(cfg: Config, start: nat, s: State, r: nat, ops: seq<Op>, survives: bool)
    requires Inv(cfg, start, s) && Enabled(s, Execute(r, ops, survives))
    ensures Inv(cfg, start, Next(cfg, s, Execute(r, ops, survives)))
  {
    assert PhaseOk(s, r);
    hide Inv, Delivered, Recorded, Flushed;
    var s' := Next(cfg, s, Execute(r, ops, survives));
    SetKeeps(cfg, start, s, r, s'.reqs[r].phase, s.runs + [r]);
  }

  lemma GetOrSetKeeps(cfg: Config, start: nat, s: State, scope: string)
    requires Inv(cfg, start, s)
    ensures Inv(cfg, start, s.(store := GetOrSet(s.store, scope, s.now, cfg.ttl).0))
  {
    var s' := s.(store := GetOrSet(s.store, scope, s.now, cfg.ttl).0);
    hide AnsweredFresh;
    forall q | 0 <= q < |s'.reqs| ensures OwnerOk(cfg, start, s', q) && PhaseOk(s', q) {
      assert OwnerOk(cfg, start, s, q) && PhaseOk(s, q);
      if s.reqs[q].phase.Answered? && s.reqs[q].phase.a.Replay? {
        FreshStays(s, s', s.reqs[q].scope, s.reqs[q].phase.a.r);
      }
    }
    forall other ensures StoreOk(s', other) {
      assert StoreOk(s, other);
      if other in s.store && !s.store[other].value.Processing? {
        FreshStays(s, s', other, s.store[other].value.r);
      }
    }
  }

  /** A request becomes the owner of a scope that nobody has held for a TTL. */
  lemma OwnerKeeps(cfg: Config, start: nat, s: State, r: nat)
    requires Inv(cfg, start, s) && r < |s.reqs| && s.reqs[r].phase == Arrived && Get(s.store, s.reqs[r].scope, s.now).None?
    ensures Inv(cfg, start, Next(cfg, s, TryAcquire(r, Fine)))
  {
    GetOrSetKeeps(cfg, start, s, s.reqs[r].scope);
    var s1 := s.(store := GetOrSet(s.store, s.reqs[r].scope, s.now, cfg.ttl).0);
    assert PhaseOk(s, r);
    forall q | 0 <= q < |s.reqs| && s.reqs[q].scope == s.reqs[r].scope && s.reqs[q].since.Some?
      ensures s.reqs[q].since.value + cfg.ttl <= s.now
    {
      assert OwnerOk(cfg, start, s, q);
    }
    hide Get, GetOrSet, AnsweredFresh;
    BecomeOwner(cfg, start, s1, r);
  }

  lemma BecomeOwner(cfg: Config, start: nat, s: State, r: nat)
    requires Inv(cfg, start, s) && r < |s.reqs| && s.reqs[r].phase == Arrived
    requires s.reqs[r].scope in s.store && s.store[s.reqs[r].scope].deadline >= s.now + cfg.ttl
    requires forall q :: 0 <= q < |s.reqs| && s.reqs[q].scope == s.reqs[r].scope && s.reqs[q].since.Some? ==>
      s.reqs[q].since.value + cfg.ttl <= s.now
    ensures Inv(cfg, start, s.(reqs := s.reqs[r := Request(s.reqs[r].scope, Owning, Some(s.now))]))
  {
    var s' := s.(reqs := s.reqs[r := Request(s.reqs[r].scope, Owning, Some(s.now))]);
    hide AnsweredFresh;
    forall q | 0 <= q < |s'.reqs| ensures OwnerOk(cfg, start, s', q) && PhaseOk(s', q) {
      assert OwnerOk(cfg, start, s, q) && PhaseOk(s, q);
      if s.reqs[q].phase.Answered? && s.reqs[q].phase.a.Replay? {
        FreshStays(s, s', s.reqs[q].scope, s.reqs[q].phase.a.r);
      }
    }
    forall other ensures StoreOk(s', other) {
      assert StoreOk(s, other);
      if other in s.store && !s.store[other].value.Processing? {
        FreshStays(s, s', other, s.store[other].value.r);
      }
    }
  }

  lemma AcquireKeeps(cfg: Config, start: nat, s: State, r: nat, fault: Fault)
    requires Inv(cfg, start, s) && Enabled(s, TryAcquire(r, fault))
    ensures Inv(cfg, start, Next(cfg, s, TryAcquire(r, fault)))
  {
    var scope := s.reqs[r].scope;
    var s1 := s.(store := GetOrSet(s.store, scope, s.now, cfg.ttl).0);
    assert PhaseOk(s, r) && StoreOk(s, scope);
    if fault == Fine && Get(s.store, scope, s.now).None? {
      OwnerKeeps(cfg, start, s, r);
    } else {
      GetOrSetKeeps(cfg, start, s, scope);
      var phase := Next(cfg, s, TryAcquire(r, fault)).reqs[r].phase;
      hide Inv;
      var base := if fault == Lost then s1 else s;
      if phase.Answered? && phase.a.Replay? {
        FreshStays(s, Set(s, r, phase), scope, phase.a.r);
      }
      hide AnsweredFresh;
      SetKeeps(cfg, start, base, r, phase, base.runs);
    }
  }

  lemma PersistKeeps(cfg: Config, start: nat, s: State, r: nat, fault: Fault)
    requires Inv(cfg, start, s) && Enabled(s, Persist(r, fault))
    ensures Inv(cfg, start, Next(cfg, s, Persist(r, fault)))
  {
    var resp, scope := s.reqs[r].phase.r, s.reqs[r].scope;
    var s1 := Set(s, r, Answered(Fresh(resp)));
    assert PhaseOk(s, r);
    hide AnsweredFresh;
    SetKeeps(cfg, start, s, r, Answered(Fresh(resp)), s.runs);
    if fault != Fails {
      StoredKeeps(cfg, start, s1, r, resp);
    }
  }

  lemma StoredKeeps(cfg: Config, start: nat, s: State, r: nat, resp: Response)
    requires Inv(cfg, start, s) && r < |s.reqs| && s.reqs[r].since.Some? && s.reqs[r].phase == Answered(Fresh(resp))
    ensures Inv(cfg, start, s.(store := Overwrite(s.store, s.reqs[r].scope, RecordOf(resp), s.now, cfg.ttl)))
  {
    var s' := s.(store := Overwrite(s.store, s.reqs[r].scope, RecordOf(resp), s.now, cfg.ttl));
    assert AnsweredFresh(s, s.reqs[r].scope, resp);
    hide AnsweredFresh;
    forall q | 0 <= q < |s'.reqs| ensures OwnerOk(cfg, start, s', q) && PhaseOk(s', q) {
      assert OwnerOk(cfg, start, s, q) && PhaseOk(s, q);
      if s.reqs[q].phase.Answered? && s.reqs[q].phase.a.Replay? {
        FreshStays(s, s', s.reqs[q].scope, s.reqs[q].phase.a.r);
      }
    }
    FreshStays(s, s', s.reqs[r].scope, resp);
    forall other ensures StoreOk(s', other) {
      assert StoreOk(s, other);
      if other in s.store && !s.store[other].value.Processing? {
        FreshStays(s, s', other, s.store[other].value.r);
      }
    }
  }

  lemma ArriveKeeps(cfg: Config, start: nat, s: State, a: Action)
    requires Inv(cfg, start, s) && (a.Arrive? || a.Tick?)
    ensures Inv(cfg, start, Next(cfg, s, a))
  {
    var s' := Next(cfg, s, a);
    hide AnsweredFresh;
    forall q | 0 <= q < |s'.reqs| ensures OwnerOk(cfg, start, s', q) && PhaseOk(s', q) {
      if q < |s.reqs| {
        assert OwnerOk(cfg, start, s, q) && PhaseOk(s, q);
        if s.reqs[q].phase.Answered? && s.reqs[q].phase.a.Replay? {
          FreshStays(s, s', s.reqs[q].scope, s.reqs[q].phase.a.r);
        }
      }
    }
    forall other ensures StoreOk(s', other) {
      assert StoreOk(s, other);
      if other in s.store && !s.store[other].value.Processing? {
        FreshStays(s, s', other, s.store[other].value.r);
      }
    }
  }

  lemma NextKeeps(cfg: Config, start: nat, s: State, a: Action)
    requires Inv(cfg, start, s)
    ensures Inv(cfg, start, Next(cfg, s, a))
  {
    if Enabled(s, a) {
      hide Inv;
      match a
      case Tick(_) => ArriveKeeps(cfg, start, s, a);
      case Arrive(_) => ArriveKeeps(cfg, start, s, a);
      case TryAcquire(r, fault) => AcquireKeeps(cfg, start, s, r, fault);
      case Execute(r, ops, survives) => ExecuteKeeps(cfg, start, s, r, ops, survives);
      case Persist(r, fault) => PersistKeeps(cfg, start, s, r, fault);
      case Crash(r) => SetKeeps(cfg, start, s, r, Answered(Aborted), s.runs);
    }
  }

  lemma {:induction false} Reachable(cfg: Config, start: nat, actions: seq<Action>)
    ensures Inv(cfg, start, Run(cfg, Initial(start), actions))
  {
    hide Next;
    if actions != [] {
      Reachable(cfg, start, actions[..|actions| - 1]);
      NextKeeps(cfg, start, Run(cfg, Initial(start), actions[..|actions| - 1]), actions[|actions| - 1]);
    }
  }

  // ---------- What every run guarantees ----------

  /** Whatever the faults, a scope changes owner only after a full TTL. */
  lemma OwnersApart(cfg: Config, start: nat, actions: seq<Action>, q: nat, r: nat)
    requires var reqs := Run(cfg, Initial(start), actions).reqs;
      q < |reqs| && r < |reqs| && q != r && reqs[q].scope == reqs[r].scope
    ensures var reqs := Run(cfg, Initial(start), actions).reqs;
      FarApart(cfg, reqs[q].since, reqs[r].since)
  {
    Reachable(cfg, start, actions);
    hide Run, FarApart, OwnerOk, PhaseOk, StoreOk;
  }

  /** Every acquisition for the scope got an answer from the store. */
  ghost predicate Undegraded(s: State, scope: string) {
    forall r :: 0 <= r < |s.reqs| && s.reqs[r].scope == scope ==>
      match s.reqs[r].phase
      case Degraded => false
      case Answered(Unprotected(_)) => false
      case Answered(Aborted) => s.reqs[r].since.Some?
      case _ => true
  }

  lemma RunnerOwns(cfg: Config, start: nat, s: State, i: nat)
    requires Inv(cfg, start, s) && i < |s.runs| && s.runs[i] < |s.reqs| && Undegraded(s, s.reqs[s.runs[i]].scope)
    ensures s.reqs[s.runs[i]].since.Some?
  {
    var r := s.runs[i];
    assert r in s.runs && PhaseOk(s, r);
  }

  /** Within one TTL a scope has one owner. */
  lemma OneOwner(cfg: Config, start: nat, s: State, q: nat, r: nat)
    requires Inv(cfg, start, s) && s.now < start + cfg.ttl
    requires q < |s.reqs| && r < |s.reqs| && s.reqs[q].scope == s.reqs[r].scope
    requires s.reqs[q].since.Some? && s.reqs[r].since.Some?
    ensures q == r
  {
    assert OwnerOk(cfg, start, s, q) && OwnerOk(cfg, start, s, r);
  }

  /** With a store that answers every acquisition and a run shorter than the TTL, a scope's handler runs at most once. */
  lemma HandlerRunsOnce(cfg: Config, start: nat, actions: seq<Action>, i: nat, j: nat)
    requires var s := Run(cfg, Initial(start), actions);
      && s.now < start + cfg.ttl && i < |s.runs| && j < |s.runs|
      && s.runs[i] < |s.reqs| && s.runs[j] < |s.reqs| && s.reqs[s.runs[i]].scope == s.reqs[s.runs[j]].scope
      && Undegraded(s, s.reqs[s.runs[i]].scope)
    ensures i == j
  {
    Reachable(cfg, start, actions);
    hide Run;
    var s := Run(cfg, Initial(start), actions);
    RunnerOwns(cfg, start, s, i);
    RunnerOwns(cfg, start, s, j);
    OneOwner(cfg, start, s, s.runs[i], s.runs[j]);
    hide OwnerOk, PhaseOk, StoreOk, Apart, Undegraded;
  }

  /** The response an answer carries, when it is the scope's own or a copy of it. */
  function Carried(a: Answer): Option<Response> {
    match a
    case Fresh(r) => Some(r)
    case Replay(r) => Some(r)
    case _ => None
  }

  /** A replay, in any run, repeats the status and body some owner of the scope answered with. */
  lemma ReplayRepeats(cfg: Config, start: nat, actions: seq<Action>, r: nat, resp: Response)
    requires var s := Run(cfg, Initial(start), actions); r < |s.reqs| && s.reqs[r].phase == Answered(Replay(resp))
    ensures var s := Run(cfg, Initial(start), actions); AnsweredFresh(s, s.reqs[r].scope, resp)
  {
    Reachable(cfg, start, actions);
    hide Run;
    assert PhaseOk(Run(cfg, Initial(start), actions), r);
  }

  /** Within one TTL all answers of a scope that carry a response carry the same one. */
  lemma OneResponse(cfg: Config, start: nat, actions: seq<Action>, q: nat, r: nat)
    requires var s := Run(cfg, Initial(start), actions);
      && s.now < start + cfg.ttl && q < |s.reqs| && r < |s.reqs| && s.reqs[q].scope == s.reqs[r].scope
      && s.reqs[q].phase.Answered? && s.reqs[r].phase.Answered?
      && Carried(s.reqs[q].phase.a).Some? && Carried(s.reqs[r].phase.a).Some?
    ensures var s := Run(cfg, Initial(start), actions);
      Carried(s.reqs[q].phase.a) == Carried(s.reqs[r].phase.a)
  {
    Reachable(cfg, start, actions);
    hide Run;
    var s := Run(cfg, Initial(start), actions);
    var x := Origin(cfg, start, s, q);
    var y := Origin(cfg, start, s, r);
    OneOwner(cfg, start, s, x, y);
  }

  /** The owner whose response an answer carries. */
  lemma Origin(cfg: Config, start: nat, s: State, q: nat) returns (x: nat)
    requires Inv(cfg, start, s) && q < |s.reqs| && s.reqs[q].phase.Answered? && Carried(s.reqs[q].phase.a).Some?
    ensures x < |s.reqs| && s.reqs[x].scope == s.reqs[q].scope && s.reqs[x].since.Some?
    ensures s.reqs[x].phase == Answered(Fresh(Carried(s.reqs[q].phase.a).value))
  {
    assert PhaseOk(s, q);
    if s.reqs[q].phase.a.Fresh? {
      x := q;
    } else {
      var resp := s.reqs[q].phase.a.r;
      x :| 0 <= x < |s.reqs| && OwnAnswer(s.reqs[x], s.reqs[q].scope, resp);
    }
  }

  /** The response that gets stored: one that can be written out and is not too large. */
  function Storable(cfg: Config, ops: seq<Op>): Option<Response> {
    var rec := Recorded(ops);
    if |rec.body| > cfg.maxBody then None else Flushed(rec.statusCode, rec.body)
  }

  // ---------- What a retry is told ----------

  /** An owner that may still write to the scope. */
  predicate AtWork(s: State, x: nat, scope: string) {
    x < |s.reqs| && s.reqs[x].scope == scope && (s.reqs[x].phase == Owning || s.reqs[x].phase.Storing?)
  }

  /** What an acquisition is answered from a record that has not expired. */
  function AnswerFrom(rec: Record): Answer { if rec.Processing? then Conflict else Replay(rec.r) }

  /** The scope holds the record for some time, and no owner at work will write anything else. */
  ghost predicate Stands(cfg: Config, s: State, scope: string, rec: Record, until: nat) {
    && scope in s.store && s.store[scope].value == rec && until <= s.store[scope].deadline && until <= s.now + cfg.ttl
    && forall x: nat :: AtWork(s, x, scope) ==> s.reqs[x].phase.Storing? && RecordOf(s.reqs[x].phase.r) == rec
  }

  /** If, after `more`, request `q` asks for the scope in time, it is given this answer. */
  ghost predicate Given(cfg: Config, s: State, scope: string, until: nat, a: Answer, more: seq<Action>, q: nat) {
    var t := Run(cfg, s, more);
    q < |t.reqs| && t.reqs[q].scope == scope && t.reqs[q].phase == Arrived && t.now < until ==>
      Next(cfg, t, TryAcquire(q, Fine)).reqs[q].phase == Answered(a)
  }

  /** Whatever happens, every acquisition of the scope that the store answers in time is given this answer. */
  ghost predicate AlwaysGiven(cfg: Config, s: State, scope: string, until: nat, a: Answer) {
    forall more: seq<Action>, q: nat :: Given(cfg, s, scope, until, a, more, q)
  }

  lemma AcquireStands(cfg: Config, s: State, r: nat, fault: Fault, scope: string, rec: Record, until: nat)
    requires Stands(cfg, s, scope, rec, until) && s.now < until && Enabled(s, TryAcquire(r, fault))
    ensures Stands(cfg, Next(cfg, s, TryAcquire(r, fault)), scope, rec, until)
  {
    var s' := Next(cfg, s, TryAcquire(r, fault));
    forall x: nat | AtWork(s', x, scope) ensures s'.reqs[x].phase.Storing? && RecordOf(s'.reqs[x].phase.r) == rec {
      assert x != r ==> AtWork(s, x, scope);
    }
  }

  lemma ExecuteStands(cfg: Config, s: State, r: nat, ops: seq<Op>, survives: bool, scope: string, rec: Record, until: nat)
    requires Stands(cfg, s, scope, rec, until) && Enabled(s, Execute(r, ops, survives))
    ensures Stands(cfg, Next(cfg, s, Execute(r, ops, survives)), scope, rec, until)
  {
    hide Delivered, Recorded, Flushed, RecordOf;
    var s' := Next(cfg, s, Execute(r, ops, survives));
    forall x: nat | AtWork(s', x, scope) ensures s'.reqs[x].phase.Storing? && RecordOf(s'.reqs[x].phase.r) == rec {
      assert x != r ==> AtWork(s, x, scope);
    }
  }

  lemma PersistStands(cfg: Config, s: State, r: nat, fault: Fault, scope: string, rec: Record, until: nat)
    requires Stands(cfg, s, scope, rec, until) && Enabled(s, Persist(r, fault))
    ensures Stands(cfg, Next(cfg, s, Persist(r, fault)), scope, rec, until)
  {
    hide RecordOf;
    var s' := Next(cfg, s, Persist(r, fault));
    assert s.reqs[r].scope == scope ==> AtWork(s, r, scope);
    forall x: nat | AtWork(s', x, scope) ensures s'.reqs[x].phase.Storing? && RecordOf(s'.reqs[x].phase.r) == rec {
      assert AtWork(s, x, scope);
    }
  }

  lemma OtherStands(cfg: Config, s: State, a: Action, scope: string, rec: Record, until: nat)
    requires Stands(cfg, s, scope, rec, until) && (a.Tick? || a.Arrive? || a.Crash?)
    ensures Stands(cfg, Next(cfg, s, a), scope, rec, until)
  {
    hide RecordOf;
    var s' := Next(cfg, s, a);
    forall x: nat | AtWork(s', x, scope) ensures s'.reqs[x].phase.Storing? && RecordOf(s'.reqs[x].phase.r) == rec {
      assert AtWork(s, x, scope);
    }
  }

  lemma StepStands(cfg: Config, s: State, a: Action, scope: string, rec: Record, until: nat)
    requires Stands(cfg, s, scope, rec, until) && s.now < until
    ensures Stands(cfg, Next(cfg, s, a), scope, rec, until)
  {
    hide Stands;
    if Enabled(s, a) {
      match a
      case TryAcquire(r, fault) => AcquireStands(cfg, s, r, fault, scope, rec, until);
      case Execute(r, ops, survives) => ExecuteStands(cfg, s, r, ops, survives, scope, rec, until);
      case Persist(r, fault) => PersistStands(cfg, s, r, fault, scope, rec, until);
      case _ => OtherStands(cfg, s, a, scope, rec, until);
    }
  }

  lemma ClockForward(cfg: Config, s: State, a: Action)
    ensures s.now <= Next(cfg, s, a).now
  {
    hide Delivered, Recorded, Flushed, GetOrSet, Overwrite;
  }

  lemma {:induction false} RunStands(cfg: Config, s: State, more: seq<Action>, scope: string, rec: Record, until: nat)
    requires Stands(cfg, s, scope, rec, until) && Run(cfg, s, more).now < until
    ensures Stands(cfg, Run(cfg, s, more), scope, rec, until)
  {
    hide Next, Stands;
    if more != [] {
      ClockForward(cfg, Run(cfg, s, more[..|more| - 1]), more[|more| - 1]);
      RunStands(cfg, s, more[..|more| - 1], scope, rec, until);
      StepStands(cfg, Run(cfg, s, more[..|more| - 1]), more[|more| - 1], scope, rec, until);
    }
  }

  lemma StandsGives(cfg: Config, s: State, scope: string, rec: Record, until: nat)
    requires Stands(cfg, s, scope, rec, until)
    ensures AlwaysGiven(cfg, s, scope, until, AnswerFrom(rec))
  {
    forall more: seq<Action>, q: nat ensures Given(cfg, s, scope, until, AnswerFrom(rec), more, q) {
      if Run(cfg, s, more).now < until {
        RunStands(cfg, s, more, scope, rec, until);
      }
      hide Run;
    }
  }

  /** The next request for a scope is answered from what the scope holds. */
  lemma NextIsGiven(cfg: Config, s: State, scope: string, until: nat, a: Answer)
    requires AlwaysGiven(cfg, s, scope, until, a) && s.now < until && Get(s.store, scope, s.now).Some?
    ensures a == AnswerFrom(Get(s.store, scope, s.now).value)
  {
    var t := Next(cfg, s, Arrive(scope));
    RunOne(cfg, s, Arrive(scope));
    assert Given(cfg, s, scope, until, a, [Arrive(scope)], |s.reqs|);
    hide Run;
  }

  lemma RunOne(cfg: Config, s: State, a: Action)
    ensures Run(cfg, s, [a]) == Next(cfg, s, a)
  {
    hide Next;
    assert [a][..|[a]| - 1] == [];
    assert Run(cfg, s, []) == s;
  }

  lemma GivenLater(cfg: Config, s: State, first: seq<Action>, scope: string, until: nat, a: Answer)
    requires AlwaysGiven(cfg, s, scope, until, a)
    ensures AlwaysGiven(cfg, Run(cfg, s, first), scope, until, a)
  {
    forall more: seq<Action>, q: nat ensures Given(cfg, Run(cfg, s, first), scope, until, a, more, q) {
      RunConcat(cfg, s, first, more);
      assert Given(cfg, s, scope, until, a, first + more, q);
    }
  }

  /** An owner that is storing another response changes the answer. */
  lemma StoringDisturbs(cfg: Config, s: State, x: nat, scope: string, until: nat, a: Answer)
    requires AtWork(s, x, scope) && s.reqs[x].phase.Storing? && s.now < until <= s.now + cfg.ttl
    requires AlwaysGiven(cfg, s, scope, until, a)
    ensures a == Replay(s.reqs[x].phase.r)
  {
    GivenLater(cfg, s, [Persist(x, Fine)], scope, until, a);
    RunOne(cfg, s, Persist(x, Fine));
    hide Run, AlwaysGiven;
    NextIsGiven(cfg, Next(cfg, s, Persist(x, Fine)), scope, until, a);
  }

  /** An owner whose handler is still running may come to store any response. */
  lemma OwningDisturbs(cfg: Config, s: State, x: nat, scope: string, until: nat, a: Answer, code: int)
    requires AtWork(s, x, scope) && s.reqs[x].phase == Owning && s.now < until <= s.now + cfg.ttl
    requires AlwaysGiven(cfg, s, scope, until, a) && Valid(code) && !Early(code)
    ensures a == Replay(Response(code, ""))
  {
    var ops := [WriteHeader(code)];
    assert ops[..|ops| - 1] == [] && Recorded([]) == Recording(0, "", false);
    assert Recorded(ops) == Recording(code, "", true);
    FlushedIs(code, "");
    GivenLater(cfg, s, [Execute(x, ops, true)], scope, until, a);
    RunOne(cfg, s, Execute(x, ops, true));
    hide Run, AlwaysGiven, Recorded, Flushed, Delivered;
    StoringDisturbs(cfg, Next(cfg, s, Execute(x, ops, true)), x, scope, until, a);
  }

  /**
   As long as the record of a scope lasts, every acquisition is answered from it in every continuation, exactly
   if no owner is at work that could write anything else.
   */
  lemma StandsIff(cfg: Config, s: State, scope: string, until: nat)
    requires scope in s.store && s.now < until <= s.store[scope].deadline && until <= s.now + cfg.ttl
    requires var rec := s.store[scope].value; rec.Processing? || rec == RecordOf(rec.r)
    ensures var rec := s.store[scope].value;
      AlwaysGiven(cfg, s, scope, until, AnswerFrom(rec)) <==> Stands(cfg, s, scope, rec, until)
  {
    var rec := s.store[scope].value;
    if Stands(cfg, s, scope, rec, until) {
      StandsGives(cfg, s, scope, rec, until);
    }
    if AlwaysGiven(cfg, s, scope, until, AnswerFrom(rec)) {
      forall x: nat | AtWork(s, x, scope) ensures s.reqs[x].phase.Storing? && RecordOf(s.reqs[x].phase.r) == rec {
        hide AlwaysGiven;
        if s.reqs[x].phase.Storing? {
          StoringDisturbs(cfg, s, x, scope, until, AnswerFrom(rec));
        } else {
          OwningDisturbs(cfg, s, x, scope, until, AnswerFrom(rec), 200);
          OwningDisturbs(cfg, s, x, scope, until, AnswerFrom(rec), 201);
        }
      }
    }
  }

  /**
   Once an owner has stored its response, in whatever run, every acquisition of the scope within a TTL replays
   it, exactly if no other owner is still at work on the scope with another response, or with none yet.
   */
  lemma RetryReplays(cfg: Config, start: nat, actions: seq<Action>, r: nat, fault: Fault)
    requires cfg.ttl > 0 && Enabled(Run(cfg, Initial(start), actions), Persist(r, fault)) && fault != Fails
    ensures var s := Run(cfg, Initial(start), actions);
      var s' := Next(cfg, s, Persist(r, fault));
      var (scope, resp) := (s.reqs[r].scope, s.reqs[r].phase.r);
      AlwaysGiven(cfg, s', scope, s.now + cfg.ttl, Replay(resp)) <==>
        forall x: nat :: AtWork(s', x, scope) ==> s'.reqs[x].phase == Storing(resp)
  {
    hide Run;
    var s := Run(cfg, Initial(start), actions);
    var s' := Next(cfg, s, Persist(r, fault));
    hide AlwaysGiven;
    StandsIff(cfg, s', s.reqs[r].scope, s.now + cfg.ttl);
  }

  /**
   Once an owner's handler has ended without a response to store, because it wrote nothing, too much or an
   impossible status, or did not survive, every acquisition of the scope is refused with 409 until the owner's
   TTL ends, exactly if the scope is still marked as in progress and no other owner is at work on it.
   */
  lemma RetryConflicts(cfg: Config, start: nat, actions: seq<Action>, r: nat, ops: seq<Op>, survives: bool)
    requires var s := Run(cfg, Initial(start), actions);
      && Enabled(s, Execute(r, ops, survives)) && s.reqs[r].phase == Owning
      && (survives ==> Storable(cfg, ops).None?) && s.now < s.reqs[r].since.GetOr(0) + cfg.ttl
    ensures var s := Run(cfg, Initial(start), actions);
      var s' := Next(cfg, s, Execute(r, ops, survives));
      var scope := s.reqs[r].scope;
      AlwaysGiven(cfg, s', scope, s.reqs[r].since.GetOr(0) + cfg.ttl, Conflict) <==>
        Get(s'.store, scope, s'.now) == Some(Processing) && forall x: nat :: !AtWork(s', x, scope)
  {
    Reachable(cfg, start, actions);
    hide Run;
    var s := Run(cfg, Initial(start), actions);
    assert PhaseOk(s, r) && OwnerOk(cfg, start, s, r);
    var (scope, until) := (s.reqs[r].scope, s.reqs[r].since.value + cfg.ttl);
    hide Inv, Recorded, Flushed, Delivered;
    var s' := Next(cfg, s, Execute(r, ops, survives));
    assert s'.store == s.store && s'.now == s.now;
    hide AlwaysGiven, Next, PhaseOk, OwnerOk;
    if s'.store[scope].value.Processing? {
      StandsIff(cfg, s', scope, until);
      assert Stands(cfg, s', scope, Processing, until) <==> forall x: nat :: !AtWork(s', x, scope);
    } else if AlwaysGiven(cfg, s', scope, until, Conflict) {
      NextIsGiven(cfg, s', scope, until, Conflict);
    }
  }

  lemma {:induction false} RunConcat(cfg: Config, s: State, a: seq<Action>, b: seq<Action>)
    ensures Run(cfg, s, a + b) == Run(cfg, Run(cfg, s, a), b)
  {
    hide Next;
    if b == [] {
      assert a + b == a;
    } else {
      RunConcat(cfg, s, a, b[..|b| - 1]);
      assert (a + b)[..|a + b| - 1] == a + b[..|b| - 1];
    }
  }

  // ---------- The middleware, one request at a time ----------

  datatype HttpRequest = HttpRequest(verb: string, path: string, caller: Option<string>, key: string)

  datatype Served =
    | PassedThrough(r: Option<Response>)
    | MissingKey
    | KeyTooLong
    | Handled(a: Answer)

  predicate IsSafeMethod(m: string) { m == "GET" || m == "DELETE" || m == "HEAD" || m == "OPTIONS" }

  /** What is hashed into the scope; the hash is taken to be without collisions. */
  function ScopeKey(caller: string, m: string, path: string, key: string): string {
    caller + "|" + m + "|" + path + "|" + key
  }

  /** One request in the machine with nothing in between. */
  function Alone(cfg: Config, s: State, scope: string, ops: seq<Op>, survives: bool, acquire: Fault, complete: Fault): State {
    var r := |s.reqs|;
    var acquired := Next(cfg, Next(cfg, s, Arrive(scope)), TryAcquire(r, acquire));
    Next(cfg, Next(cfg, acquired, Execute(r, ops, survives)), Persist(r, complete))
  }

  /** The store and the answer after one request on its own. */
  predicate Ends(s: State, s': State, store: Store, a: Answer) {
    s'.store == store && |s'.reqs| == |s.reqs| + 1 && s'.reqs[|s.reqs|].phase == Answered(a)
  }

  lemma AloneDegraded(cfg: Config, s: State, scope: string, ops: seq<Op>, survives: bool, acquire: Fault, complete: Fault)
    requires acquire != Fine
    ensures Ends(s, Alone(cfg, s, scope, ops, survives, acquire, complete),
      if acquire == Fails then s.store else GetOrSet(s.store, scope, s.now, cfg.ttl).0,
      if survives && Delivered(ops).Some? then Unprotected(Delivered(ops).value) else Aborted)
  {
    hide Delivered, Recorded, Flushed, GetOrSet;
  }

  lemma AloneAnswered(cfg: Config, s: State, scope: string, ops: seq<Op>, survives: bool, complete: Fault)
    requires GetOrSet(s.store, scope, s.now, cfg.ttl).1 != Owner
    ensures Ends(s, Alone(cfg, s, scope, ops, survives, Fine, complete), s.store,
      match GetOrSet(s.store, scope, s.now, cfg.ttl).1
      case Existing(r) => Replay(r)
      case _ => Conflict)
  {
    hide Delivered, Recorded, Flushed;
  }

  lemma SameStore(store: Store, scope: string, now: nat, ttl: nat)
    requires GetOrSet(store, scope, now, ttl).1 != Owner
    ensures GetOrSet(store, scope, now, ttl).0 == store
  {
  }

  lemma AloneOwns(cfg: Config, s: State, scope: string, ops: seq<Op>, survives: bool, complete: Fault)
    requires GetOrSet(s.store, scope, s.now, cfg.ttl).1 == Owner
    ensures var store := GetOrSet(s.store, scope, s.now, cfg.ttl).0;
      var rec := Recorded(ops);
      var sent := Flushed(rec.statusCode, rec.body);
      Ends(s, Alone(cfg, s, scope, ops, survives, Fine, complete),
        if survives && Storable(cfg, ops).Some? && complete != Fails
        then Overwrite(store, scope, RecordOf(Storable(cfg, ops).value), s.now, cfg.ttl)
        else store,
        if survives && sent.Some? then Fresh(sent.value) else Aborted)
  {
    hide Delivered, Recorded, Flushed, GetOrSet;
  }

  class Middleware {
    const store: RedisStore
    const maxBody: nat

    constructor (store: RedisStore, maxBody: nat)
      ensures this.store == store && this.maxBody == maxBody
    {
      this.store := store;
      this.maxBody := maxBody;
    }

    ghost function Cfg(): Config { Config(store.ttl, maxBody) }

    /** Acquire, then replay, turn away, run unprotected, or run and store. */
    method Protect(scope: string, ops: seq<Op>, survives: bool, now: nat, acquire: Fault, complete: Fault, ghost s: State)
      returns (a: Answer)
      requires store.records == s.store && now == s.now
      modifies store
      ensures var s' := Alone(Cfg(), s, scope, ops, survives, acquire, complete);
        Ends(s, s', store.records, a)
    {
      hide Delivered, Recorded, Flushed, GetOrSet, Alone;
      if acquire != Fine {
        AloneDegraded(Cfg(), s, scope, ops, survives, acquire, complete);
      } else if GetOrSet(s.store, scope, now, store.ttl).1 == Owner {
        AloneOwns(Cfg(), s, scope, ops, survives, complete);
      } else {
        AloneAnswered(Cfg(), s, scope, ops, survives, complete);
        SameStore(s.store, scope, now, store.ttl);
      }
      hide Ends;
      var got := InFlight;
      if acquire != Fails {
        got := store.Acquire(scope, now);
      }
      if acquire != Fine {
        var sent := Delivered(ops);
        return if survives && sent.Some? then Unprotected(sent.value) else Aborted;
      }
      if got.InFlight? {
        return Conflict;
      }
      if got.Existing? {
        return Replay(got.r);
      }
      var rec := new ResponseRecorder();
      rec.Serve(ops);
      var flushed := Flushed(rec.statusCode, rec.body);
      if !survives || flushed.None? {
        return Aborted;
      }
      if |rec.body| <= maxBody && complete != Fails {
        store.Complete(scope, RecordOf(flushed.value), now);
      }
      a := Fresh(flushed.value);
    }

    /** Safe methods and human callers pass through; others need a key. */
    method Handle(q: HttpRequest, ops: seq<Op>, survives: bool, now: nat, acquire: Fault, complete: Fault, ghost s: State)
      returns (out: Served)
      requires store.records == s.store && now == s.now
      modifies store
      ensures var through := q.verb in {"GET", "DELETE", "HEAD", "OPTIONS"} || q.caller.None?;
        && (through ==> out == PassedThrough(if survives then Delivered(ops) else None))
        && (!through ==>
              (out == MissingKey <==> TrimSpace(q.key) == "") && (out == KeyTooLong <==> |TrimSpace(q.key)| > 255))
        && (!through && 0 < |TrimSpace(q.key)| <= 255 ==>
              var scope := q.caller.value + "|" + q.verb + "|" + q.path + "|" + TrimSpace(q.key);
              out.Handled? && Ends(s, Alone(Cfg(), s, scope, ops, survives, acquire, complete), store.records, out.a))
      ensures !out.Handled? ==> store.records == s.store
    {
      hide Delivered, TrimSpace, Alone, Ends;
      if IsSafeMethod(q.verb) || q.caller.None? {
        return PassedThrough(if survives then Delivered(ops) else None);
      }
      var key := TrimSpace(q.key);
      if key == "" {
        return MissingKey;
      }
      if |key| > 255 {
        return KeyTooLong;
      }
      var a := Protect(ScopeKey(q.caller.value, q.verb, q.path, key), ops, survives, now, acquire, complete, s);
      out := Handled(a);
    }
  }

  // ---------- What one request is answered ----------

  /** The scope has a record that has not run out. */
  predicate Held(store: Store, scope: string, now: nat) { scope in store && now < store[scope].deadline }

  /**
   Acquiring a scope makes its caller the owner exactly if the scope is not held, and then holds it for one TTL;
   otherwise nothing is written, and the caller gets the stored response if there is one.
   */
  lemma AcquireExact(store: Store, scope: string, now: nat, ttl: nat)
    ensures var (store', got) := GetOrSet(store, scope, now, ttl);
      && (got == Owner <==> !Held(store, scope, now))
      && (got == Owner ==> store' == store[scope := Timed(Processing, now + ttl)])
      && (Held(store, scope, now) ==>
            store' == store &&
            got == match store[scope].value
              case Processing => InFlight
              case Completed(r) => Existing(r)
              case Failed(r) => Existing(r))
  {
  }

  /** What a handler writes, its statuses aside. */
  function Body(ops: seq<Op>): string {
    if ops == [] then ""
    else Body(ops[..|ops| - 1]) + if ops[|ops| - 1].Write? then ops[|ops| - 1].data else ""
  }

  /** The first status of all; a write that comes first sets 200, and without any call there is none. */
  function FirstStatus(ops: seq<Op>): int {
    if ops == [] then 0 else if ops[0].WriteHeader? then ops[0].code else 200
  }

  lemma {:induction false} RecordedExact(ops: seq<Op>)
    ensures Recorded(ops) == Recording(FirstStatus(ops), Body(ops), ops != [])
  {
    if ops != [] {
      RecordedExact(ops[..|ops| - 1]);
      assert Body(ops[..|ops| - 1]) + "" == Body(ops[..|ops| - 1]);
    }
  }

  /** The response a recorded handler's client gets, if its status can be written out at all. */
  function ResponseOf(ops: seq<Op>): Option<Response> {
    var code := FirstStatus(ops);
    if code < 100 || code > 999 then None
    else if 100 <= code <= 199 && code != 101 then Some(Response(200, Body(ops)))
    else Some(Response(code, if code == 101 || code == 204 || code == 304 then "" else Body(ops)))
  }

  lemma SentOut(cfg: Config, ops: seq<Op>)
    ensures Flushed(Recorded(ops).statusCode, Recorded(ops).body) == ResponseOf(ops)
    ensures Storable(cfg, ops) == if |Body(ops)| <= cfg.maxBody then ResponseOf(ops) else None
  {
    RecordedExact(ops);
    FlushedIs(Recorded(ops).statusCode, Recorded(ops).body);
    hide Flushed, Recorded, Body;
  }

  /** The record kept of a response: failed from status 400 on. */
  function Kept(r: Response): Record { if r.code < 400 then Completed(r) else Failed(r) }

  /**
   A request on its own. If the store answers, a scope that is held is answered from its record and one that is not
   is run, recorded and answered; the response is stored for one TTL, unless it is longer than the limit or the write
   fails, and a run without a response leaves the scope held. If the store does not answer, the handler runs
   unprotected.
   */
  lemma AloneExact(cfg: Config, s: State, scope: string, ops: seq<Op>, survives: bool, acquire: Fault, complete: Fault)
    ensures var s' := Alone(cfg, s, scope, ops, survives, acquire, complete);
      var held := s.store[scope := Timed(Processing, s.now + cfg.ttl)];
      if acquire != Fine then
        Ends(s, s', if acquire == Lost && !Held(s.store, scope, s.now) then held else s.store,
          if survives && Delivered(ops).Some? then Unprotected(Delivered(ops).value) else Aborted)
      else if Held(s.store, scope, s.now) then
        Ends(s, s', s.store,
          match s.store[scope].value case Processing => Conflict case Completed(r) => Replay(r) case Failed(r) => Replay(r))
      else if !survives || ResponseOf(ops).None? then Ends(s, s', held, Aborted)
      else
        var r := ResponseOf(ops).value;
        Ends(s, s',
          if |Body(ops)| <= cfg.maxBody && complete != Fails then s.store[scope := Timed(Kept(r), s.now + cfg.ttl)] else held,
          Fresh(r))
  {
    AcquireExact(s.store, scope, s.now, cfg.ttl);
    SentOut(cfg, ops);
    hide Delivered, Recorded, Flushed, Storable, GetOrSet, Body, ResponseOf, Ends, Alone;
    if acquire != Fine {
      AloneDegraded(cfg, s, scope, ops, survives, acquire, complete);
    } else if Held(s.store, scope, s.now) {
      AloneAnswered(cfg, s, scope, ops, survives, complete);
    } else {
      AloneOwns(cfg, s, scope, ops, survives, complete);
      if ResponseOf(ops).Some? {
        var first, last := Timed(Processing, s.now + cfg.ttl), Timed(Kept(ResponseOf(ops).value), s.now + cfg.ttl);
        assert s.store[scope := first][scope := last] == s.store[scope := last];
      }
    }
  }

  /** The same request again: replayed as long as the record lasts, and run anew from the moment it has run out. */
  lemma AskedTwice(cfg: Config, s: State, scope: string, ops: seq<Op>, delay: nat, again: seq<Op>)
    requires !Held(s.store, scope, s.now) && ResponseOf(ops).Some? && |Body(ops)| <= cfg.maxBody
    ensures var s1 := Next(cfg, Alone(cfg, s, scope, ops, true, Fine, Fine), Tick(delay));
      var s2 := Alone(cfg, s1, scope, again, true, Fine, Fine);
      && Ends(s1, s2, s2.store,
           if delay < cfg.ttl then Replay(ResponseOf(ops).value)
           else if ResponseOf(again).Some? then Fresh(ResponseOf(again).value)
           else Aborted)
  {
    AloneExact(cfg, s, scope, ops, true, Fine, Fine);
    AloneClock(cfg, s, scope, ops, true, Fine, Fine);
    var s1 := Next(cfg, Alone(cfg, s, scope, ops, true, Fine, Fine), Tick(delay));
    AloneExact(cfg, s1, scope, again, true, Fine, Fine);
    hide Alone, ResponseOf, Body;
  }

  lemma AloneClock(cfg: Config, s: State, scope: string, ops: seq<Op>, survives: bool, acquire: Fault, complete: Fault)
    ensures Alone(cfg, s, scope, ops, survives, acquire, complete).now == s.now
  {
    hide Delivered, Recorded, Flushed, GetOrSet;
  }

  /** A record in the store is there because some request asked for its scope. */
  ghost predicate Asked(s: State, scope: string) {
    exists q :: 0 <= q < |s.reqs| && s.reqs[q].scope == scope && s.reqs[q].phase != Arrived
  }

  ghost predicate StoreAsked(s: State) { forall scope :: scope in s.store ==> Asked(s, scope) }

  /** A step writes at most to the scope of the request that takes it, which is then no longer new. */
  lemma StepAsks(cfg: Config, s: State, a: Action)
    requires StoreAsked(s)
    ensures StoreAsked(Next(cfg, s, a))
  {
    hide Delivered, Recorded, Flushed, RecordOf;
    var s' := Next(cfg, s, a);
    forall scope | scope in s'.store ensures Asked(s', scope) {
      if scope in s.store {
        var q :| 0 <= q < |s.reqs| && s.reqs[q].scope == scope && s.reqs[q].phase != Arrived;
        assert s'.reqs[q].scope == scope && s'.reqs[q].phase != Arrived;
      } else {
        assert s'.reqs[a.r].phase != Arrived;
      }
    }
  }

  lemma {:induction false} RunAsks(cfg: Config, start: nat, actions: seq<Action>)
    ensures StoreAsked(Run(cfg, Initial(start), actions))
  {
    if actions != [] {
      RunAsks(cfg, start, actions[..|actions| - 1]);
      hide StoreAsked, Next;
      StepAsks(cfg, Run(cfg, Initial(start), actions[..|actions| - 1]), actions[|actions| - 1]);
    }
  }

  /** In every run, the first request that asks for a scope, if the store answers it, becomes its owner. */
  lemma FirstOwns(cfg: Config, start: nat, actions: seq<Action>, r: nat)
    requires var s := Run(cfg, Initial(start), actions);
      && r < |s.reqs| && s.reqs[r].phase == Arrived
      && forall q :: 0 <= q < |s.reqs| && s.reqs[q].scope == s.reqs[r].scope ==> s.reqs[q].phase == Arrived
    ensures Next(cfg, Run(cfg, Initial(start), actions), TryAcquire(r, Fine)).reqs[r].phase == Owning
  {
    RunAsks(cfg, start, actions);
    hide Run;
  }

  // ---------- Which requests share a scope ----------

  function BarsIn(s: string): nat {
    if s == "" then 0 else BarsIn(s[..|s| - 1]) + if s[|s| - 1] == '|' then 1 else 0
  }

  lemma {:induction false} BarsAdd(a: string, b: string)
    ensures BarsIn(a + b) == BarsIn(a) + BarsIn(b)
  {
    if b == "" {
      assert a + b == a;
    } else {
      BarsAdd(a, b[..|b| - 1]);
      assert (a + b)[..|a + b| - 1] == a + b[..|b| - 1];
    }
  }

  /** A place where a bar stands, in a text that has one. */
  lemma {:induction false} BarPlace(s: string) returns (i: nat)
    requires BarsIn(s) > 0
    ensures i < |s| && s[i] == '|'
  {
    if s[|s| - 1] == '|' {
      i := |s| - 1;
    } else {
      i := BarPlace(s[..|s| - 1]);
    }
  }

  lemma ScopeBars(c: string, m: string, p: string, k: string)
    ensures BarsIn(ScopeKey(c, m, p, k)) == 3 + BarsIn(c) + BarsIn(m) + BarsIn(p) + BarsIn(k)
  {
    assert BarsIn("|") == 1;
    BarsAdd(c + "|" + m + "|" + p + "|", k);
    BarsAdd(c + "|" + m + "|" + p, "|");
    BarsAdd(c + "|" + m + "|", p);
    BarsAdd(c + "|" + m, "|");
    BarsAdd(c + "|", m);
    BarsAdd(c, "|");
  }

  /** Texts without a bar before the first bar are told apart by it. */
  lemma SplitAtBar(a: string, b: string, x: string, y: string)
    requires BarsIn(a) == 0 && BarsIn(b) == 0 && a + "|" + x == b + "|" + y
    ensures a == b && x == y
  {
    NoBarAt(a);
    NoBarAt(b);
    var s, t := a + "|" + x, b + "|" + y;
    hide BarsIn;
    assert s[|a|] == '|' && t[|b|] == '|';
    assert forall i :: 0 <= i < |a| ==> s[i] == a[i];
    assert forall i :: 0 <= i < |b| ==> t[i] == b[i];
    assert s[..|a|] == a && t[..|b|] == b;
    assert s[|a| + 1..] == x && t[|b| + 1..] == y;
  }

  lemma {:induction false} NoBarAt(s: string)
    requires BarsIn(s) == 0
    ensures forall i :: 0 <= i < |s| ==> s[i] != '|'
  {
    if s != "" {
      NoBarAt(s[..|s| - 1]);
    }
  }

  lemma Grouped(c: string, m: string, p: string, k: string)
    ensures ScopeKey(c, m, p, k) == c + "|" + (m + "|" + (p + "|" + k))
  {
    assert m + "|" + (p + "|" + k) == m + ("|" + (p + "|" + k));
  }

  /** What a request is identified by. */
  datatype Identified = Identified(caller: string, verb: string, path: string, key: string)

  function ScopeOf(q: Identified): string { ScopeKey(q.caller, q.verb, q.path, q.key) }

  predicate HasBar(q: Identified) {
    BarsIn(q.caller) + BarsIn(q.verb) + BarsIn(q.path) + BarsIn(q.key) > 0
  }

  /** Without bars nothing shares the scope: all three separators are where they should be. */
  lemma NoBarsAlone(q: Identified, q': Identified)
    requires !HasBar(q) && ScopeOf(q) == ScopeOf(q')
    ensures q == q'
  {
    ScopeBars(q.caller, q.verb, q.path, q.key);
    ScopeBars(q'.caller, q'.verb, q'.path, q'.key);
    Grouped(q.caller, q.verb, q.path, q.key);
    Grouped(q'.caller, q'.verb, q'.path, q'.key);
    hide ScopeKey;
    SplitAtBar(q.caller, q'.caller, q.verb + "|" + (q.path + "|" + q.key), q'.verb + "|" + (q'.path + "|" + q'.key));
    SplitAtBar(q.verb, q'.verb, q.path + "|" + q.key, q'.path + "|" + q'.key);
    SplitAtBar(q.path, q'.path, q.key, q'.key);
  }

  /** A bar in a part can be read as the end of that part, and the separator after it as part of the next. */
  lemma ShiftBar(a: string, b: string, i: nat)
    requires i < |a| && a[i] == '|'
    ensures a + "|" + b == a[..i] + "|" + (a[i + 1..] + "|" + b)
  {
    assert a == a[..i] + "|" + a[i + 1..];
  }

  /** The same for the key, whose bar moves the rest of it out of the path. */
  lemma ShiftKey(p: string, k: string, i: nat)
    requires i < |k| && k[i] == '|'
    ensures p + "|" + k == (p + "|" + k[..i]) + "|" + k[i + 1..]
  {
    assert k == k[..i] + "|" + k[i + 1..];
  }

  /** A bar in path or key lets another path and key share the scope. */
  lemma SharedPath(q: Identified) returns (q': Identified)
    requires BarsIn(q.path) + BarsIn(q.key) > 0
    ensures q' != q && q'.caller == q.caller && q'.verb == q.verb && ScopeOf(q') == ScopeOf(q)
  {
    Grouped(q.caller, q.verb, q.path, q.key);
    if BarsIn(q.key) > 0 {
      var i := BarPlace(q.key);
      q' := q.(path := q.path + "|" + q.key[..i], key := q.key[i + 1..]);
      ShiftKey(q.path, q.key, i);
    } else {
      var i := BarPlace(q.path);
      q' := q.(path := q.path[..i], key := q.path[i + 1..] + "|" + q.key);
      ShiftBar(q.path, q.key, i);
    }
    hide BarsIn, ScopeKey;
    Grouped(q'.caller, q'.verb, q'.path, q'.key);
    assert |q'.key| != |q.key|;
  }

  /** So does a bar in the caller or the method. */
  lemma SharedCaller(q: Identified) returns (q': Identified)
    requires BarsIn(q.caller) + BarsIn(q.verb) > 0
    ensures q' != q && ScopeOf(q') == ScopeOf(q)
  {
    Grouped(q.caller, q.verb, q.path, q.key);
    if BarsIn(q.verb) > 0 {
      var i := BarPlace(q.verb);
      q' := q.(verb := q.verb[..i], path := q.verb[i + 1..] + "|" + q.path);
      ShiftBar(q.verb, q.path + "|" + q.key, i);
      assert q.verb[i + 1..] + "|" + (q.path + "|" + q.key) == (q.verb[i + 1..] + "|" + q.path) + "|" + q.key;
    } else {
      var i := BarPlace(q.caller);
      q' := q.(caller := q.caller[..i], verb := q.caller[i + 1..] + "|" + q.verb);
      ShiftBar(q.caller, q.verb + "|" + (q.path + "|" + q.key), i);
      assert q.caller[i + 1..] + "|" + (q.verb + "|" + (q.path + "|" + q.key))
          == (q.caller[i + 1..] + "|" + q.verb) + "|" + (q.path + "|" + q.key);
    }
    hide BarsIn, ScopeKey;
    Grouped(q'.caller, q'.verb, q'.path, q'.key);
    assert |q'.verb| != |q.verb|;
  }

  /** A request shares its scope with some different request exactly if its caller, method, path or key contains a bar. */
  lemma ScopeSharedIff(q: Identified)
    ensures HasBar(q) <==> exists q' :: q' != q && ScopeOf(q') == ScopeOf(q)
    ensures BarsIn(q.path) + BarsIn(q.key) > 0 ==>
      exists q' :: q' != q && q'.caller == q.caller && q'.verb == q.verb && ScopeOf(q') == ScopeOf(q)
  {
    hide ScopeOf;
    if HasBar(q) {
      if BarsIn(q.path) + BarsIn(q.key) > 0 {
        var q' := SharedPath(q);
      } else {
        var q' := SharedCaller(q);
      }
    } else {
      forall q' | ScopeOf(q') == ScopeOf(q) ensures q' == q {
        NoBarsAlone(q, q');
      }
    }
  }

  /** The middleware accepts a key that is left after trimming and not too long. */
  predicate Acceptable(key: string) { TrimSpace(key) == key && 0 < |key| <= 255 }

  /** A bar of `path|key` other than the separator, with an acceptable key behind it. */
  ghost predicate OtherSplit(q: Identified, i: nat) {
    var text := q.path + "|" + q.key;
    i < |text| && i != |q.path| && text[i] == '|' && Acceptable(text[i + 1..])
  }

  /** A different request with an accepted key, caller and method without bars, and the same scope. */
  predicate SharesAccepted(q: Identified, q': Identified) {
    q' != q && BarsIn(q'.caller) == 0 && BarsIn(q'.verb) == 0 && Acceptable(q'.key) && ScopeOf(q') == ScopeOf(q)
  }

  /**
   For a caller and a method without bars, and as far as keys are accepted: a request shares its scope with a
   different one exactly if its path and key, joined by a bar, can be split at another bar.
   */
  lemma AcceptedSharedIff(q: Identified)
    requires BarsIn(q.caller) == 0 && BarsIn(q.verb) == 0
    ensures (exists i: nat :: OtherSplit(q, i)) <==> exists q' :: SharesAccepted(q, q')
  {
    var text := q.path + "|" + q.key;
    hide BarsIn, ScopeOf, Acceptable;
    forall i: nat | OtherSplit(q, i)
      ensures exists q' :: SharesAccepted(q, q')
    {
      var q' := q.(path := text[..i], key := text[i + 1..]);
      assert text == q'.path + "|" + q'.key;
      SameTail(q, q');
      assert |q'.path| != |q.path|;
      assert SharesAccepted(q, q');
    }
    forall q' | SharesAccepted(q, q')
      ensures OtherSplit(q, |q'.path|)
    {
      SameHead(q, q');
      var text' := q'.path + "|" + q'.key;
      assert text'[|q'.path|] == '|' && text'[|q'.path| + 1..] == q'.key;
      assert text[..|q.path|] == q.path && text[|q.path| + 1..] == q.key && text'[..|q'.path|] == q'.path;
    }
  }

  lemma SameTail(q: Identified, q': Identified)
    requires q.caller == q'.caller && q.verb == q'.verb && q.path + "|" + q.key == q'.path + "|" + q'.key
    ensures ScopeOf(q) == ScopeOf(q')
  {
    Grouped(q.caller, q.verb, q.path, q.key);
    Grouped(q'.caller, q'.verb, q'.path, q'.key);
  }

  lemma SameHead(q: Identified, q': Identified)
    requires BarsIn(q.caller) == BarsIn(q.verb) == BarsIn(q'.caller) == BarsIn(q'.verb) == 0 && ScopeOf(q) == ScopeOf(q')
    ensures q.caller == q'.caller && q.verb == q'.verb && q.path + "|" + q.key == q'.path + "|" + q'.key
  {
    Grouped(q.caller, q.verb, q.path, q.key);
    Grouped(q'.caller, q'.verb, q'.path, q'.key);
    hide ScopeKey;
    SplitAtBar(q.caller, q'.caller, q.verb + "|" + (q.path + "|" + q.key), q'.verb + "|" + (q'.path + "|" + q'.key));
    SplitAtBar(q.verb, q'.verb, q.path + "|" + q.key, q'.path + "|" + q'.key);
  }
}
