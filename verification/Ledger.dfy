/**
 Account balances under optimistic locking: a credit or debit reads the row, decides, and
 writes it back only if the version has not moved. The sequential service is given as
 classes; the concurrent system is a machine whose steps are the reads and the writes.
 */
module Ledger {
  import opened Wrappers
  import opened Strconv

  datatype Account = Account(balance: int, status: string, version: nat)

  type Rows = map<string, Account>

  datatype Op = Credit(id: string, amount: int) | Debit(id: string, amount: int)

  datatype Outcome = Applied | BadAmount | NotFound | NotActive | Overflow | Insufficient | Conflict | Unreachable

  /** The record the service would write for the row it has loaded, or the reason it refuses. */
  function Decide(row: Account, op: Op): Result<Account, Outcome> {
    if row.status != "ACTIVE" then
      Err(NotActive)
    else
      match op
      case Credit(_, amount) =>
        if row.balance > MAX_INT64 - amount then Err(Overflow) else Ok(row.(balance := row.balance + amount))
      case Debit(_, amount) =>
        if row.balance < amount then Err(Insufficient) else Ok(row.(balance := row.balance - amount))
  }

  /** `UPDATE ... WHERE id = ? AND version = ?`. */
  function CompareAndSet(rows: Rows, id: string, written: Account): (Rows, bool) {
    if id in rows && rows[id].version == written.version then
      (rows[id := written.(version := written.version + 1)], true)
    else
      (rows, false)
  }

  /** What one credit or debit does when nothing else runs. */
  function Apply(rows: Rows, op: Op): (Rows, Outcome) {
    if op.amount <= 0 then
      (rows, BadAmount)
    else if op.id !in rows then
      (rows, NotFound)
    else
      match Decide(rows[op.id], op)
      case Err(why) => (rows, why)
      case Ok(written) => (rows[op.id := written.(version := written.version + 1)], Applied)
  }

  class AccountRepository {
    var rows: Rows

    constructor (rows: Rows)
      ensures this.rows == rows
    {
      this.rows := rows;
    }

    method GetByID(id: string) returns (r: Option<Account>)
      ensures r == if id in rows then Some(rows[id]) else None
    {
      r := if id in rows then Some(rows[id]) else None;
    }

    method Update(id: string, account: Account) returns (ok: bool)
      modifies this
      ensures (rows, ok) == CompareAndSet(old(rows), id, account)
    {
      ok := id in rows && rows[id].version == account.version;
      if ok {
        rows := rows[id := account.(version := account.version + 1)];
      }
    }
  }

  class AccountService {
    const repo: AccountRepository

    constructor (repo: AccountRepository)
      ensures this.repo == repo
    {
      this.repo := repo;
    }

    method CreditAccount(id: string, amount: int) returns (out: Outcome)
      modifies repo
      ensures (repo.rows, out) == Apply(old(repo.rows), Credit(id, amount))
    {
      if amount <= 0 {
        return BadAmount;
      }
      var account := repo.GetByID(id);
      if account.None? {
        return NotFound;
      }
      if account.value.status != "ACTIVE" {
        return NotActive;
      }
      if account.value.balance > MAX_INT64 - amount {
        return Overflow;
      }
      var ok := repo.Update(id, account.value.(balance := account.value.balance + amount));
      out := if ok then Applied else Conflict;
    }

    method DebitAccount(id: string, amount: int) returns (out: Outcome)
      modifies repo
      ensures (repo.rows, out) == Apply(old(repo.rows), Debit(id, amount))
    {
      if amount <= 0 {
        return BadAmount;
      }
      var account := repo.GetByID(id);
      if account.None? {
        return NotFound;
      }
      if account.value.status != "ACTIVE" {
        return NotActive;
      }
      if account.value.balance < amount {
        return Insufficient;
      }
      var ok := repo.Update(id, account.value.(balance := account.value.balance - amount));
      out := if ok then Applied else Conflict;
    }
  }

  // ---------- The concurrent machine ----------

  datatype Leg = DebitLeg | CreditLeg | RefundLeg

  /** The reference a caller sends along: a payment's leg, or none of ours. */
  datatype Ref = Direct | Payment(txn: nat, leg: Leg)

  datatype Phase = Start | Loaded(written: Account) | Done(out: Outcome)

  datatype Call = Call(op: Op, ref: Ref, phase: Phase)

  /** The moment a call took effect, or was turned down. */
  datatype Event = Event(call: nat, op: Op, ref: Ref, out: Outcome)

  datatype State = State(rows: Rows, calls: seq<Call>, log: seq<Event>)

  /** `Retry` resends a request that was lost before it wrote; `Drop` gives up on it. */
  datatype Action = Issue(op: Op, ref: Ref) | Load(c: nat) | Commit(c: nat) | Retry(c: nat) | Drop(c: nat)

  function SetPhase(s: State, c: nat, phase: Phase): State
    requires c < |s.calls|
  {
    s.(calls := s.calls[c := s.calls[c].(phase := phase)])
  }

  function Finish(s: State, c: nat, out: Outcome): State
    requires c < |s.calls|
  {
    SetPhase(s, c, Done(out)).(log := s.log + [Event(c, s.calls[c].op, s.calls[c].ref, out)])
  }

  function DoLoad(s: State, c: nat): State
    requires c < |s.calls|
  {
    var op := s.calls[c].op;
    if op.amount <= 0 then
      Finish(s, c, BadAmount)
    else if op.id !in s.rows then
      Finish(s, c, NotFound)
    else
      match Decide(s.rows[op.id], op)
      case Err(why) => Finish(s, c, why)
      case Ok(written) => SetPhase(s, c, Loaded(written))
  }

  function DoCommit(s: State, c: nat): State
    requires c < |s.calls| && s.calls[c].phase.Loaded?
  {
    var (rows, ok) := CompareAndSet(s.rows, s.calls[c].op.id, s.calls[c].phase.written);
    Finish(s.(rows := rows), c, if ok then Applied else Conflict)
  }

  predicate Enabled(s: State, a: Action) {
    match a
    case Issue(_, _) => true
    case Load(c) => c < |s.calls| && s.calls[c].phase == Start
    case Commit(c) => c < |s.calls| && s.calls[c].phase.Loaded?
    case Retry(c) => c < |s.calls| && s.calls[c].phase.Loaded?
    case Drop(c) => c < |s.calls| && !s.calls[c].phase.Done?
  }

  /** One step; an action that is not possible changes nothing. */
  function Next(s: State, a: Action): State {
    if !Enabled(s, a) then s else
    match a
    case Issue(op, ref) => s.(calls := s.calls + [Call(op, ref, Start)])
    case Load(c) => DoLoad(s, c)
    case Commit(c) => DoCommit(s, c)
    case Retry(c) => SetPhase(s, c, Start)
    case Drop(c) => Finish(s, c, Unreachable)
  }

  function Run(s: State, actions: seq<Action>): State {
    if actions == [] then s else Next(Run(s, actions[..|actions| - 1]), actions[|actions| - 1])
  }

  // ---------- Linearizability ----------

  predicate Bounded(rows: Rows) {
    forall id :: id in rows ==> 0 <= rows[id].balance <= MAX_INT64
  }

  /** Run the logged operations one after another; every answer must be the sequential one. */
  function Replay(rows: Rows, log: seq<Event>): Option<Rows> {
    if log == [] then
      Some(rows)
    else
      match Replay(rows, log[..|log| - 1])
      case None => None
      case Some(before) =>
        var e := log[|log| - 1];
        if e.out == Conflict || e.out == Unreachable then
          Some(before)
        else if Apply(before, e.op).1 == e.out then
          Some(Apply(before, e.op).0)
        else
          None
  }

  /** A pending write whose version is still current is the decision on the current row. */
  ghost predicate Fresh(rows: Rows, call: Call) {
    call.phase.Loaded? ==>
      var w := call.phase.written;
      && call.op.amount > 0 && call.op.id in rows && w.version <= rows[call.op.id].version
      && (w.version == rows[call.op.id].version ==> Decide(rows[call.op.id], call.op) == Ok(w))
  }

  ghost predicate AllFresh(s: State) {
    forall c :: 0 <= c < |s.calls| ==> Fresh(s.rows, s.calls[c])
  }

  /** Each finished call has exactly one event, which carries its operation and its answer. */
  ghost predicate LogMatches(s: State) {
    && (forall i :: 0 <= i < |s.log| ==>
          var e := s.log[i]; e.call < |s.calls| && s.calls[e.call] == Call(e.op, e.ref, Done(e.out)))
    && (forall i, j :: 0 <= i < j < |s.log| ==> s.log[i].call != s.log[j].call)
    && (forall c :: 0 <= c < |s.calls| && s.calls[c].phase.Done? ==> Logged(s, c))
  }

  ghost predicate Inv(rows0: Rows, s: State) {
    Bounded(s.rows) && AllFresh(s) && LogMatches(s) && Replay(rows0, s.log) == Some(s.rows)
  }

  lemma ApplyBounded(rows: Rows, op: Op)
    requires Bounded(rows)
    ensures Bounded(Apply(rows, op).0)
  {
  }

  /** Finished calls, and only those, are in the log. */
  ghost predicate Logged(s: State, c: nat) {
    exists i :: 0 <= i < |s.log| && s.log[i].call == c
  }

  lemma FinishLogged(s: State, c: nat, out: Outcome, d: nat)
    requires LogMatches(s) && c < |s.calls| && d < |s.calls| && (d == c || s.calls[d].phase.Done?)
    ensures Logged(Finish(s, c, out), d)
  {
    var t := Finish(s, c, out);
    if d == c {
      assert t.log[|s.log|].call == c;
    } else {
      var i :| 0 <= i < |s.log| && s.log[i].call == d;
      assert t.log[i].call == d;
    }
  }

  lemma FinishLogs(s: State, c: nat, out: Outcome)
    requires LogMatches(s) && c < |s.calls| && !s.calls[c].phase.Done?
    ensures LogMatches(Finish(s, c, out))
  {
    var t := Finish(s, c, out);
    forall d | 0 <= d < |t.calls| && t.calls[d].phase.Done? ensures Logged(t, d) {
      FinishLogged(s, c, out, d);
    }
    hide Logged;
  }

  lemma ReplayLast(rows0: Rows, log: seq<Event>, e: Event)
    requires Replay(rows0, log).Some?
    ensures var before := Replay(rows0, log).value;
            Replay(rows0, log + [e]) ==
              if e.out == Conflict || e.out == Unreachable then Some(before)
              else if Apply(before, e.op).1 == e.out then Some(Apply(before, e.op).0)
              else None
  {
    assert (log + [e])[..|log|] == log;
  }

  /** Answering without touching the rows, when the sequential service would answer the same. */
  lemma AnswerKeeps(rows0: Rows, s: State, c: nat, out: Outcome)
    requires Inv(rows0, s) && c < |s.calls| && !s.calls[c].phase.Done?
    requires out == Conflict || out == Unreachable || Apply(s.rows, s.calls[c].op) == (s.rows, out)
    ensures Inv(rows0, Finish(s, c, out))
  {
    hide Apply;
    FinishLogs(s, c, out);
    hide LogMatches;
    ReplayLast(rows0, s.log, Event(c, s.calls[c].op, s.calls[c].ref, out));
  }

  lemma ReadyKeeps(rows0: Rows, s: State, c: nat, written: Account)
    requires Inv(rows0, s) && Enabled(s, Load(c))
    requires s.calls[c].op.amount > 0 && s.calls[c].op.id in s.rows
    requires Decide(s.rows[s.calls[c].op.id], s.calls[c].op) == Ok(written)
    ensures Inv(rows0, SetPhase(s, c, Loaded(written)))
  {
    hide Replay;
  }

  lemma LoadKeeps(rows0: Rows, s: State, c: nat)
    requires Inv(rows0, s) && Enabled(s, Load(c))
    ensures Inv(rows0, Next(s, Load(c)))
  {
    hide Inv;
    var op := s.calls[c].op;
    var out := Apply(s.rows, op).1;
    if out != Applied {
      AnswerKeeps(rows0, s, c, out);
    } else {
      ReadyKeeps(rows0, s, c, Decide(s.rows[op.id], op).value);
    }
  }

  /** A write that goes through is the sequential operation on the rows as they are now. */
  lemma CommitIsApply(s: State, c: nat)
    requires AllFresh(s) && Enabled(s, Commit(c))
    ensures var (rows, ok) := CompareAndSet(s.rows, s.calls[c].op.id, s.calls[c].phase.written);
            if ok then Apply(s.rows, s.calls[c].op) == (rows, Applied) else rows == s.rows
  {
    assert Fresh(s.rows, s.calls[c]);
  }

  lemma CommitStaysFresh(s: State, c: nat)
    requires AllFresh(s) && Enabled(s, Commit(c))
    ensures AllFresh(Next(s, Commit(c)))
  {
    var t := Next(s, Commit(c));
    var w := s.calls[c].phase.written;
    forall d | 0 <= d < |t.calls| ensures Fresh(t.rows, t.calls[d]) {
      assert Fresh(s.rows, s.calls[d]) && Fresh(s.rows, s.calls[c]);
    }
  }

  /** The log is about the calls; the rows do not matter to it. */
  lemma LogReads(s: State, rows: Rows)
    requires LogMatches(s)
    ensures LogMatches(s.(rows := rows))
  {
    forall c | 0 <= c < |s.calls| && s.calls[c].phase.Done? ensures Logged(s.(rows := rows), c) {
      assert Logged(s, c);
    }
    hide Logged;
  }

  lemma CommitKeeps(rows0: Rows, s: State, c: nat)
    requires Inv(rows0, s) && Enabled(s, Commit(c))
    ensures Inv(rows0, Next(s, Commit(c)))
  {
    var call := s.calls[c];
    var (rows, ok) := CompareAndSet(s.rows, call.op.id, call.phase.written);
    var out := if ok then Applied else Conflict;
    assert Next(s, Commit(c)) == Finish(s.(rows := rows), c, out);
    CommitIsApply(s, c);
    CommitStaysFresh(s, c);
    ApplyBounded(s.rows, call.op);
    LogReads(s, rows);
    FinishLogs(s.(rows := rows), c, out);
    hide Next, Apply, CompareAndSet, AllFresh, LogMatches, Bounded;
    ReplayLast(rows0, s.log, Event(c, call.op, call.ref, out));
  }

  lemma NextKeeps(rows0: Rows, s: State, a: Action)
    requires Inv(rows0, s)
    ensures Inv(rows0, Next(s, a))
  {
    if Enabled(s, a) {
      match a
      case Issue(_, _) =>
      case Load(c) => LoadKeeps(rows0, s, c);
      case Commit(c) => CommitKeeps(rows0, s, c);
      case Retry(c) =>
      case Drop(c) => AnswerKeeps(rows0, s, c, Unreachable);
    }
  }

  /**
   However the reads and writes of any number of calls interleave, the log is a sequential
   history that explains every answer and ends in the current rows.
   */
  lemma {:induction false} Linearizable(rows0: Rows, actions: seq<Action>)
    requires Bounded(rows0)
    ensures Inv(rows0, Run(State(rows0, [], []), actions))
  {
    if actions != [] {
      Linearizable(rows0, actions[..|actions| - 1]);
      NextKeeps(rows0, Run(State(rows0, [], []), actions[..|actions| - 1]), actions[|actions| - 1]);
    }
  }

  // ---------- What the history adds up to ----------

  /** The change of one account's balance made by an event. */
  function Delta(e: Event, id: string): int {
    if e.out != Applied || e.op.id != id then 0
    else if e.op.Credit? then e.op.amount else -e.op.amount
  }

  function NetChange(log: seq<Event>, id: string): int {
    if log == [] then 0 else NetChange(log[..|log| - 1], id) + Delta(log[|log| - 1], id)
  }

  function Successes(log: seq<Event>, id: string): nat {
    if log == [] then 0
    else Successes(log[..|log| - 1], id) + if log[|log| - 1].out == Applied && log[|log| - 1].op.id == id then 1 else 0
  }

  lemma {:induction false} ReplayTotals(rows0: Rows, log: seq<Event>, id: string)
    requires Replay(rows0, log).Some? && id in rows0
    ensures var rows := Replay(rows0, log).value;
            && id in rows
            && rows[id].balance == rows0[id].balance + NetChange(log, id)
            && rows[id].version == rows0[id].version + Successes(log, id)
            && rows[id].status == rows0[id].status
  {
    if log != [] {
      ReplayTotals(rows0, log[..|log| - 1], id);
    }
  }

  /**
   In every reachable state a balance is the initial one plus the applied credits minus the
   applied debits, it fits an int64 and is not negative, and the version counts the successes.
   */
  lemma BalanceAddsUp(rows0: Rows, actions: seq<Action>, id: string)
    requires Bounded(rows0) && id in rows0
    ensures var s := Run(State(rows0, [], []), actions);
            && id in s.rows
            && s.rows[id].balance == rows0[id].balance + NetChange(s.log, id)
            && s.rows[id].version == rows0[id].version + Successes(s.log, id)
            && 0 <= s.rows[id].balance <= MAX_INT64
  {
    Linearizable(rows0, actions);
    ReplayTotals(rows0, Run(State(rows0, [], []), actions).log, id);
  }

  // ---------- One operation ----------

  /** One row is written as given and no other changes. */
  ghost predicate OnlyRow(rows: Rows, rows': Rows, id: string, account: Account) {
    && rows'.Keys == rows.Keys && id in rows' && rows'[id] == account
    && forall k :: k in rows && k != id ==> rows'[k] == rows[k]
  }

  /**
   A credit goes through exactly if the amount is positive, the account exists and is active, and the new balance
   fits an int64; each refusal has the reasons before it ruled out and changes nothing.
   */
  lemma CreditExact(rows: Rows, id: string, amount: int)
    ensures var (rows', out) := Apply(rows, Credit(id, amount));
      && (out == BadAmount <==> amount <= 0)
      && (out == NotFound <==> amount > 0 && id !in rows)
      && (out == NotActive <==> amount > 0 && id in rows && rows[id].status != "ACTIVE")
      && (out == Overflow <==>
            amount > 0 && id in rows && rows[id].status == "ACTIVE" && rows[id].balance + amount > 0x7FFF_FFFF_FFFF_FFFF)
      && (out == Applied <==>
            amount > 0 && id in rows && rows[id].status == "ACTIVE" && rows[id].balance + amount <= 0x7FFF_FFFF_FFFF_FFFF)
      && (if out == Applied
          then OnlyRow(rows, rows', id, Account(rows[id].balance + amount, "ACTIVE", rows[id].version + 1))
          else rows' == rows)
  {
  }

  /** The same for a debit, which needs the balance to cover the amount. */
  lemma DebitExact(rows: Rows, id: string, amount: int)
    ensures var (rows', out) := Apply(rows, Debit(id, amount));
      && (out == BadAmount <==> amount <= 0)
      && (out == NotFound <==> amount > 0 && id !in rows)
      && (out == NotActive <==> amount > 0 && id in rows && rows[id].status != "ACTIVE")
      && (out == Insufficient <==>
            amount > 0 && id in rows && rows[id].status == "ACTIVE" && rows[id].balance < amount)
      && (out == Applied <==> amount > 0 && id in rows && rows[id].status == "ACTIVE" && rows[id].balance >= amount)
      && (if out == Applied
          then OnlyRow(rows, rows', id, Account(rows[id].balance - amount, "ACTIVE", rows[id].version + 1))
          else rows' == rows)
  {
  }

  /** A debit that went through can be given back: the credit is not refused, and only the version tells. */
  lemma CreditUndoesDebit(rows: Rows, id: string, amount: int)
    requires Bounded(rows) && Apply(rows, Debit(id, amount)).1 == Applied
    ensures var (rows1, out) := Apply(Apply(rows, Debit(id, amount)).0, Credit(id, amount));
      out == Applied && OnlyRow(rows, rows1, id, rows[id].(version := rows[id].version + 2))
  {
  }

  // ---------- Histories in time ----------

  lemma RunLast(s: State, actions: seq<Action>, a: Action)
    ensures Run(s, actions + [a]) == Next(Run(s, actions), a)
  {
    assert (actions + [a])[..|actions|] == actions;
  }

  /** What one step may do to the log and to the calls: both only grow, and events are about calls there are. */
  lemma StepGrows(s: State, a: Action)
    ensures s.log <= Next(s, a).log && |s.calls| <= |Next(s, a).calls|
  {
    hide Decide, CompareAndSet;
  }

  lemma {:induction false} RunGrows(s: State, actions: seq<Action>, n: nat)
    requires n <= |actions|
    ensures Run(s, actions[..n]).log <= Run(s, actions).log
    ensures |Run(s, actions[..n]).calls| <= |Run(s, actions).calls|
    decreases |actions|
  {
    hide Next;
    if n < |actions| {
      RunGrows(s, actions[..|actions| - 1], n);
      assert actions[..|actions| - 1][..n] == actions[..n];
      StepGrows(Run(s, actions[..|actions| - 1]), actions[|actions| - 1]);
    } else {
      assert actions[..n] == actions;
    }
  }

  /**
   The history respects real time: a call that was answered before another was issued stands before it.
   */
  lemma {:induction false} RealTimeOrder(rows0: Rows, actions: seq<Action>, n: nat, i: nat, j: nat)
    requires Bounded(rows0) && n <= |actions|
    requires var s, early := Run(State(rows0, [], []), actions), Run(State(rows0, [], []), actions[..n]);
      && i < |s.log| && j < |s.log|
      && s.log[i].call < |early.calls| && early.calls[s.log[i].call].phase.Done?
      && s.log[j].call >= |early.calls|
    ensures i < j
  {
    Linearizable(rows0, actions);
    Linearizable(rows0, actions[..n]);
    RunGrows(State(rows0, [], []), actions, n);
    var s, early := Run(State(rows0, [], []), actions), Run(State(rows0, [], []), actions[..n]);
    hide Run, Replay, AllFresh, Bounded;
    assert Logged(early, s.log[i].call);
    var k :| 0 <= k < |early.log| && early.log[k].call == s.log[i].call;
    assert forall x :: 0 <= x < |early.log| ==> s.log[x] == early.log[x];
  }

  /** A loaded write stays the one that was loaded until the call loads again. */
  lemma {:induction false} WriteStays(s: State, c: nat, written: Account, rest: seq<Action>)
    requires c < |s.calls| && s.calls[c].phase == Loaded(written)
    requires forall k :: 0 <= k < |rest| ==> rest[k] != Load(c)
    ensures var t := Run(s, rest);
      c < |t.calls| && t.calls[c].op == s.calls[c].op && (t.calls[c].phase.Loaded? ==> t.calls[c].phase == Loaded(written))
  {
    if rest != [] {
      WriteStays(s, c, written, rest[..|rest| - 1]);
      hide Decide, CompareAndSet;
    }
  }

  lemma {:induction false} RunConcat(s: State, a: seq<Action>, b: seq<Action>)
    ensures Run(s, a + b) == Run(Run(s, a), b)
  {
    hide Next;
    if b == [] {
      assert a + b == a;
    } else {
      RunConcat(s, a, b[..|b| - 1]);
      assert (a + b)[..|a + b| - 1] == a + b[..|b| - 1];
    }
  }

  /** The version of a pending write counts the successes at its read; the row's counts those there are now. */
  lemma CommitAnswer(rows0: Rows, s: State, c: nat)
    requires Inv(rows0, s) && Enabled(s, Commit(c)) && s.calls[c].op.id in rows0
    ensures var id, w := s.calls[c].op.id, s.calls[c].phase.written;
      Next(s, Commit(c)).calls[c].phase
      == Done(if w.version - rows0[id].version < Successes(s.log, id) then Conflict else Applied)
  {
    assert Fresh(s.rows, s.calls[c]);
    ReplayTotals(rows0, s.log, s.calls[c].op.id);
    hide Replay, Successes;
  }

  lemma {:induction false} ReplayKeys(rows0: Rows, log: seq<Event>)
    requires Replay(rows0, log).Some?
    ensures Replay(rows0, log).value.Keys == rows0.Keys
  {
    if log != [] {
      ReplayKeys(rows0, log[..|log| - 1]);
      hide Decide;
    }
  }

  lemma {:induction false} DoneStays(s: State, c: nat, rest: seq<Action>)
    requires c < |s.calls| && s.calls[c].phase.Done?
    ensures c < |Run(s, rest).calls| && Run(s, rest).calls[c] == s.calls[c]
  {
    if rest != [] {
      DoneStays(s, c, rest[..|rest| - 1]);
      hide Decide, CompareAndSet;
    }
  }

  lemma LoadCounts(rows0: Rows, s: State, c: nat)
    requires Inv(rows0, s) && Enabled(s, Load(c)) && Next(s, Load(c)).calls[c].phase.Loaded? && s.calls[c].op.id in rows0
    ensures var id := s.calls[c].op.id;
      Next(s, Load(c)).calls[c].phase.written.version == rows0[id].version + Successes(s.log, id)
  {
    ReplayTotals(rows0, s.log, s.calls[c].op.id);
    hide Replay, Successes;
  }

  /**
   A call that read the row after `before`, and has not read it again since, is turned down when it writes
   exactly if another call on the account has succeeded in between; otherwise its write is applied.
   */
  lemma {:induction false} ConflictIff(rows0: Rows, before: seq<Action>, c: nat, rest: seq<Action>)
    requires Bounded(rows0) && (forall k :: 0 <= k < |rest| ==> rest[k] != Load(c))
    requires Enabled(Run(State(rows0, [], []), before), Load(c))
    requires Enabled(Run(State(rows0, [], []), before + [Load(c)] + rest), Commit(c))
    ensures var s, t := Run(State(rows0, [], []), before), Run(State(rows0, [], []), before + [Load(c)] + rest);
      var id := s.calls[c].op.id;
      Next(t, Commit(c)).calls[c].phase == Done(if Successes(s.log, id) < Successes(t.log, id) then Conflict else Applied)
  {
    var start := State(rows0, [], []);
    var s, t := Run(start, before), Run(start, before + [Load(c)] + rest);
    Linearizable(rows0, before);
    Linearizable(rows0, before + [Load(c)] + rest);
    RunLast(start, before, Load(c));
    RunConcat(start, before + [Load(c)], rest);
    ReplayKeys(rows0, s.log);
    var loaded := Next(s, Load(c));
    hide Run, Replay, LogMatches, AllFresh, Successes, Bounded;
    if loaded.calls[c].phase.Loaded? {
      assert s.calls[c].op.id in s.rows.Keys;
      WriteStays(loaded, c, loaded.calls[c].phase.written, rest);
      LoadCounts(rows0, s, c);
      CommitAnswer(rows0, t, c);
    } else {
      DoneStays(loaded, c, rest);
    }
  }
}
