/**
 Notification delivery: workers claim due rows, send them, and write the outcome back. The claim is one
 atomic step; sending and writing back interleave freely, and a write may fail or be reported as failed.
 */
module Dispatcher {
  import opened Wrappers

  datatype Status = Pending | Processing | Sent | Failed | Retrying

  /** `due` is the time from which the row may be delivered. */
  datatype Row = Row(status: Status, retryCount: nat, maxRetries: nat, due: nat)

  /** What a claim returns of a row. */
  datatype Notification = Notification(id: nat, retryCount: nat, maxRetries: nat)

  /** How an attempt ends: two ways without sending anything, two with. */
  datatype Attempt = NoProvider | RenderError | SendError | SendOk

  predicate Claimable(row: Row, now: nat) {
    (row.status == Pending || row.status == Retrying) && row.due <= now
  }

  /** Rows that may be claimed together: different, due, and not yet taken. */
  ghost predicate Pickable(rows: seq<Row>, ids: seq<nat>, now: nat) {
    && (forall i :: 0 <= i < |ids| ==> ids[i] < |rows| && Claimable(rows[ids[i]], now))
    && (forall i, j :: 0 <= i < j < |ids| ==> ids[i] != ids[j])
  }

  function MarkProcessing(rows: seq<Row>, ids: seq<nat>): seq<Row> {
    seq(|rows|, i requires 0 <= i < |rows| => if i in ids then rows[i].(status := Processing) else rows[i])
  }

  /** The retry count is written only where the caller gives one. */
  function SetStatus(rows: seq<Row>, id: nat, status: Status, retryCount: Option<nat>): seq<Row> {
    if id < |rows| then rows[id := rows[id].(status := status, retryCount := retryCount.GetOr(rows[id].retryCount))] else rows
  }

  /** The status and, where it changes, the retry count written after an attempt. */
  function Outcome(n: Notification, a: Attempt): (Status, Option<nat>) {
    match a
    case SendOk => (Sent, None)
    case SendError => (if n.retryCount + 1 >= n.maxRetries then Failed else Retrying, Some(n.retryCount + 1))
    case _ => (Failed, None)
  }

  /** The record of a row that nobody else has locked. */
  predicate Picks(rows: seq<Row>, locked: set<nat>, n: Notification) {
    n.id < |rows| && n.id !in locked && n == Snapshot(rows, n.id)
  }

  class NotificationRepository {
    var rows: seq<Row>

    constructor ()
      ensures rows == []
    {
      rows := [];
    }

    /** Due rows not locked by others, up to the batch size: `SELECT ... FOR UPDATE SKIP LOCKED LIMIT`. */
    method PickDue(batchSize: nat, now: nat, locked: set<nat>) returns (picked: seq<Notification>)
      ensures |picked| <= batchSize && Pickable(rows, Ids(picked), now)
      ensures forall i :: 0 <= i < |picked| ==> Picks(rows, locked, picked[i])
      ensures |picked| < batchSize ==>
        forall id :: 0 <= id < |rows| && Claimable(rows[id], now) && id !in locked ==> id in Ids(picked)
    {
      picked := [];
      var next := 0;
      while next < |rows| && |picked| < batchSize
        invariant next <= |rows| && |picked| <= batchSize
        invariant forall i :: 0 <= i < |picked| ==>
          picked[i].id < next && picked[i].id !in locked && Claimable(rows[picked[i].id], now)
          && picked[i] == Snapshot(rows, picked[i].id)
        invariant forall i, j :: 0 <= i < j < |picked| ==> picked[i].id != picked[j].id
        invariant forall id :: 0 <= id < next && Claimable(rows[id], now) && id !in locked ==> id in Ids(picked)
      {
        if Claimable(rows[next], now) && next !in locked {
          assert Ids(picked + [Snapshot(rows, next)]) == Ids(picked) + [next];
          picked := picked + [Snapshot(rows, next)];
        }
        next := next + 1;
      }
    }

    /** One transaction: pick rows and mark them PROCESSING. It is rolled back, or committed and reported as failed. */
    method ClaimPending(batchSize: nat, now: nat, locked: set<nat>, fault: Fault) returns (claimed: Option<seq<Notification>>)
      modifies this
      ensures claimed.Some? <==> fault == Fine
      ensures fault == Fails ==> rows == old(rows)
      ensures fault == Lost ==> exists ids :: Pickable(old(rows), ids, now) && rows == MarkProcessing(old(rows), ids)
      ensures claimed.Some? ==> var ids := Ids(claimed.value);
        && |claimed.value| <= batchSize && Pickable(old(rows), ids, now) && rows == MarkProcessing(old(rows), ids)
        && (forall i :: 0 <= i < |ids| ==> Picks(old(rows), locked, claimed.value[i]))
        && (|ids| < batchSize ==>
              forall id :: 0 <= id < |old(rows)| && Claimable(old(rows)[id], now) && id !in locked ==> id in ids)
    {
      var res := PickDue(batchSize, now, locked);
      if fault == Fails {
        return None;
      }
      var ids := [];
      for i := 0 to |res|
        invariant ids == Ids(res)[..i]
      {
        ids := ids + [res[i].id];
      }
      assert ids == Ids(res);
      rows := MarkProcessing(rows, ids);
      claimed := if fault == Fine then Some(res) else None;
    }

    method UpdateStatus(id: nat, status: Status, retryCount: Option<nat>, fault: Fault) returns (ok: bool)
      modifies this
      ensures ok == (fault == Fine)
      ensures rows == if fault == Fails then old(rows) else SetStatus(old(rows), id, status, retryCount)
    {
      if fault != Fails && id < |rows| {
        rows := rows[id := rows[id].(status := status, retryCount := retryCount.GetOr(rows[id].retryCount))];
      }
      ok := fault == Fine;
    }
  }

  function Ids(ns: seq<Notification>): seq<nat> {
    seq(|ns|, i requires 0 <= i < |ns| => ns[i].id)
  }

  function Snapshot(rows: seq<Row>, id: nat): Notification
    requires id < |rows|
  {
    Notification(id, rows[id].retryCount, rows[id].maxRetries)
  }

  class Dispatcher {
    const repo: NotificationRepository
    const batchSize: nat
    /** The channel between the poll and the workers. */
    var work: seq<Notification>

    constructor (repo: NotificationRepository, batchSize: nat)
      ensures this.repo == repo && this.batchSize == batchSize && work == []
    {
      this.repo, this.batchSize := repo, batchSize;
      work := [];
    }

    /** Claims a batch and queues it; `room` is how much of it is queued before a shutdown, if there is one. */
    method Poll(now: nat, locked: set<nat>, fault: Fault, room: nat) returns (ghost claimed: seq<Notification>)
      modifies repo, `work
      ensures fault != Fine ==> claimed == []
      ensures work == old(work) + claimed[..if room < |claimed| then room else |claimed|]
      ensures fault == Fine ==>
        Pickable(old(repo.rows), Ids(claimed), now) && repo.rows == MarkProcessing(old(repo.rows), Ids(claimed))
    {
      hide Pickable, MarkProcessing, Ids;
      var notifications := repo.ClaimPending(batchSize, now, locked, fault);
      if notifications.None? {
        return [];
      }
      var batch := notifications.value;
      claimed := batch;
      var stop := if room < |batch| then room else |batch|;
      for i := 0 to stop
        invariant work == old(work) + batch[..i]
        modifies `work
      {
        work := work + [batch[i]];
      }
    }

    method MarkFailed(n: Notification, fault: Fault)
      modifies repo
      ensures repo.rows == Written(old(repo.rows), n, RenderError, fault)
    {
      var _ := repo.UpdateStatus(n.id, Failed, None, fault);
    }

    method MarkRetryOrFailed(n: Notification, fault: Fault)
      modifies repo
      ensures repo.rows == Written(old(repo.rows), n, SendError, fault)
    {
      var nextCount := n.retryCount + 1;
      var nextStatus := Retrying;
      if nextCount >= n.maxRetries {
        nextStatus := Failed;
      }
      var _ := repo.UpdateStatus(n.id, nextStatus, Some(nextCount), fault);
    }

    /** One claimed notification from the queue; `a` says how the channel and the template behave. */
    method Process(n: Notification, a: Attempt, fault: Fault)
      modifies repo
      ensures repo.rows == Written(old(repo.rows), n, a, fault)
    {
      if a == NoProvider || a == RenderError {
        MarkFailed(n, fault);
        return;
      }
      if a == SendError {
        MarkRetryOrFailed(n, fault);
        return;
      }
      var _ := repo.UpdateStatus(n.id, Sent, None, fault);
    }
  }

  /** The table after the outcome of an attempt was written, or not. */
  function Written(rows: seq<Row>, n: Notification, a: Attempt, fault: Fault): seq<Row> {
    if fault == Fails then rows else SetStatus(rows, n.id, Outcome(n, a).0, Outcome(n, a).1)
  }

  // ---------- The machine ----------

  datatype Phase = Claimed | Attempted(a: Attempt) | Finished

  /** A notification in a worker's hands or in the queue before it. */
  datatype Task = Task(n: Notification, phase: Phase)

  /** A message handed to a provider, and whether the provider took it. */
  datatype Send = Send(id: nat, ok: bool)

  /** `spoiled` are the notifications for which an attempt found no provider or no rendering. */
  datatype State = State(now: nat, rows: seq<Row>, tasks: seq<Task>, sends: seq<Send>, spoiled: seq<nat>)

  datatype Action =
    | Create(maxRetries: nat, due: nat)
    | Tick(delay: nat)
    | Claim(ids: seq<nat>, fault: Fault)
    | Try(t: nat, a: Attempt)
    | WriteBack(t: nat, fault: Fault)
    | Abandon(t: nat)

  function Tasks(rows: seq<Row>, ids: seq<nat>): seq<Task>
    requires forall i :: 0 <= i < |ids| ==> ids[i] < |rows|
  {
    seq(|ids|, i requires 0 <= i < |ids| => Task(Snapshot(rows, ids[i]), Claimed))
  }

  function SetPhase(s: State, t: nat, phase: Phase): State
    requires t < |s.tasks|
  {
    s.(tasks := s.tasks[t := s.tasks[t].(phase := phase)])
  }

  ghost predicate Enabled(s: State, a: Action) {
    match a
    case Create(_, _) => true
    case Tick(_) => true
    case Claim(ids, _) => Pickable(s.rows, ids, s.now)
    case Try(t, _) => t < |s.tasks| && s.tasks[t].phase == Claimed
    case WriteBack(t, _) => t < |s.tasks| && s.tasks[t].phase.Attempted?
    case Abandon(t) => t < |s.tasks|
  }

  /**
   One step of anyone. A worker may be abandoned at any point; a claim whose error hides a commit leaves
   rows that nobody holds.
   */
  ghost function Next(s: State, a: Action): State {
    if !Enabled(s, a) then s else
    match a
    case Create(maxRetries, due) => s.(rows := s.rows + [Row(Pending, 0, maxRetries, due)])
    case Tick(delay) => s.(now := s.now + delay)
    case Claim(ids, fault) =>
      if fault == Fails then s
      else s.(rows := MarkProcessing(s.rows, ids), tasks := s.tasks + if fault == Fine then Tasks(s.rows, ids) else [])
    case Try(t, attempt) =>
      var sent := if attempt == SendOk || attempt == SendError then [Send(s.tasks[t].n.id, attempt == SendOk)] else [];
      var spoilt := if attempt == NoProvider || attempt == RenderError then [s.tasks[t].n.id] else [];
      SetPhase(s, t, Attempted(attempt)).(sends := s.sends + sent, spoiled := s.spoiled + spoilt)
    case WriteBack(t, fault) =>
      SetPhase(s, t, Finished).(rows := Written(s.rows, s.tasks[t].n, s.tasks[t].phase.a, fault))
    case Abandon(t) => SetPhase(s, t, Finished)
  }

  ghost function Run(s: State, actions: seq<Action>): State {
    if actions == [] then s else Next(Run(s, actions[..|actions| - 1]), actions[|actions| - 1])
  }

  function Initial(now: nat): State { State(now, [], [], [], []) }

  function Count(sends: seq<Send>, id: nat, ok: bool): nat {
    if sends == [] then 0
    else Count(sends[..|sends| - 1], id, ok) + if sends[|sends| - 1] == Send(id, ok) then 1 else 0
  }

  function Most(row: Row): nat { if row.maxRetries == 0 then 1 else row.maxRetries }

  // ---------- The invariant ----------

  /** What a row's status says about the messages sent for it: `f` failed, `k` were taken. */
  predicate RowOk(row: Row, f: nat, k: nat) {
    match row.status
    case Pending => row.retryCount == 0 && f == 0 && k == 0
    case Retrying => row.retryCount == f < row.maxRetries && k == 0
    case Processing => row.retryCount <= f && f + k <= row.retryCount + 1 <= Most(row)
    case Sent => row.retryCount == f && k == 1 && f + 1 <= Most(row)
    case Failed => row.retryCount == f <= Most(row) && k == 0
  }

  /** What a task in hand says about them. */
  predicate PhaseOk(row: Row, phase: Phase, f: nat, k: nat) {
    match phase
    case Finished => true
    case Claimed => f == row.retryCount && k == 0
    case Attempted(a) =>
      (match a
       case SendOk => f == row.retryCount && k == 1
       case SendError => f == row.retryCount + 1 && k == 0
       case _ => f == row.retryCount && k == 0)
  }

  predicate TaskOk(s: State, t: nat)
    requires t < |s.tasks|
  {
    var task := s.tasks[t];
    task.phase != Finished ==>
      && task.n.id < |s.rows| && s.rows[task.n.id].status == Processing
      && task.n == Snapshot(s.rows, task.n.id)
      && PhaseOk(s.rows[task.n.id], task.phase, Count(s.sends, task.n.id, false), Count(s.sends, task.n.id, true))
  }

  /** No notification is in two hands. */
  ghost predicate Exclusive(s: State) {
    forall t, u :: 0 <= t < u < |s.tasks| && s.tasks[t].phase != Finished && s.tasks[u].phase != Finished ==>
      s.tasks[t].n.id != s.tasks[u].n.id
  }

  ghost predicate Inv(s: State) {
    && (forall id :: 0 <= id < |s.rows| ==> RowOk(s.rows[id], Count(s.sends, id, false), Count(s.sends, id, true)))
    && (forall t :: 0 <= t < |s.tasks| ==> TaskOk(s, t))
    && (forall i :: 0 <= i < |s.sends| ==> s.sends[i].id < |s.rows|)
    && Exclusive(s)
  }

  lemma {:induction false} CountAbsent(sends: seq<Send>, id: nat, ok: bool)
    requires forall i :: 0 <= i < |sends| ==> sends[i].id != id
    ensures Count(sends, id, ok) == 0
  {
    if sends != [] {
      CountAbsent(sends[..|sends| - 1], id, ok);
    }
  }

  lemma CountLast(sends: seq<Send>, e: Send, id: nat, ok: bool)
    ensures Count(sends + [e], id, ok) == Count(sends, id, ok) + if e == Send(id, ok) then 1 else 0
  {
    assert (sends + [e])[..|sends|] == sends;
  }

  lemma CreateKeeps(s: State, maxRetries: nat, due: nat)
    requires Inv(s)
    ensures Inv(Next(s, Create(maxRetries, due)))
  {
    CountAbsent(s.sends, |s.rows|, true);
    CountAbsent(s.sends, |s.rows|, false);
    hide Count;
    var s' := Next(s, Create(maxRetries, due));
    forall t | 0 <= t < |s'.tasks| ensures TaskOk(s', t) {
      assert TaskOk(s, t);
    }
  }

  /** A claimed row becomes PROCESSING; its numbers stay. */
  lemma ClaimedRowOk(row: Row, f: nat, k: nat, now: nat)
    requires RowOk(row, f, k) && Claimable(row, now)
    ensures RowOk(row.(status := Processing), f, k) && PhaseOk(row.(status := Processing), Claimed, f, k)
  {
  }

  lemma MarkedAt(rows: seq<Row>, ids: seq<nat>, id: nat)
    requires id < |rows|
    ensures |MarkProcessing(rows, ids)| == |rows|
    ensures MarkProcessing(rows, ids)[id] == if id in ids then rows[id].(status := Processing) else rows[id]
  {
  }

  /** A row that a task holds is not there to be claimed. */
  lemma NotClaimed(rows: seq<Row>, ids: seq<nat>, now: nat, id: nat)
    requires Pickable(rows, ids, now) && id < |rows| && rows[id].status == Processing
    ensures id !in ids
  {
    forall i | 0 <= i < |ids| ensures ids[i] != id {
      assert Claimable(rows[ids[i]], now);
    }
  }

  lemma ClaimOldTask(s: State, ids: seq<nat>, fault: Fault, t: nat)
    requires Pickable(s.rows, ids, s.now) && t < |s.tasks| && TaskOk(s, t)
    ensures TaskOk(Next(s, Claim(ids, fault)), t)
  {
    var id := s.tasks[t].n.id;
    if s.tasks[t].phase != Finished {
      NotClaimed(s.rows, ids, s.now, id);
      MarkedAt(s.rows, ids, id);
    }
    hide Count, PhaseOk, MarkProcessing, Pickable;
  }

  lemma ClaimNewTask(s: State, ids: seq<nat>, i: nat)
    requires Pickable(s.rows, ids, s.now) && i < |ids|
    requires RowOk(s.rows[ids[i]], Count(s.sends, ids[i], false), Count(s.sends, ids[i], true))
    ensures |Next(s, Claim(ids, Fine)).tasks| == |s.tasks| + |ids|
    ensures TaskOk(Next(s, Claim(ids, Fine)), |s.tasks| + i)
  {
    var id := ids[i];
    assert id in ids;
    MarkedAt(s.rows, ids, id);
    ClaimedRowOk(s.rows[id], Count(s.sends, id, false), Count(s.sends, id, true), s.now);
    hide Count, PhaseOk, RowOk, MarkProcessing;
  }

  lemma ClaimTaskOk(s: State, ids: seq<nat>, fault: Fault, t: nat)
    requires Inv(s) && Pickable(s.rows, ids, s.now) && t < |Next(s, Claim(ids, fault)).tasks|
    ensures TaskOk(Next(s, Claim(ids, fault)), t)
  {
    hide Count, Exclusive, Snapshot, PhaseOk;
    if t < |s.tasks| {
      assert TaskOk(s, t);
      ClaimOldTask(s, ids, fault, t);
    } else {
      var id := ids[t - |s.tasks|];
      assert RowOk(s.rows[id], Count(s.sends, id, false), Count(s.sends, id, true));
      hide RowOk, TaskOk;
      ClaimNewTask(s, ids, t - |s.tasks|);
    }
  }

  lemma TasksAt(rows: seq<Row>, ids: seq<nat>, i: nat)
    requires (forall k :: 0 <= k < |ids| ==> ids[k] < |rows|) && i < |ids|
    ensures |Tasks(rows, ids)| == |ids| && Tasks(rows, ids)[i].n.id == ids[i]
  {
  }

  /** Tasks keep their notifications; new ones come after the old. */
  lemma ClaimedId(s: State, ids: seq<nat>, fault: Fault, t: nat)
    requires Pickable(s.rows, ids, s.now) && t < |Next(s, Claim(ids, fault)).tasks|
    ensures var s' := Next(s, Claim(ids, fault));
      if t < |s.tasks| then s'.tasks[t] == s.tasks[t]
      else t - |s.tasks| < |ids| && s'.tasks[t].n.id == ids[t - |s.tasks|]
  {
    assert Next(s, Claim(ids, fault)).tasks == s.tasks + if fault == Fine then Tasks(s.rows, ids) else [];
    hide Next, MarkProcessing;
    if t >= |s.tasks| {
      TasksAt(s.rows, ids, t - |s.tasks|);
    }
    hide Tasks, Pickable;
  }

  lemma ClaimExclusive(s: State, ids: seq<nat>, fault: Fault)
    requires Inv(s) && Pickable(s.rows, ids, s.now)
    ensures Exclusive(Next(s, Claim(ids, fault)))
  {
    hide Count, RowOk, PhaseOk, MarkProcessing, Tasks;
    var s' := Next(s, Claim(ids, fault));
    forall t, u | 0 <= t < u < |s'.tasks| && s'.tasks[t].phase != Finished && s'.tasks[u].phase != Finished
      ensures s'.tasks[t].n.id != s'.tasks[u].n.id
    {
      ClaimedId(s, ids, fault, t);
      ClaimedId(s, ids, fault, u);
      if t < |s.tasks| <= u {
        assert TaskOk(s, t);
        NotClaimed(s.rows, ids, s.now, s.tasks[t].n.id);
      }
    }
  }

  lemma ClaimKeeps(s: State, ids: seq<nat>, fault: Fault)
    requires Inv(s) && Pickable(s.rows, ids, s.now)
    ensures Inv(Next(s, Claim(ids, fault)))
  {
    hide Count, RowOk, PhaseOk;
    var s' := Next(s, Claim(ids, fault));
    forall id | 0 <= id < |s'.rows| ensures RowOk(s'.rows[id], Count(s'.sends, id, false), Count(s'.sends, id, true)) {
      if id in ids {
        ClaimedRowOk(s.rows[id], Count(s.sends, id, false), Count(s.sends, id, true), s.now);
      }
    }
    forall t | 0 <= t < |s'.tasks| ensures TaskOk(s', t) {
      ClaimTaskOk(s, ids, fault, t);
    }
    ClaimExclusive(s, ids, fault);
  }

  function Bump(id: nat, a: Attempt, i: nat, ok: bool): nat {
    if i == id && a == (if ok then SendOk else SendError) then 1 else 0
  }

  lemma TryCounts(s: State, t: nat, a: Attempt, i: nat, ok: bool)
    requires Enabled(s, Try(t, a))
    ensures Count(Next(s, Try(t, a)).sends, i, ok) == Count(s.sends, i, ok) + Bump(s.tasks[t].n.id, a, i, ok)
  {
    CountLast(s.sends, Send(s.tasks[t].n.id, a == SendOk), i, ok);
    assert s.sends + [] == s.sends;
  }

  lemma TriedOk(row: Row, a: Attempt, f: nat, k: nat)
    requires RowOk(row, f, k) && row.status == Processing && PhaseOk(row, Claimed, f, k)
    ensures var f', k' := f + Bump(0, a, 0, false), k + Bump(0, a, 0, true);
      RowOk(row, f', k') && PhaseOk(row, Attempted(a), f', k')
  {
  }

  lemma TryTaskOk(s: State, t: nat, a: Attempt, u: nat)
    requires Inv(s) && Enabled(s, Try(t, a)) && u < |s.tasks|
    ensures TaskOk(Next(s, Try(t, a)), u)
  {
    var id := s.tasks[t].n.id;
    assert TaskOk(s, t) && TaskOk(s, u);
    TriedOk(s.rows[id], a, Count(s.sends, id, false), Count(s.sends, id, true));
    hide Count, RowOk, PhaseOk;
    TryCounts(s, t, a, s.tasks[u].n.id, false);
    TryCounts(s, t, a, s.tasks[u].n.id, true);
  }

  lemma TryRowOk(s: State, t: nat, a: Attempt, i: nat)
    requires Inv(s) && Enabled(s, Try(t, a)) && i < |s.rows|
    ensures RowOk(s.rows[i], Count(Next(s, Try(t, a)).sends, i, false), Count(Next(s, Try(t, a)).sends, i, true))
  {
    var id := s.tasks[t].n.id;
    assert TaskOk(s, t);
    TriedOk(s.rows[id], a, Count(s.sends, id, false), Count(s.sends, id, true));
    hide Count, RowOk, PhaseOk, Exclusive;
    TryCounts(s, t, a, i, false);
    TryCounts(s, t, a, i, true);
  }

  lemma TryKeeps(s: State, t: nat, a: Attempt)
    requires Inv(s) && Enabled(s, Try(t, a))
    ensures Inv(Next(s, Try(t, a)))
  {
    var s' := Next(s, Try(t, a));
    assert TaskOk(s, t);
    forall i | 0 <= i < |s'.rows| ensures RowOk(s'.rows[i], Count(s'.sends, i, false), Count(s'.sends, i, true)) {
      TryRowOk(s, t, a, i);
    }
    forall u | 0 <= u < |s'.tasks| ensures TaskOk(s', u) {
      TryTaskOk(s, t, a, u);
    }
    hide Count, RowOk, TaskOk;
  }

  lemma WriteBackKeeps(s: State, t: nat, fault: Fault)
    requires Inv(s) && Enabled(s, WriteBack(t, fault))
    ensures Inv(Next(s, WriteBack(t, fault)))
  {
    hide Count;
    var s' := Next(s, WriteBack(t, fault));
    assert TaskOk(s, t);
    forall u | 0 <= u < |s'.tasks| ensures TaskOk(s', u) {
      assert TaskOk(s, u);
    }
  }

  lemma AbandonKeeps(s: State, t: nat)
    requires Inv(s) && Enabled(s, Abandon(t))
    ensures Inv(Next(s, Abandon(t)))
  {
    hide Count;
    var s' := Next(s, Abandon(t));
    forall u | 0 <= u < |s'.tasks| ensures TaskOk(s', u) {
      assert TaskOk(s, u);
    }
  }

  lemma NextKeeps(s: State, a: Action)
    requires Inv(s)
    ensures Inv(Next(s, a))
  {
    if Enabled(s, a) {
      match a
      case Create(maxRetries, due) => CreateKeeps(s, maxRetries, due);
      case Tick(delay) => TickKeeps(s, delay);
      case Claim(ids, fault) => ClaimKeeps(s, ids, fault);
      case Try(t, attempt) => TryKeeps(s, t, attempt);
      case WriteBack(t, fault) => WriteBackKeeps(s, t, fault);
      case Abandon(t) => AbandonKeeps(s, t);
    }
  }

  lemma TickKeeps(s: State, delay: nat)
    requires Inv(s)
    ensures Inv(Next(s, Tick(delay)))
  {
    hide Count;
    var s' := Next(s, Tick(delay));
    forall u | 0 <= u < |s'.tasks| ensures TaskOk(s', u) {
      assert TaskOk(s, u);
    }
  }

  lemma {:induction false} Reachable(now: nat, actions: seq<Action>)
    ensures Inv(Run(Initial(now), actions))
  {
    hide Next;
    if actions != [] {
      Reachable(now, actions[..|actions| - 1]);
      NextKeeps(Run(Initial(now), actions[..|actions| - 1]), actions[|actions| - 1]);
    }
  }

  // ---------- What every run guarantees ----------

  predicate Holds(s: State, t: nat, id: nat) {
    t < |s.tasks| && s.tasks[t].phase != Finished && s.tasks[t].n.id == id
  }

  /** No notification is ever in two workers' hands, and one in hand is marked PROCESSING. */
  lemma OneHolder(now: nat, actions: seq<Action>, t: nat, u: nat, id: nat)
    requires Holds(Run(Initial(now), actions), t, id) && Holds(Run(Initial(now), actions), u, id)
    ensures t == u && id < |Run(Initial(now), actions).rows| && Run(Initial(now), actions).rows[id].status == Processing
  {
    Reachable(now, actions);
    hide Run;
    var s := Run(Initial(now), actions);
    assert TaskOk(s, t);
  }

  /**
   A notification is handed to its provider at most max(1, MaxRetries) times, taken at most once, and its
   retry count never exceeds the failed sends, and lags behind them by one at the most.
   */
  lemma AttemptsBounded(now: nat, actions: seq<Action>, id: nat)
    requires id < |Run(Initial(now), actions).rows|
    ensures var s := Run(Initial(now), actions);
      var f, k := Count(s.sends, id, false), Count(s.sends, id, true);
      && f + k <= Most(s.rows[id]) && k <= 1
      && s.rows[id].retryCount <= f <= s.rows[id].retryCount + 1
      && (s.rows[id].status == Sent ==> k == 1)
  {
    Reachable(now, actions);
    hide Run, Count;
    var s := Run(Initial(now), actions);
    assert RowOk(s.rows[id], Count(s.sends, id, false), Count(s.sends, id, true));
  }

  predicate Over(status: Status) { status == Sent || status == Failed }

  /** SENT and FAILED are final: no step of anyone changes such a row or sends its message again. */
  lemma FinalIsFinal(now: nat, actions: seq<Action>, a: Action, id: nat)
    requires id < |Run(Initial(now), actions).rows| && Over(Run(Initial(now), actions).rows[id].status)
    ensures var s, s' := Run(Initial(now), actions), Next(Run(Initial(now), actions), a);
      && id < |s'.rows| && s'.rows[id] == s.rows[id]
      && Count(s'.sends, id, true) == Count(s.sends, id, true) && Count(s'.sends, id, false) == Count(s.sends, id, false)
  {
    Reachable(now, actions);
    hide Run;
    OverStays(Run(Initial(now), actions), a, id);
  }

  lemma OverStays(s: State, a: Action, id: nat)
    requires Inv(s) && id < |s.rows| && Over(s.rows[id].status)
    ensures var s' := Next(s, a);
      && id < |s'.rows| && s'.rows[id] == s.rows[id]
      && Count(s'.sends, id, true) == Count(s.sends, id, true) && Count(s'.sends, id, false) == Count(s.sends, id, false)
  {
    if Enabled(s, a) {
      match a
      case Try(t, attempt) =>
        assert TaskOk(s, t);
        CountLast(s.sends, Send(s.tasks[t].n.id, attempt == SendOk), id, true);
        CountLast(s.sends, Send(s.tasks[t].n.id, attempt == SendOk), id, false);
        assert s.sends + [] == s.sends;
      case WriteBack(t, _) => assert TaskOk(s, t);
      case _ =>
    }
  }

  // ---------- When a notification is given up ----------

  /** What the table says of a notification after an attempt whose write takes effect; no other row changes. */
  lemma WrittenExact(rows: seq<Row>, n: Notification, a: Attempt, fault: Fault)
    requires n.id < |rows|
    ensures var row, row' := rows[n.id], Written(rows, n, a, fault)[n.id];
      && |Written(rows, n, a, fault)| == |rows|
      && (forall id :: 0 <= id < |rows| && id != n.id ==> Written(rows, n, a, fault)[id] == rows[id])
      && row'.maxRetries == row.maxRetries && row'.due == row.due
      && (fault == Fails ==> row' == row)
      && (fault != Fails ==>
            && row'.retryCount == (if a == SendError then n.retryCount + 1 else row.retryCount)
            && (row'.status == Sent <==> a == SendOk)
            && (row'.status == Retrying <==> a == SendError && n.retryCount + 1 < n.maxRetries)
            && (row'.status == Failed <==>
                  a == NoProvider || a == RenderError || (a == SendError && n.retryCount + 1 >= n.maxRetries)))
  {
  }

  /** A FAILED notification could not be delivered at all, or all its attempts were made and failed. */
  predicate GivenUpFor(s: State, id: nat)
    requires id < |s.rows|
  {
    id in s.spoiled || Count(s.sends, id, false) >= (if s.rows[id].maxRetries == 0 then 1 else s.rows[id].maxRetries)
  }

  /** Tasks are for notifications that are due, and remember an attempt that was spoiled. */
  predicate TaskTimely(s: State, t: nat)
    requires t < |s.tasks|
  {
    var task := s.tasks[t];
    && task.n.id < |s.rows| && s.rows[task.n.id].due <= s.now
    && (task.phase == Attempted(NoProvider) || task.phase == Attempted(RenderError) ==> task.n.id in s.spoiled)
  }

  ghost predicate Reasons(s: State) {
    && (forall id :: 0 <= id < |s.rows| && s.rows[id].status == Failed ==> GivenUpFor(s, id))
    && (forall t :: 0 <= t < |s.tasks| ==> TaskTimely(s, t))
  }

  lemma ClaimReasons(s: State, ids: seq<nat>, fault: Fault)
    requires Reasons(s) && Pickable(s.rows, ids, s.now)
    ensures Reasons(Next(s, Claim(ids, fault)))
  {
    hide Count;
    var s' := Next(s, Claim(ids, fault));
    forall t | 0 <= t < |s'.tasks| ensures TaskTimely(s', t) {
      if t < |s.tasks| {
        assert TaskTimely(s, t);
      } else {
        assert Claimable(s.rows[ids[t - |s.tasks|]], s.now);
      }
    }
    forall id | 0 <= id < |s'.rows| && s'.rows[id].status == Failed ensures GivenUpFor(s', id) {
      assert s.rows[id].status == Failed;
    }
  }

  lemma TryReasons(s: State, t: nat, a: Attempt)
    requires Reasons(s) && Enabled(s, Try(t, a))
    ensures Reasons(Next(s, Try(t, a)))
  {
    var s' := Next(s, Try(t, a));
    forall id | 0 <= id < |s'.rows| && s'.rows[id].status == Failed ensures GivenUpFor(s', id) {
      assert GivenUpFor(s, id);
      TryCounts(s, t, a, id, false);
    }
    hide Count;
    forall u | 0 <= u < |s'.tasks| ensures TaskTimely(s', u) {
      assert TaskTimely(s, u);
    }
  }

  lemma WriteBackReasons(s: State, t: nat, fault: Fault)
    requires Reasons(s) && Inv(s) && Enabled(s, WriteBack(t, fault))
    ensures Reasons(Next(s, WriteBack(t, fault)))
  {
    hide Count;
    var s' := Next(s, WriteBack(t, fault));
    var task := s.tasks[t];
    assert TaskOk(s, t) && TaskTimely(s, t);
    WrittenExact(s.rows, task.n, task.phase.a, fault);
    hide Written;
    forall id | 0 <= id < |s'.rows| && s'.rows[id].status == Failed ensures GivenUpFor(s', id) {
      if id != task.n.id || fault == Fails {
        assert GivenUpFor(s, id);
      }
    }
    forall u | 0 <= u < |s'.tasks| ensures TaskTimely(s', u) {
      assert TaskTimely(s, u);
    }
  }

  lemma QuietReasons(s: State, a: Action)
    requires Reasons(s) && Inv(s) && (a.Create? || a.Tick? || a.Abandon?)
    ensures Reasons(Next(s, a))
  {
    hide Count;
    var s' := Next(s, a);
    forall id | 0 <= id < |s'.rows| && s'.rows[id].status == Failed ensures GivenUpFor(s', id) {
      assert GivenUpFor(s, id);
    }
    forall u | 0 <= u < |s'.tasks| ensures TaskTimely(s', u) {
      assert TaskTimely(s, u);
    }
  }

  lemma {:induction false} ReasonsReachable(now: nat, actions: seq<Action>)
    ensures Reasons(Run(Initial(now), actions))
  {
    if actions != [] {
      var before, a := actions[..|actions| - 1], actions[|actions| - 1];
      ReasonsReachable(now, before);
      Reachable(now, before);
      var s := Run(Initial(now), before);
      hide Reasons, Inv, Run;
      if Enabled(s, a) {
        match a
        case Claim(ids, fault) => ClaimReasons(s, ids, fault);
        case Try(t, attempt) => TryReasons(s, t, attempt);
        case WriteBack(t, fault) => WriteBackReasons(s, t, fault);
        case _ => QuietReasons(s, a);
      }
    }
  }

  /**
   In every run a notification is FAILED only after an attempt that found no provider or no rendering, or after
   max(1, MaxRetries) sends that failed; and it is in a worker's hands only once it is due.
   */
  lemma GivenUpOnlyAfter(now: nat, actions: seq<Action>, id: nat)
    requires id < |Run(Initial(now), actions).rows|
    ensures var s := Run(Initial(now), actions);
      && (s.rows[id].status == Failed ==>
            id in s.spoiled || Count(s.sends, id, false) >= (if s.rows[id].maxRetries == 0 then 1 else s.rows[id].maxRetries))
      && (forall t :: 0 <= t < |s.tasks| && s.tasks[t].n.id == id ==> s.rows[id].due <= s.now)
  {
    ReasonsReachable(now, actions);
    var s := Run(Initial(now), actions);
    hide Run, Count;
    forall t | 0 <= t < |s.tasks| && s.tasks[t].n.id == id ensures s.rows[id].due <= s.now {
      assert TaskTimely(s, t);
    }
  }

  // ---------- And that it is not given up before ----------

  ghost predicate Waiting(s: State, id: nat) {
    id < |s.rows| && (s.rows[id].status == Pending || s.rows[id].status == Retrying) && s.rows[id].due <= s.now
  }

  /** A notification that is due can be claimed by a worker of its own. */
  lemma CanBeClaimed(s: State, id: nat)
    requires Waiting(s, id)
    ensures var (s', t) := (Next(s, Claim([id], Fine)), |s.tasks|);
      && |s'.tasks| == t + 1 && s'.tasks[t] == Task(Snapshot(s.rows, id), Claimed)
      && s'.now == s.now && s'.sends == s.sends && s'.spoiled == s.spoiled
      && |s'.rows| == |s.rows| && s'.rows[id] == s.rows[id].(status := Processing)
  {
    assert [id][0] == id;
  }

  lemma RunMore(s: State, actions: seq<Action>, a: Action)
    ensures Run(s, actions + [a]) == Next(Run(s, actions), a)
  {
    hide Next;
    assert (actions + [a])[..|actions|] == actions;
  }

  lemma RunThree(s: State, a: Action, b: Action, c: Action)
    ensures Run(s, [a, b, c]) == Next(Next(Next(s, a), b), c)
  {
    assert Run(s, []) == s;
    RunMore(s, [], a);
    RunMore(s, [a], b);
    RunMore(s, [a, b], c);
    assert [] + [a] == [a] && [a] + [b] == [a, b] && [a, b] + [c] == [a, b, c];
    hide Run, Next;
  }

  /** An attempt of a claimed notification and the write that follows. */
  lemma Attempting(s: State, t: nat, a: Attempt)
    requires t < |s.tasks| && s.tasks[t].phase == Claimed && s.tasks[t].n.id < |s.rows|
    ensures var s' := Next(Next(s, Try(t, a)), WriteBack(t, Fine));
      && s'.rows == Written(s.rows, s.tasks[t].n, a, Fine) && s'.now == s.now && |s'.tasks| == |s.tasks|
  {
    hide Written;
  }

  /** From any state, a notification that is due can be claimed, sent and be SENT. */
  lemma CanBeSent(s: State, id: nat)
    requires Waiting(s, id)
    ensures var t := |s.tasks|;
      var s' := Run(s, [Claim([id], Fine), Try(t, SendOk), WriteBack(t, Fine)]);
      id < |s'.rows| && s'.rows[id].status == Sent
  {
    var t := |s.tasks|;
    CanBeClaimed(s, id);
    RunThree(s, Claim([id], Fine), Try(t, SendOk), WriteBack(t, Fine));
    var s1 := Next(s, Claim([id], Fine));
    Attempting(s1, t, SendOk);
    WrittenExact(s1.rows, s1.tasks[t].n, SendOk, Fine);
    hide Run, Next, Written;
  }

  /**
   In every run, if a send fails and that is written while an attempt is left, the notification is RETRYING, is due,
   and can be sent after all.
   */
  lemma FailedSendIsRetried(now: nat, actions: seq<Action>, t: nat)
    requires var s := Run(Initial(now), actions);
      && t < |s.tasks| && s.tasks[t].phase == Claimed
      && s.tasks[t].n.retryCount + 1 < s.tasks[t].n.maxRetries
    ensures var s := Run(Initial(now), actions);
      var id := s.tasks[t].n.id;
      var s1 := Next(Next(s, Try(t, SendError)), WriteBack(t, Fine));
      var u := |s1.tasks|;
      var s2 := Run(s1, [Claim([id], Fine), Try(u, SendOk), WriteBack(u, Fine)]);
      && id < |s1.rows| && s1.rows[id].status == Retrying && s1.rows[id].retryCount == s.tasks[t].n.retryCount + 1
      && id < |s2.rows| && s2.rows[id].status == Sent
  {
    ReasonsReachable(now, actions);
    var s := Run(Initial(now), actions);
    hide Run;
    assert TaskTimely(s, t);
    Attempting(s, t, SendError);
    WrittenExact(s.rows, s.tasks[t].n, SendError, Fine);
    hide Next, Written, Reasons;
    CanBeSent(Next(Next(s, Try(t, SendError)), WriteBack(t, Fine)), s.tasks[t].n.id);
  }
}
