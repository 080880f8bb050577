/**
 The payment orchestrator as it is written: one method over a transaction repository and the
 account service. A ghost copy of the concurrent machine moves along with it, so that every
 state the method can leave behind is a state the machine can reach.
 */
module Orchestration {
  import opened Wrappers
  import L = Ledger
  import opened Saga
  import opened Strconv

  /** How each outgoing call goes; `debit`, `credit` and `refund` say whether account-svc was reached. */
  datatype Faults = Faults(
    lookup: Fault, balance: Fault, create: Fault, reread: Fault, processing: Fault,
    debit: bool, credit: bool, refund: bool, final: Fault)

  datatype Execution = Execution(rows: L.Rows, txns: seq<Txn>, response: Response)

  function Call(rows: L.Rows, op: L.Op, reached: bool): (L.Rows, L.Outcome) {
    if reached then L.Apply(rows, op) else (rows, L.Unreachable)
  }

  function After(status: Status, fault: Fault): Status {
    if fault == Fails then Processing else status
  }

  /** Crediting the destination of a debited transaction, or giving the money back. */
  function CreditOrRefund(rows: L.Rows, t: nat, input: Input, f: Faults): (L.Rows, Status, Response) {
    var (rows1, credited) := Call(rows, LegOp(input, L.CreditLeg), f.credit);
    if credited == L.Applied then
      (rows1, After(Success, f.final), if f.final == Fine then Completed(t) else Errored(t, NotMarked))
    else
      var (rows2, refunded) := Call(rows1, LegOp(input, L.RefundLeg), f.refund);
      (rows2, After(Failed, f.final), Errored(t, CreditFailed(refunded == L.Applied)))
  }

  /** The money movement of a transaction that is already PROCESSING: new rows, final status, response. */
  function Move(rows: L.Rows, t: nat, input: Input, f: Faults): (L.Rows, Status, Response) {
    var (rows1, debited) := Call(rows, LegOp(input, L.DebitLeg), f.debit);
    if debited == L.Applied then CreditOrRefund(rows1, t, input, f)
    else (rows1, After(Failed, f.final), Errored(t, DebitFailed))
  }

  /** Inserting the pending row, or finding out why not: new rows, and the response that ends the request early. */
  function Created(txns: seq<Txn>, r: nat, input: Input, f: Faults): (seq<Txn>, Option<Response>) {
    if input.amount <= 0 || f.create == Fails then (txns, Some(Refused))
    else
      var txns' := txns + [Txn(input, Pending, r)];
      (txns', if f.create == Fine then None
              else if f.reread == Fine then Some(Replayed(|txns|, Pending))
              else Some(Refused))
  }

  /** The response that ends a request before anything is recorded, if any. */
  function Admitted(rows: L.Rows, txns: seq<Txn>, input: Input, f: Faults): Option<Response> {
    var found := FindKey(txns, input.key);
    if f.lookup != Fine then Some(Refused)
    else if found.Some? then Some(Replayed(found.value, txns[found.value].status))
    else if f.balance != Fine || !CheckSource(rows, input) then Some(Refused)
    else None
  }

  /** From a fresh PENDING row on. */
  function Started(rows: L.Rows, t: nat, input: Input, f: Faults): (L.Rows, Status, Response) {
    match f.processing
    case Fine => Move(rows, t, input, f)
    case Fails => (rows, Pending, Errored(t, NotStarted))
    case Lost => (rows, Processing, Errored(t, NotStarted))
  }

  /** What one uninterrupted execution does. `r` numbers the request; it only labels the new row. */
  function Executed(rows: L.Rows, txns: seq<Txn>, r: nat, input: Input, f: Faults): Execution {
    var refused := Admitted(rows, txns, input, f);
    var (txns', early) := Created(txns, r, input, f);
    if refused.Some? then Execution(rows, txns, refused.value)
    else if early.Some? then Execution(rows, txns', early.value)
    else
      var (rows', status, response) := Started(rows, |txns|, input, f);
      Execution(rows', txns + [Txn(input, status, r)], response)
  }

  // ---------- What the sequential payment means ----------

  /** Nothing fails before the final status write. */
  predicate NothingFails(f: Faults) {
    f.lookup == Fine && f.balance == Fine && f.create == Fine && f.processing == Fine && f.debit && f.credit
  }

  predicate Active(rows: L.Rows, id: string) { id in rows && rows[id].status == "ACTIVE" }

  /** What must hold for the money to arrive. */
  predicate Payable(rows: L.Rows, txns: seq<Txn>, input: Input) {
    && FindKey(txns, input.key).None? && input.amount > 0
    && Active(rows, input.source) && rows[input.source].balance >= input.amount
    && Active(rows, input.dest)
    && rows[input.dest].balance + (if input.dest == input.source then 0 else input.amount) <= MAX_INT64
  }

  /** The rows after an amount went from one account to another, one write each. */
  ghost predicate Transferred(before: L.Rows, after: L.Rows, input: Input) {
    && (forall id :: id in before <==> id in after)
    && (forall id :: id in before ==>
          after[id] == L.Account(
            before[id].balance - (if id == input.source then input.amount else 0)
              + (if id == input.dest then input.amount else 0),
            before[id].status,
            before[id].version + (if id == input.source then 1 else 0) + (if id == input.dest then 1 else 0)))
  }

  /**
   When nothing fails before the final status write, the money arrives exactly if the payment is payable: the
   source loses the amount, the destination gains it and no other account changes. The new row says SUCCESS
   unless the write failed, and the caller is told so unless an error was reported.
   */
  lemma CompletesIff(rows: L.Rows, txns: seq<Txn>, r: nat, input: Input, f: Faults)
    requires NothingFails(f)
    ensures var e := Executed(rows, txns, r, input, f);
      && (Payable(rows, txns, input) ==>
            && Transferred(rows, e.rows, input)
            && e.txns == txns + [Txn(input, After(Success, f.final), r)]
            && e.response == if f.final == Fine then Completed(|txns|) else Errored(|txns|, NotMarked))
      && (!Payable(rows, txns, input) ==> !e.response.Completed? && e.response != Errored(|txns|, NotMarked))
  {
    hide FindKey;
  }

  /** Executing appends at most the row of this payment, and only under a new key with a positive amount. */
  lemma ExecutedAppends(rows: L.Rows, txns: seq<Txn>, r: nat, input: Input, f: Faults)
    ensures var e := Executed(rows, txns, r, input, f);
      || e.txns == txns
      || (FindKey(txns, input.key).None? && input.amount > 0
          && |e.txns| == |txns| + 1 && e.txns == txns + [Txn(input, e.txns[|txns|].status, r)])
  {
    hide FindKey, CheckSource, Call, Move;
  }

  /** Whatever fails: the new row is a SUCCESS exactly if the payment is payable, nothing failed, and the status was written. */
  lemma SucceedsIff(rows: L.Rows, txns: seq<Txn>, r: nat, input: Input, f: Faults)
    ensures var e := Executed(rows, txns, r, input, f);
      (|e.txns| > |txns| && e.txns[|txns|].status == Success <==>
         NothingFails(f) && Payable(rows, txns, input) && f.final != Fails)
  {
    hide FindKey;
  }

  /** No balance changes, but for what is missing from one account. */
  ghost predicate SameBalances(before: L.Rows, after: L.Rows, source: string, missing: int) {
    forall id :: id in before ==>
      id in after && after[id].balance == before[id].balance - (if id == source then missing else 0)
  }

  /** Unless the money arrived, no balance changes, save for a debit that could not be given back. */
  lemma CompensationRestores(rows: L.Rows, txns: seq<Txn>, r: nat, input: Input, f: Faults)
    requires L.Bounded(rows)
    ensures var e := Executed(rows, txns, r, input, f);
      var stranded := e.response == Errored(|txns|, CreditFailed(false));
      || e.response.Completed? || e.response == Errored(|txns|, NotMarked)
      || SameBalances(rows, e.rows, input.source, if stranded then input.amount else 0)
  {
    hide FindKey, CheckSource;
  }

  /**
   Once a row carries the key, executing again changes nothing, whatever fails, and is answered with that row
   unless the lookup fails.
   */
  lemma ReplayChangesNothing(rows: L.Rows, txns: seq<Txn>, r: nat, input: Input, f: Faults)
    requires FindKey(txns, input.key).Some?
    ensures var e := Executed(rows, txns, r, input, f);
      var t := FindKey(txns, input.key).value;
      e == Execution(rows, txns, if f.lookup == Fine then Replayed(t, txns[t].status) else Refused)
  {
  }

  /** No row carries the key. */
  ghost predicate NewKey(txns: seq<Txn>, key: string) {
    forall t :: 0 <= t < |txns| ==> txns[t].input.key != key
  }

  /**
   A row is added exactly if lookup and balance query work, the insert takes effect, the key is new, the amount is
   positive, and the source exists, is active or without a status, and has the amount. Under a new key, a payment
   that adds no row is refused and has touched nothing.
   */
  lemma RecordedIff(rows: L.Rows, txns: seq<Txn>, r: nat, input: Input, f: Faults)
    ensures var e := Executed(rows, txns, r, input, f);
      |e.txns| > |txns| <==>
        && f.lookup == Fine && f.balance == Fine && f.create != Fails
        && NewKey(txns, input.key) && input.amount > 0
        && input.source in rows && (rows[input.source].status == "" || rows[input.source].status == "ACTIVE")
        && rows[input.source].balance >= input.amount
    ensures var e := Executed(rows, txns, r, input, f);
      NewKey(txns, input.key) && |e.txns| <= |txns| ==> e == Execution(rows, txns, Refused)
  {
    var found := FindKey(txns, input.key);
    hide FindKey, Call, Move;
  }

  /**
   What becomes of a row that was added. Its status says how far the payment got: PENDING if it was not started,
   PROCESSING if a status write did not arrive, SUCCESS if the money did, and FAILED if it did not. The caller is
   told which of the legs failed, and whether the debit was given back.
   */
  lemma RecordedEnds(rows: L.Rows, txns: seq<Txn>, r: nat, input: Input, f: Faults)
    requires L.Bounded(rows) && |Executed(rows, txns, r, input, f).txns| > |txns|
    ensures var e := Executed(rows, txns, r, input, f);
      var t := |txns|;
      var debited := f.debit && rows[input.source].status == "ACTIVE";
      var arrived := debited && f.credit && input.dest in rows && rows[input.dest].status == "ACTIVE"
        && (input.dest == input.source || rows[input.dest].balance + input.amount <= 0x7FFF_FFFF_FFFF_FFFF);
      && e.txns == txns + [Txn(input, e.txns[t].status, r)]
      && e.txns[t].status ==
           (if f.create == Lost || f.processing == Fails then Pending
            else if f.processing == Lost || f.final == Fails then Processing
            else if arrived then Success else Failed)
      && e.response ==
           (if f.create == Lost then (if f.reread == Fine then Replayed(t, Pending) else Refused)
            else if f.processing != Fine then Errored(t, NotStarted)
            else if !debited then Errored(t, DebitFailed)
            else if !arrived then Errored(t, CreditFailed(f.refund))
            else if f.final == Fine then Completed(t) else Errored(t, NotMarked))
  {
    RecordedIff(rows, txns, r, input, f);
    hide FindKey, NewKey;
  }

  /** And where its money is. */
  lemma RecordedMoves(rows: L.Rows, txns: seq<Txn>, r: nat, input: Input, f: Faults)
    requires L.Bounded(rows) && |Executed(rows, txns, r, input, f).txns| > |txns|
    ensures var e := Executed(rows, txns, r, input, f);
      var debited := f.debit && rows[input.source].status == "ACTIVE";
      var arrived := debited && f.credit && input.dest in rows && rows[input.dest].status == "ACTIVE"
        && (input.dest == input.source || rows[input.dest].balance + input.amount <= 0x7FFF_FFFF_FFFF_FFFF);
      && (f.create == Lost || f.processing != Fine || !debited ==> e.rows == rows)
      && (f.create == Fine && f.processing == Fine && debited ==>
            if arrived then Transferred(rows, e.rows, input)
            else L.OnlyRow(rows, e.rows, input.source,
              if f.refund then rows[input.source].(version := rows[input.source].version + 2)
              else L.Account(rows[input.source].balance - input.amount, "ACTIVE", rows[input.source].version + 1)))
  {
    RecordedIff(rows, txns, r, input, f);
    hide FindKey, NewKey;
  }

  /** The oldest row of a type and reference that has not failed. */
  function FindReference(txns: seq<Txn>, paymentType: string, reference: Reference): (found: Option<nat>)
    ensures found.Some? ==> found.value < |txns| && Carries(txns[found.value], paymentType, reference)
    ensures found.Some? ==> forall i :: 0 <= i < found.value ==> !Carries(txns[i], paymentType, reference)
    ensures found.None? ==> forall i :: 0 <= i < |txns| ==> !Carries(txns[i], paymentType, reference)
  {
    if txns == [] then None
    else
      var earlier := FindReference(txns[..|txns| - 1], paymentType, reference);
      if earlier.Some? then earlier
      else if Carries(txns[|txns| - 1], paymentType, reference) then Some(|txns| - 1)
      else None
  }

  predicate Carries(txn: Txn, paymentType: string, reference: Reference) {
    txn.input.details.paymentType == paymentType && txn.input.details.reference == reference && txn.status != Failed
  }

  class TransactionRepository {
    var txns: seq<Txn>

    constructor ()
      ensures txns == []
    {
      txns := [];
    }

    method GetByIdempotencyKey(key: string) returns (found: Option<nat>)
      ensures found == FindKey(txns, key)
    {
      found := FindKey(txns, key);
    }

    method GetByID(t: nat) returns (found: Option<Txn>)
      ensures found == if t < |txns| then Some(txns[t]) else None
    {
      found := if t < |txns| then Some(txns[t]) else None;
    }

    /** The oldest row of a type and reference that has not failed. */
    method GetByExternalReference(paymentType: string, reference: Reference) returns (found: Option<nat>)
      ensures found == FindReference(txns, paymentType, reference)
    {
      found := FindReference(txns, paymentType, reference);
    }

    /** Insert behind the unique key and the positive-amount constraint. */
    method Create(txn: Txn, fault: Fault) returns (ok: bool)
      modifies this
      ensures ok == (Insertable(old(txns), txn.input) && fault == Fine)
      ensures txns == if Insertable(old(txns), txn.input) && fault != Fails then old(txns) + [txn] else old(txns)
    {
      var found := GetByIdempotencyKey(txn.input.key);
      ok := found.None? && txn.input.amount > 0 && fault != Fails;
      if ok {
        txns := txns + [txn];
        ok := fault == Fine;
      }
    }

    method UpdateStatus(t: nat, status: Status, fault: Fault) returns (ok: bool)
      requires t < |txns|
      modifies this
      ensures ok == (fault == Fine)
      ensures txns == if fault == Fails then old(txns) else old(txns)[t := old(txns)[t].(status := status)]
    {
      if fault != Fails {
        txns := txns[t := txns[t].(status := status)];
      }
      ok := fault == Fine;
    }
  }

  // ---------- The machine, one request at a time ----------

  lemma RunOne(s: State, trace: seq<Action>, a: Action)
    ensures Run(s, trace + [a]) == Next(Run(s, trace), a)
  {
    assert (trace + [a])[..|trace|] == trace;
  }

  /** A call that nothing interrupts is the sequential operation. */
  lemma LoneCall(l: L.State, c: nat)
    requires c < |l.calls| && l.calls[c].phase == L.Start
    ensures var l' := L.Next(L.Next(l, L.Load(c)), L.Commit(c));
            var (rows, out) := L.Apply(l.rows, l.calls[c].op);
            l'.rows == rows && l'.calls == l.calls[c := l.calls[c].(phase := L.Done(out))]
  {
    var l1 := L.Next(l, L.Load(c));
    if l1.calls[c].phase.Done? {
      assert L.Next(l1, L.Commit(c)) == l1;
    }
  }

  lemma FoundLast(txns: seq<Txn>, txn: Txn)
    ensures FindKey(txns + [txn], txn.input.key) == Some(|txns|)
  {
  }

  lemma InsertStep(s: State, r: nat, fault: Fault)
    requires r < |s.reqs| && s.reqs[r].step == Insert
    ensures var input := s.reqs[r].input;
      Next(s, Proceed(r, fault)) ==
        if !Insertable(s.txns, input) || fault == Fails then Goto(s, r, Reread)
        else Goto(s.(txns := s.txns + [Txn(input, Pending, r)]), r, if fault == Fine then MarkProcessing(|s.txns|) else Reread)
  {
  }

  lemma LookStep(s: State, r: nat, fault: Fault)
    requires r < |s.reqs| && (s.reqs[r].step == Lookup || s.reqs[r].step == Reread)
    ensures Next(s, Proceed(r, fault)) ==
      if fault == Fine then ReturnExisting(s, r, if s.reqs[r].step == Lookup then PreCheck else Returned(Refused))
      else Goto(s, r, Returned(Refused))
  {
  }

  lemma CheckStep(s: State, r: nat, fault: Fault)
    requires r < |s.reqs| && s.reqs[r].step == PreCheck
    ensures Next(s, Proceed(r, fault)) ==
      Goto(s, r, if fault == Fine && CheckSource(s.ledger.rows, s.reqs[r].input) then Insert else Returned(Refused))
  {
  }

  lemma StartStep(s: State, r: nat, t: nat, fault: Fault)
    requires r < |s.reqs| && s.reqs[r].step == MarkProcessing(t)
    ensures Next(s, Proceed(r, fault)) ==
      var w := Write(s, t, Processing, fault);
      if fault == Fine then Goto(Send(w, t, L.DebitLeg), r, Debiting(t, |s.ledger.calls|))
      else Goto(w, r, Returned(Errored(t, NotStarted)))
  {
  }

  class Orchestrator {
    const repo: TransactionRepository
    const account: L.AccountService
    /** Numbers the requests; it only labels the rows they insert. */
    var served: nat
    ghost const rows0: L.Rows
    ghost var trace: seq<Action>
    ghost var world: State

    /** The repositories hold what the machine holds, after the steps taken so far. */
    ghost predicate Valid()
      reads this, repo, account.repo
    {
      && world == Run(Initial(rows0), trace)
      && world.ledger.rows == account.repo.rows
      && world.txns == repo.txns
      && served == |world.reqs|
    }

    constructor (repo: TransactionRepository, account: L.AccountService)
      requires repo.txns == []
      ensures Valid() && this.repo == repo && this.account == account && trace == [] && rows0 == account.repo.rows
    {
      this.repo := repo;
      this.account := account;
      rows0 := account.repo.rows;
      trace := [];
      served := 0;
      world := Initial(account.repo.rows);
    }

    ghost method Advance(a: Action)
      requires world == Run(Initial(rows0), trace)
      modifies `trace, `world
      ensures world == Next(old(world), a) && trace == old(trace) + [a]
      ensures world == Run(Initial(rows0), trace)
    {
      RunOne(Initial(rows0), trace, a);
      world := Next(world, a);
      trace := trace + [a];
    }

    /** One leg through the account client; `c` is the machine's number for the call. */
    method Transfer(op: L.Op, reached: bool, ghost c: nat) returns (out: L.Outcome)
      requires Valid() && c < |world.ledger.calls|
      requires world.ledger.calls[c].op == op && world.ledger.calls[c].phase == L.Start
      modifies account.repo, `trace, `world
      ensures Valid() && (account.repo.rows, out) == Call(old(account.repo.rows), op, reached)
      ensures world.txns == old(world.txns) && world.reqs == old(world.reqs)
      ensures world.ledger.calls == old(world.ledger.calls)[c := old(world.ledger.calls)[c].(phase := L.Done(out))]
    {
      hide Run, L.Apply, L.Decide, L.CompareAndSet;
      if !reached {
        Advance(AccountStep(L.Drop(c)));
        return L.Unreachable;
      }
      LoneCall(world.ledger, c);
      match op {
        case Debit(id, amount) => out := account.DebitAccount(id, amount);
        case Credit(id, amount) => out := account.CreditAccount(id, amount);
      }
      Advance(AccountStep(L.Load(c)));
      Advance(AccountStep(L.Commit(c)));
    }

    /** What a request answers once its final status is written, or not. */
    ghost function Final(step: Step, fault: Fault): Response
      requires step.MarkFailed? || step.MarkSuccess?
    {
      if step.MarkFailed? then Errored(step.t, step.how)
      else if fault == Fine then Completed(step.t)
      else Errored(step.t, NotMarked)
    }

    /** Set the final status of a transaction, which ends the request. */
    method Close(t: nat, status: Status, fault: Fault, ghost r: nat) returns (ok: bool)
      requires Valid() && t < |repo.txns| && repo.txns[t].status == Processing && r < |world.reqs|
      requires (world.reqs[r].step == MarkSuccess(t) && status == Success)
            || (world.reqs[r].step.MarkFailed? && world.reqs[r].step.t == t && status == Failed)
      modifies repo, `trace, `world
      ensures Valid() && world.ledger == old(world.ledger) && ok == (fault == Fine)
      ensures repo.txns == old(repo.txns)[t := old(repo.txns)[t].(status := After(status, fault))]
      ensures var q := old(world.reqs)[r];
        world.reqs == old(world.reqs)[r := q.(step := Returned(Final(q.step, fault)))]
    {
      hide Run;
      ok := repo.UpdateStatus(t, status, fault);
      Advance(Proceed(r, fault));
    }

    /** The answer to the last call reaches the request. */
    ghost method Answered(r: nat)
      requires Valid() && r < |world.reqs| && Awaited(world.reqs[r].step).Some?
      modifies `trace, `world
      ensures Valid() && world == Wait(old(world), r)
    {
      hide Run;
      Advance(Proceed(r, Fine));
    }

    /** The machine has just sent a leg for transaction `t` and nothing has happened to it yet. */
    ghost predicate Sent(r: nat, t: nat, input: Input, leg: L.Leg, c: nat)
      reads `world
    {
      && r < |world.reqs| && Awaited(world.reqs[r].step) == Some((t, leg, c))
      && |world.ledger.calls| == c + 1
      && world.ledger.calls[c] == L.Call(LegOp(input, leg), L.Payment(t, leg), L.Start)
    }

    /** Credit the destination of a transaction, or compensate; the machine has just sent the credit. */
    method CreditDestination(t: nat, input: Input, f: Faults, ghost r: nat, ghost c: nat) returns (response: Response)
      requires Valid() && t < |repo.txns| && repo.txns[t].input == input && repo.txns[t].status == Processing
      requires Sent(r, t, input, L.CreditLeg, c)
      modifies repo, account.repo, `trace, `world
      ensures Valid() && world.reqs == old(world.reqs)[r := old(world.reqs)[r].(step := Returned(response))]
      ensures var (rows, status, answer) := CreditOrRefund(old(account.repo.rows), t, input, f);
        && account.repo.rows == rows && response == answer
        && repo.txns == old(repo.txns)[t := old(repo.txns)[t].(status := status)]
    {
      hide Run, Call, L.Apply, L.DoLoad, L.DoCommit, LegOp;
      var credited := Transfer(LegOp(input, L.CreditLeg), f.credit, c);
      Answered(r);
      if credited != L.Applied {
        var refunded := Transfer(LegOp(input, L.RefundLeg), f.refund, c + 1);
        Answered(r);
        var _ := Close(t, Failed, f.final, r);
        return Errored(t, CreditFailed(refunded == L.Applied));
      }
      var ok := Close(t, Success, f.final, r);
      response := if ok then Completed(t) else Errored(t, NotMarked);
    }

    /** Debit, then credit or compensate; the machine has just sent the debit. */
    method MoveMoney(t: nat, input: Input, f: Faults, ghost r: nat, ghost c: nat) returns (response: Response)
      requires Valid() && t < |repo.txns| && repo.txns[t].input == input && repo.txns[t].status == Processing
      requires Sent(r, t, input, L.DebitLeg, c)
      modifies repo, account.repo, `trace, `world
      ensures Valid() && world.reqs == old(world.reqs)[r := old(world.reqs)[r].(step := Returned(response))]
      ensures var (rows, status, answer) := Move(old(account.repo.rows), t, input, f);
        && account.repo.rows == rows && response == answer
        && repo.txns == old(repo.txns)[t := old(repo.txns)[t].(status := status)]
    {
      hide Run, Call, CreditOrRefund, L.Apply, L.DoLoad, L.DoCommit, LegOp;
      var debited := Transfer(LegOp(input, L.DebitLeg), f.debit, c);
      Answered(r);
      if debited != L.Applied {
        var _ := Close(t, Failed, f.final, r);
        return Errored(t, DebitFailed);
      }
      response := CreditDestination(t, input, f, r, c + 1);
    }

    /**
     Insert the pending row; if that goes wrong, fall back to the row that carries the key.
     `None` means the row is this request's and money may move.
     */
    method CreatePending(input: Input, f: Faults, r: nat) returns (response: Option<Response>)
      requires Valid() && r < |world.reqs| && world.reqs[r] == Request(input, Insert)
      requires FindKey(repo.txns, input.key).None?
      modifies repo, `trace, `world
      ensures Valid() && world.ledger == old(world.ledger)
      ensures var (txns, answer) := Created(old(repo.txns), r, input, f);
        && repo.txns == txns && response == answer
        && world.reqs == old(world.reqs)[r :=
             Request(input, if answer.Some? then Returned(answer.value) else MarkProcessing(|txns| - 1))]
    {
      hide Run, FindKey;
      FoundLast(repo.txns, Txn(input, Pending, r));
      var ok := repo.Create(Txn(input, Pending, r), f.create);
      InsertStep(world, r, f.create);
      hide Next;
      Advance(Proceed(r, f.create));
      if ok {
        return None;
      }
      LookStep(world, r, f.reread);
      Advance(Proceed(r, f.reread));
      if f.reread == Fine {
        var existing := repo.GetByIdempotencyKey(input.key);
        if existing.Some? {
          return Some(Replayed(existing.value, repo.txns[existing.value].status));
        }
      }
      response := Some(Refused);
    }

    /** Idempotent replay and the balance check. `None` means the payment may be recorded. */
    method Admit(input: Input, f: Faults, r: nat) returns (response: Option<Response>)
      requires Valid() && r < |world.reqs| && world.reqs[r] == Request(input, Lookup)
      modifies `trace, `world
      ensures Valid() && world.ledger == old(world.ledger)
      ensures response == Admitted(account.repo.rows, repo.txns, input, f)
      ensures world.reqs == old(world.reqs)[r := Request(input, if response.Some? then Returned(response.value) else Insert)]
    {
      hide Run, Next, FindKey;
      LookStep(world, r, f.lookup);
      Advance(Proceed(r, f.lookup));
      if f.lookup != Fine {
        return Some(Refused);
      }
      var existing := repo.GetByIdempotencyKey(input.key);
      if existing.Some? {
        return Some(Replayed(existing.value, repo.txns[existing.value].status));
      }
      CheckStep(world, r, f.balance);
      Advance(Proceed(r, f.balance));
      if f.balance != Fine {
        return Some(Refused);
      }
      var source := account.repo.GetByID(input.source);
      if source.None? || (source.value.status != "" && source.value.status != "ACTIVE") || source.value.balance < input.amount {
        return Some(Refused);
      }
      response := None;
    }

    /** Mark the row PROCESSING, then move the money. */
    method Start(t: nat, input: Input, f: Faults, r: nat) returns (response: Response)
      requires Valid() && r < |world.reqs| && world.reqs[r] == Request(input, MarkProcessing(t))
      requires t < |repo.txns| && repo.txns[t].input == input && repo.txns[t].status == Pending
      modifies repo, account.repo, `trace, `world
      ensures Valid() && world.reqs == old(world.reqs)[r := Request(input, Returned(response))]
      ensures var (rows, status, answer) := Started(old(account.repo.rows), t, input, f);
        && account.repo.rows == rows && response == answer
        && repo.txns == old(repo.txns)[t := old(repo.txns)[t].(status := status)]
    {
      hide Run, Next, Move;
      var ok := repo.UpdateStatus(t, Processing, f.processing);
      StartStep(world, r, t, f.processing);
      ghost var c := |world.ledger.calls|;
      Advance(Proceed(r, f.processing));
      if !ok {
        return Errored(t, NotStarted);
      }
      response := MoveMoney(t, input, f, r, c);
    }

    /** The whole payment, from the lookup to the response. */
    method ExecuteDebitCredit(input: Input, f: Faults) returns (response: Response)
      requires Valid()
      modifies this, repo, account.repo
      ensures Valid() && served == old(served) + 1
      ensures world.reqs == old(world.reqs) + [Request(input, Returned(response))]
      ensures Execution(account.repo.rows, repo.txns, response)
           == Executed(old(account.repo.rows), old(repo.txns), old(served), input, f)
    {
      hide Run, Started;
      var r := served;
      Advance(Arrive(input));
      served := served + 1;
      var early := Admit(input, f, r);
      if early.None? {
        early := CreatePending(input, f, r);
      }
      if early.Some? {
        return early.value;
      }
      response := Start(|repo.txns| - 1, input, f, r);
    }
  }
}
