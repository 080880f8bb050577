/** What every interleaving of payments guarantees: no money appears or vanishes, and none moves twice. */
module Conservation {
  import opened Wrappers
  import opened Saga

  // ---------- Money moves at most once ----------

  /** The money of a transaction: nothing, debited only, credited, or refunded. */
  predicate OneOfFour(l: L.State, t: nat) {
    Moved(l, t, 0, 0, 0) || Moved(l, t, 1, 0, 0) || Moved(l, t, 1, 1, 0) || Moved(l, t, 1, 0, 1)
  }

  /** What a status promises about the money. */
  predicate StatusPromise(l: L.State, t: nat, status: Status) {
    match status
    case Pending => Moved(l, t, 0, 0, 0)
    case Processing => true
    case Success => Moved(l, t, 1, 1, 0)
    case Failed => !Moved(l, t, 1, 1, 0)
  }

  lemma ShapeMoney(l: L.State, t: nat, status: Status, step: Step)
    requires Shape(l, t, status, step)
    ensures OneOfFour(l, t) && StatusPromise(l, t, status)
  {
    hide Count;
  }

  /** Each leg of each transaction is applied at most once, and the status tells the truth about it. */
  lemma TransactionMovesOnce(rows0: L.Rows, actions: seq<Action>, t: nat)
    requires L.Bounded(rows0)
    requires t < |Run(Initial(rows0), actions).txns|
    ensures var s := Run(Initial(rows0), actions);
            OneOfFour(s.ledger, t) && StatusPromise(s.ledger, t, s.txns[t].status)
  {
    Reachable(rows0, actions);
    var s := Run(Initial(rows0), actions);
    assert TxnOk(s, t);
    ShapeMoney(s.ledger, t, s.txns[t].status, s.reqs[s.txns[t].owner].step);
  }

  /** How often a leg was applied for payments under an idempotency key. */
  function CountKey(txns: seq<Txn>, log: seq<L.Event>, key: string, leg: L.Leg): nat {
    if log == [] then 0
    else
      var e := log[|log| - 1];
      CountKey(txns, log[..|log| - 1], key, leg) +
      if e.out == L.Applied && e.ref.Payment? && e.ref.leg == leg && e.ref.txn < |txns| && txns[e.ref.txn].input.key == key
      then 1 else 0
  }

  lemma {:induction false} CountKeyIsCount(txns: seq<Txn>, log: seq<L.Event>, t: nat, leg: L.Leg)
    requires DistinctKeys(txns) && t < |txns|
    ensures CountKey(txns, log, txns[t].input.key, leg) == Count(log, t, leg)
  {
    if log != [] {
      CountKeyIsCount(txns, log[..|log| - 1], t, leg);
      var e := log[|log| - 1];
      if e.ref.Payment? && e.ref.txn < |txns| && e.ref.txn != t {
        assert txns[e.ref.txn].input.key != txns[t].input.key;
      }
    }
  }

  lemma {:induction false} CountKeyAbsent(txns: seq<Txn>, log: seq<L.Event>, key: string, leg: L.Leg)
    requires forall i :: 0 <= i < |txns| ==> txns[i].input.key != key
    ensures CountKey(txns, log, key, leg) == 0
  {
    if log != [] {
      CountKeyAbsent(txns, log[..|log| - 1], key, leg);
    }
  }

  /** Over all concurrent and replayed requests under one key: one debit, one credit and one refund at the most. */
  lemma KeyMovesOnce(rows0: L.Rows, actions: seq<Action>, key: string)
    requires L.Bounded(rows0)
    ensures var s := Run(Initial(rows0), actions);
            var d := CountKey(s.txns, s.ledger.log, key, L.DebitLeg);
            var k := CountKey(s.txns, s.ledger.log, key, L.CreditLeg);
            var f := CountKey(s.txns, s.ledger.log, key, L.RefundLeg);
            k + f <= d <= 1
  {
    Reachable(rows0, actions);
    hide Run;
    var s := Run(Initial(rows0), actions);
    var found := FindKey(s.txns, key);
    if found.Some? {
      var t := found.value;
      assert TxnOk(s, t);
      ShapeMoney(s.ledger, t, s.txns[t].status, s.reqs[s.txns[t].owner].step);
      CountKeyIsCount(s.txns, s.ledger.log, t, L.DebitLeg);
      CountKeyIsCount(s.txns, s.ledger.log, t, L.CreditLeg);
      CountKeyIsCount(s.txns, s.ledger.log, t, L.RefundLeg);
    } else {
      CountKeyAbsent(s.txns, s.ledger.log, key, L.DebitLeg);
      CountKeyAbsent(s.txns, s.ledger.log, key, L.CreditLeg);
      CountKeyAbsent(s.txns, s.ledger.log, key, L.RefundLeg);
    }
  }

  /** The transaction a finished request hands back. */
  function ReturnedTxn(step: Step): Option<nat> {
    match step
    case Returned(Replayed(t, _)) => Some(t)
    case Returned(Completed(t)) => Some(t)
    case _ => None
  }

  /** Requests under one key are answered with one and the same transaction. */
  lemma SameTransaction(rows0: L.Rows, actions: seq<Action>, q: nat, r: nat)
    requires L.Bounded(rows0)
    requires var s := Run(Initial(rows0), actions);
             && q < |s.reqs| && r < |s.reqs| && s.reqs[q].input.key == s.reqs[r].input.key
             && ReturnedTxn(s.reqs[q].step).Some? && ReturnedTxn(s.reqs[r].step).Some?
    ensures var s := Run(Initial(rows0), actions);
            ReturnedTxn(s.reqs[q].step) == ReturnedTxn(s.reqs[r].step)
  {
    Reachable(rows0, actions);
    hide Run;
    var s := Run(Initial(rows0), actions);
    hide L.Inv;
    OneReturned(s, q, r);
  }

  lemma OneReturned(s: State, q: nat, r: nat)
    requires DistinctKeys(s.txns) && AllReqs(s) && AllTxns(s)
    requires q < |s.reqs| && r < |s.reqs| && s.reqs[q].input.key == s.reqs[r].input.key
    requires ReturnedTxn(s.reqs[q].step).Some? && ReturnedTxn(s.reqs[r].step).Some?
    ensures ReturnedTxn(s.reqs[q].step) == ReturnedTxn(s.reqs[r].step)
  {
    ReturnedKey(s, q);
    ReturnedKey(s, r);
    hide AllReqs, AllTxns;
  }

  lemma ReturnedKey(s: State, r: nat)
    requires AllReqs(s) && AllTxns(s) && r < |s.reqs| && ReturnedTxn(s.reqs[r].step).Some?
    ensures var t := ReturnedTxn(s.reqs[r].step).value; t < |s.txns| && s.txns[t].input.key == s.reqs[r].input.key
  {
    assert ReqOk(s, r);
    var t := ReturnedTxn(s.reqs[r].step).value;
    assert TxnOk(s, t);
  }

  // ---------- A status only moves forward ----------

  predicate Forward(before: Status, after: Status) {
    || before == after
    || (before == Pending && after == Processing)
    || (before == Processing && (after == Success || after == Failed))
  }

  /** One step keeps every row, its input and owner, and moves its status forward or not at all. */
  lemma StatusMovesForward(rows0: L.Rows, s: State, a: Action, t: nat)
    requires Inv(rows0, s) && t < |s.txns|
    ensures var s' := Next(s, a);
            && t < |s'.txns|
            && s'.txns[t].input == s.txns[t].input && s'.txns[t].owner == s.txns[t].owner
            && Forward(s.txns[t].status, s'.txns[t].status)
  {
    hide L.Next, L.Inv;
    if a.Proceed? && a.r < |s.reqs| {
      var step := s.reqs[a.r].step;
      assert ReqOk(s, a.r);
      if step.MarkProcessing? || step.MarkFailed? || step.MarkSuccess? {
        assert TxnOk(s, step.t);
      }
    }
  }

  // ---------- No request is ever stuck ----------

  /** How far a request is from returning when everything fails from now on. */
  function Distance(s: State, r: nat): nat
    requires r < |s.reqs|
  {
    match s.reqs[r].step
    case Returned(_) => 0
    case Insert => 2
    case Debiting(_, c) => if Outcome(s, c).Some? then 7 else 8
    case Crediting(_, c) => if Outcome(s, c).Some? then 5 else 6
    case Refunding(_, c) => if Outcome(s, c).Some? then 2 else 3
    case _ => 1
  }

  /** What to let happen next. */
  function Push(s: State, r: nat): Action
    requires r < |s.reqs|
  {
    match Awaited(s.reqs[r].step)
    case None => Proceed(r, Fails)
    case Some(w) => if Outcome(s, w.2).Some? then Proceed(r, Fine) else AccountStep(L.Drop(w.2))
  }

  lemma PushBrowses(s: State, r: nat)
    requires r < |s.reqs| && Awaited(s.reqs[r].step).None? && !s.reqs[r].step.Returned?
    ensures var s' := Next(s, Push(s, r)); r < |s'.reqs| && Distance(s', r) < Distance(s, r)
  {
    hide L.Next;
  }

  lemma PushAnswered(s: State, r: nat)
    requires r < |s.reqs| && Answered(s, r)
    ensures var s' := Next(s, Push(s, r)); r < |s'.reqs| && Distance(s', r) < Distance(s, r)
  {
    hide LegOp;
  }

  lemma PushWaiting(s: State, r: nat)
    requires r < |s.reqs| && Awaited(s.reqs[r].step).Some? && Outcome(s, s.reqs[r].step.c).None?
    requires s.reqs[r].step.c < |s.ledger.calls|
    ensures var s' := Next(s, Push(s, r)); r < |s'.reqs| && Distance(s', r) < Distance(s, r)
  {
    var c := s.reqs[r].step.c;
    assert L.Next(s.ledger, L.Drop(c)) == L.Finish(s.ledger, c, L.Unreachable);
    hide L.Next;
  }

  lemma AwaitedExists(s: State, r: nat)
    requires AllReqs(s) && AllTxns(s) && r < |s.reqs| && Awaited(s.reqs[r].step).Some?
    ensures s.reqs[r].step.c < |s.ledger.calls|
  {
    assert ReqOk(s, r) && TxnOk(s, s.reqs[r].step.t);
    hide Moved;
  }

  lemma PushCloser(rows0: L.Rows, s: State, r: nat)
    requires Inv(rows0, s) && r < |s.reqs| && !s.reqs[r].step.Returned?
    ensures var s' := Next(s, Push(s, r)); r < |s'.reqs| && Distance(s', r) < Distance(s, r)
  {
    hide Next, Push, Distance;
    if Awaited(s.reqs[r].step).None? {
      PushBrowses(s, r);
    } else if Answered(s, r) {
      PushAnswered(s, r);
    } else {
      AwaitedExists(s, r);
      PushWaiting(s, r);
    }
  }

  lemma {:induction false} RunFirst(s: State, a: Action, rest: seq<Action>)
    ensures Run(s, [a] + rest) == Run(Next(s, a), rest)
  {
    hide Next;
    if rest == [] {
      assert ([a] + rest)[..0] == [] && [a] + rest == [a];
      assert Run(s, []) == s;
    } else {
      RunFirst(s, a, rest[..|rest| - 1]);
      assert ([a] + rest)[..|rest|] == [a] + rest[..|rest| - 1];
    }
  }

  lemma {:induction false} CanFinish(rows0: L.Rows, s: State, r: nat) returns (more: seq<Action>)
    requires Inv(rows0, s) && r < |s.reqs|
    ensures r < |Run(s, more).reqs| && Run(s, more).reqs[r].step.Returned?
    decreases Distance(s, r)
  {
    if s.reqs[r].step.Returned? {
      more := [];
    } else {
      var a := Push(s, r);
      NextKeeps(rows0, s, a);
      PushCloser(rows0, s, r);
      hide Inv, Next, Push, Distance;
      var rest := CanFinish(rows0, Next(s, a), r);
      RunFirst(s, a, rest);
      more := [a] + rest;
    }
  }

  /** From every reachable state every request can still be brought to an end. */
  lemma NeverStuck(rows0: L.Rows, actions: seq<Action>, r: nat)
    requires L.Bounded(rows0) && r < |Run(Initial(rows0), actions).reqs|
    ensures exists more :: var s := Run(Run(Initial(rows0), actions), more);
              r < |s.reqs| && s.reqs[r].step.Returned?
  {
    Reachable(rows0, actions);
    hide Inv;
    var more := CanFinish(rows0, Run(Initial(rows0), actions), r);
  }
}
