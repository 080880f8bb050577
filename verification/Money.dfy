/** Conservation: however payments interleave, every minor unit is in an account or on its way. */
module Money {
  import L = Ledger
  import opened Saga

  // ---------- The sum of all balances ----------

  ghost function Pick(rows: L.Rows): (id: string)
    requires rows.Keys != {}
    ensures id in rows
  {
    var id :| id in rows.Keys;
    id
  }

  ghost function Total(rows: L.Rows): int
    decreases |rows|
  {
    if rows.Keys == {} then 0
    else
      var id := Pick(rows);
      SmallerMap(rows, id);
      rows[id].balance + Total(rows - {id})
  }

  lemma SmallerMap(rows: L.Rows, id: string)
    requires id in rows
    ensures |rows - {id}| < |rows|
  {
    assert (rows - {id}).Keys == rows.Keys - {id};
    assert |(rows - {id}).Keys| == |rows - {id}| && |rows.Keys| == |rows|;
  }

  lemma {:induction false} TotalAt(rows: L.Rows, id: string)
    requires id in rows
    ensures Total(rows) == rows[id].balance + Total(rows - {id})
    decreases |rows|
  {
    var p := Pick(rows);
    if p != id {
      SmallerMap(rows, p);
      SmallerMap(rows, id);
      TotalAt(rows - {p}, id);
      TotalAt(rows - {id}, p);
      assert rows - {p} - {id} == rows - {id} - {p};
    }
  }

  lemma TotalUpdate(rows: L.Rows, id: string, row: L.Account)
    requires id in rows
    ensures Total(rows[id := row]) == Total(rows) - rows[id].balance + row.balance
  {
    TotalAt(rows, id);
    TotalAt(rows[id := row], id);
    assert rows[id := row] - {id} == rows - {id};
  }

  // ---------- The sum of the history ----------

  function Signed(e: L.Event): int {
    if e.out != L.Applied then 0 else if e.op.Credit? then e.op.amount else -e.op.amount
  }

  function SumLog(log: seq<L.Event>): int {
    if log == [] then 0 else SumLog(log[..|log| - 1]) + Signed(log[|log| - 1])
  }

  /** What the calls that belong to no payment brought in. */
  function DirectSum(log: seq<L.Event>): int {
    if log == [] then 0
    else DirectSum(log[..|log| - 1]) + if log[|log| - 1].ref.Direct? then Signed(log[|log| - 1]) else 0
  }

  function PaymentSum(log: seq<L.Event>, t: nat): int {
    if log == [] then 0
    else
      var e := log[|log| - 1];
      PaymentSum(log[..|log| - 1], t) + if e.ref.Payment? && e.ref.txn == t then Signed(e) else 0
  }

  function PaymentSums(log: seq<L.Event>, n: nat): int {
    if n == 0 then 0 else PaymentSums(log, n - 1) + PaymentSum(log, n - 1)
  }

  lemma ApplyTotal(rows: L.Rows, op: L.Op)
    ensures var (rows', out) := L.Apply(rows, op);
            Total(rows') == Total(rows) + Signed(L.Event(0, op, L.Direct, out))
  {
    hide Total;
    if L.Apply(rows, op).1 == L.Applied {
      TotalUpdate(rows, op.id, L.Apply(rows, op).0[op.id]);
    }
  }

  lemma {:induction false} ReplayTotal(rows0: L.Rows, log: seq<L.Event>)
    requires L.Replay(rows0, log).Some?
    ensures Total(L.Replay(rows0, log).value) == Total(rows0) + SumLog(log)
  {
    hide Total, L.Apply;
    if log != [] {
      var e := log[|log| - 1];
      ReplayTotal(rows0, log[..|log| - 1]);
      ApplyTotal(L.Replay(rows0, log[..|log| - 1]).value, e.op);
    }
  }

  lemma {:induction false} PaymentSumsLast(log: seq<L.Event>, n: nat)
    requires log != []
    ensures var e := log[|log| - 1];
            PaymentSums(log, n) == PaymentSums(log[..|log| - 1], n) + if e.ref.Payment? && e.ref.txn < n then Signed(e) else 0
  {
    if n > 0 {
      PaymentSumsLast(log, n - 1);
    }
  }

  lemma {:induction false} PaymentSumsEmpty(n: nat)
    ensures PaymentSums([], n) == 0
  {
    if n > 0 {
      PaymentSumsEmpty(n - 1);
    }
  }

  lemma {:induction false} SumSplits(log: seq<L.Event>, n: nat)
    requires forall i :: 0 <= i < |log| && log[i].ref.Payment? ==> log[i].ref.txn < n
    ensures SumLog(log) == DirectSum(log) + PaymentSums(log, n)
  {
    if log == [] {
      PaymentSumsEmpty(n);
    } else {
      SumSplits(log[..|log| - 1], n);
      PaymentSumsLast(log, n);
    }
  }

  // ---------- One payment's part of it ----------

  /** Every event that carries a payment reference is the operation of that payment's leg. */
  ghost predicate LogIsLegs(txns: seq<Txn>, log: seq<L.Event>) {
    forall i :: 0 <= i < |log| && log[i].ref.Payment? ==>
      log[i].ref.txn < |txns| && log[i].op == LegOp(txns[log[i].ref.txn].input, log[i].ref.leg)
  }

  lemma LogLegs(rows0: L.Rows, s: State)
    requires Inv(rows0, s)
    ensures LogIsLegs(s.txns, s.ledger.log)
  {
    hide L.Replay, L.AllFresh, AllTxns, AllReqs;
    forall i | 0 <= i < |s.ledger.log| && s.ledger.log[i].ref.Payment?
      ensures s.ledger.log[i].ref.txn < |s.txns|
      ensures s.ledger.log[i].op == LegOp(s.txns[s.ledger.log[i].ref.txn].input, s.ledger.log[i].ref.leg)
    {
      assert CallOk(s, s.ledger.log[i].call);
    }
  }

  lemma OneMore(a: int, d: nat, k: nat, f: nat)
    ensures a * (k + 1 + f - d) == a * (k + f - d) + a
    ensures a * (k + (f + 1) - d) == a * (k + f - d) + a
    ensures a * (k + f - (d + 1)) == a * (k + f - d) - a
  {
  }

  lemma {:induction false} PaymentSumIsCounts(txns: seq<Txn>, log: seq<L.Event>, t: nat)
    requires LogIsLegs(txns, log) && t < |txns|
    ensures PaymentSum(log, t) ==
            txns[t].input.amount * (Count(log, t, L.CreditLeg) + Count(log, t, L.RefundLeg) - Count(log, t, L.DebitLeg))
  {
    if log != [] {
      var rest := log[..|log| - 1];
      PaymentSumIsCounts(txns, rest, t);
      OneMore(txns[t].input.amount, Count(rest, t, L.DebitLeg), Count(rest, t, L.CreditLeg), Count(rest, t, L.RefundLeg));
    }
  }

  /** Debited, and neither credited nor given back: the money is on its way, or stranded. */
  predicate OnItsWay(l: L.State, t: nat) { Moved(l, t, 1, 0, 0) }

  function Outstanding(s: State, n: nat): int
    requires n <= |s.txns|
  {
    if n == 0 then 0
    else Outstanding(s, n - 1) + if OnItsWay(s.ledger, n - 1) then s.txns[n - 1].input.amount else 0
  }

  lemma ShapeCounts(l: L.State, t: nat, status: Status, step: Step)
    requires Shape(l, t, status, step)
    ensures Count(l.log, t, L.CreditLeg) + Count(l.log, t, L.RefundLeg) - Count(l.log, t, L.DebitLeg)
            == if OnItsWay(l, t) then -1 else 0
  {
    hide Count;
  }

  lemma PaymentSumOf(rows0: L.Rows, s: State, t: nat)
    requires Inv(rows0, s) && t < |s.txns|
    ensures PaymentSum(s.ledger.log, t) == if OnItsWay(s.ledger, t) then -s.txns[t].input.amount else 0
  {
    LogLegs(rows0, s);
    hide LogIsLegs, Shape, AllReqs, AllCalls, L.Inv;
    PaymentSumIsCounts(s.txns, s.ledger.log, t);
    assert TxnOk(s, t);
    hide OnItsWay, PaymentSum, Count;
    ShapeCounts(s.ledger, t, s.txns[t].status, s.reqs[s.txns[t].owner].step);
  }

  lemma {:induction false} OutstandingIs(rows0: L.Rows, s: State, n: nat)
    requires Inv(rows0, s) && n <= |s.txns|
    ensures PaymentSums(s.ledger.log, n) == -Outstanding(s, n)
  {
    if n > 0 {
      OutstandingIs(rows0, s, n - 1);
      PaymentSumOf(rows0, s, n - 1);
      hide Inv, OnItsWay;
    }
  }

  lemma TotalAccounted(rows0: L.Rows, s: State)
    requires Inv(rows0, s)
    ensures Total(s.ledger.rows) + Outstanding(s, |s.txns|) == Total(rows0) + DirectSum(s.ledger.log)
  {
    ReplayTotal(rows0, s.ledger.log);
    LogLegs(rows0, s);
    SumSplits(s.ledger.log, |s.txns|);
    OutstandingIs(rows0, s, |s.txns|);
  }

  /**
   In every reachable state, all balances together plus what was debited and has not arrived or
   come back equal the initial balances plus what the calls outside any payment brought in.
   */
  lemma Conserved(rows0: L.Rows, actions: seq<Action>)
    requires L.Bounded(rows0)
    ensures var s := Run(Initial(rows0), actions);
            Total(s.ledger.rows) + Outstanding(s, |s.txns|) == Total(rows0) + DirectSum(s.ledger.log)
  {
    Reachable(rows0, actions);
    TotalAccounted(rows0, Run(Initial(rows0), actions));
  }

  // ---------- When every request has returned ----------

  /** The payments whose credit failed and whose compensating credit failed too. */
  predicate Stranded(s: State, t: nat)
    requires t < |s.txns|
  {
    s.txns[t].owner < |s.reqs| && s.reqs[s.txns[t].owner].step == Returned(Errored(t, CreditFailed(false)))
  }

  function StrandedSum(s: State, n: nat): int
    requires n <= |s.txns|
  {
    if n == 0 then 0 else StrandedSum(s, n - 1) + if Stranded(s, n - 1) then s.txns[n - 1].input.amount else 0
  }

  lemma ShapeWhenReturned(l: L.State, t: nat, status: Status, step: Step)
    requires Shape(l, t, status, step) && step.Returned?
    ensures OnItsWay(l, t) <==> step == Returned(Errored(t, CreditFailed(false)))
  {
    hide Count;
  }

  lemma {:induction false} StrandedIsOutstanding(s: State, n: nat)
    requires AllTxns(s) && n <= |s.txns|
    requires forall r :: 0 <= r < |s.reqs| ==> s.reqs[r].step.Returned?
    ensures Outstanding(s, n) == StrandedSum(s, n)
  {
    if n > 0 {
      StrandedIsOutstanding(s, n - 1);
      assert TxnOk(s, n - 1);
      ShapeWhenReturned(s.ledger, n - 1, s.txns[n - 1].status, s.reqs[s.txns[n - 1].owner].step);
    }
  }

  /** When every request has returned, the total is short by exactly the payments whose compensation failed. */
  lemma ShortByStranded(rows0: L.Rows, actions: seq<Action>)
    requires L.Bounded(rows0)
    requires forall r :: 0 <= r < |Run(Initial(rows0), actions).reqs| ==>
      Run(Initial(rows0), actions).reqs[r].step.Returned?
    ensures var s := Run(Initial(rows0), actions);
            Total(s.ledger.rows) == Total(rows0) + DirectSum(s.ledger.log) - StrandedSum(s, |s.txns|)
  {
    Reachable(rows0, actions);
    hide Run;
    var s := Run(Initial(rows0), actions);
    TotalAccounted(rows0, s);
    StrandedIsOutstanding(s, |s.txns|);
  }

  // ---------- Account by account ----------

  /** The part of an account's net change that belongs to no payment. */
  function DirectNet(log: seq<L.Event>, id: string): int {
    if log == [] then 0
    else DirectNet(log[..|log| - 1], id) + if log[|log| - 1].ref.Direct? then L.Delta(log[|log| - 1], id) else 0
  }

  function PaymentNet(log: seq<L.Event>, t: nat, id: string): int {
    if log == [] then 0
    else
      var e := log[|log| - 1];
      PaymentNet(log[..|log| - 1], t, id) + if e.ref.Payment? && e.ref.txn == t then L.Delta(e, id) else 0
  }

  function PaymentNets(log: seq<L.Event>, n: nat, id: string): int {
    if n == 0 then 0 else PaymentNets(log, n - 1, id) + PaymentNet(log, n - 1, id)
  }

  lemma {:induction false} PaymentNetsLast(log: seq<L.Event>, n: nat, id: string)
    requires log != []
    ensures var e := log[|log| - 1];
            PaymentNets(log, n, id) ==
              PaymentNets(log[..|log| - 1], n, id) + if e.ref.Payment? && e.ref.txn < n then L.Delta(e, id) else 0
  {
    if n > 0 {
      PaymentNetsLast(log, n - 1, id);
    }
  }

  lemma {:induction false} PaymentNetsEmpty(n: nat, id: string)
    ensures PaymentNets([], n, id) == 0
  {
    if n > 0 {
      PaymentNetsEmpty(n - 1, id);
    }
  }

  lemma {:induction false} NetSplits(log: seq<L.Event>, n: nat, id: string)
    requires forall i :: 0 <= i < |log| && log[i].ref.Payment? ==> log[i].ref.txn < n
    ensures L.NetChange(log, id) == DirectNet(log, id) + PaymentNets(log, n, id)
  {
    if log == [] {
      PaymentNetsEmpty(n, id);
    } else {
      NetSplits(log[..|log| - 1], n, id);
      PaymentNetsLast(log, n, id);
    }
  }

  function Share(mine: bool, amount: int, times: nat): int { if mine then amount * times else 0 }

  lemma ShareMore(mine: bool, amount: int, times: nat)
    ensures Share(mine, amount, times + 1) == Share(mine, amount, times) + if mine then amount else 0
    ensures Share(mine, amount, 0) == 0 && Share(mine, amount, 1) == if mine then amount else 0
  {
  }

  /** A payment's debits leave its source, its credits reach its destination, its refunds return to its source. */
  lemma {:induction false} PaymentNetIsCounts(txns: seq<Txn>, log: seq<L.Event>, t: nat, id: string)
    requires LogIsLegs(txns, log) && t < |txns|
    ensures var input := txns[t].input;
      PaymentNet(log, t, id) ==
        Share(input.dest == id, input.amount, Count(log, t, L.CreditLeg))
        + Share(input.source == id, input.amount, Count(log, t, L.RefundLeg))
        - Share(input.source == id, input.amount, Count(log, t, L.DebitLeg))
  {
    var input := txns[t].input;
    ShareMore(input.source == id, input.amount, 0);
    ShareMore(input.dest == id, input.amount, 0);
    if log != [] {
      var rest := log[..|log| - 1];
      PaymentNetIsCounts(txns, rest, t, id);
      ShareMore(input.dest == id, input.amount, Count(rest, t, L.CreditLeg));
      ShareMore(input.source == id, input.amount, Count(rest, t, L.RefundLeg));
      ShareMore(input.source == id, input.amount, Count(rest, t, L.DebitLeg));
      hide Share;
    }
  }

  /** What a transaction has done to an account so far. */
  function Effect(l: L.State, txn: Txn, t: nat, id: string): int {
    (if (Moved(l, t, 1, 0, 0) || Moved(l, t, 1, 1, 0)) && txn.input.source == id then -txn.input.amount else 0)
    + (if Moved(l, t, 1, 1, 0) && txn.input.dest == id then txn.input.amount else 0)
  }

  function Effects(s: State, n: nat, id: string): int
    requires n <= |s.txns|
  {
    if n == 0 then 0 else Effects(s, n - 1, id) + Effect(s.ledger, s.txns[n - 1], n - 1, id)
  }

  lemma ShapeEffect(l: L.State, txn: Txn, t: nat, step: Step, id: string)
    requires Shape(l, t, txn.status, step)
    ensures Effect(l, txn, t, id) ==
      Share(txn.input.dest == id, txn.input.amount, Count(l.log, t, L.CreditLeg))
      + Share(txn.input.source == id, txn.input.amount, Count(l.log, t, L.RefundLeg))
      - Share(txn.input.source == id, txn.input.amount, Count(l.log, t, L.DebitLeg))
  {
    ShareMore(txn.input.source == id, txn.input.amount, 0);
    ShareMore(txn.input.dest == id, txn.input.amount, 0);
    hide Count, Share;
  }

  lemma EffectIsNet(rows0: L.Rows, s: State, t: nat, id: string)
    requires Inv(rows0, s) && t < |s.txns|
    ensures PaymentNet(s.ledger.log, t, id) == Effect(s.ledger, s.txns[t], t, id)
  {
    LogLegs(rows0, s);
    hide LogIsLegs, Shape, AllReqs, AllCalls, L.Inv, Effect, PaymentNet, Count, Share;
    PaymentNetIsCounts(s.txns, s.ledger.log, t, id);
    assert TxnOk(s, t);
    ShapeEffect(s.ledger, s.txns[t], t, s.reqs[s.txns[t].owner].step, id);
  }

  lemma {:induction false} EffectsAreNets(rows0: L.Rows, s: State, n: nat, id: string)
    requires Inv(rows0, s) && n <= |s.txns|
    ensures PaymentNets(s.ledger.log, n, id) == Effects(s, n, id)
  {
    if n > 0 {
      EffectsAreNets(rows0, s, n - 1, id);
      EffectIsNet(rows0, s, n - 1, id);
      hide Inv, Effect;
    }
  }

  /**
   In every reachable state each balance is the initial one, plus what the calls outside any payment did,
   minus what was debited from it and not given back, plus what was credited to it.
   */
  lemma AccountsAddUp(rows0: L.Rows, actions: seq<Action>, id: string)
    requires L.Bounded(rows0) && id in rows0
    ensures var s := Run(Initial(rows0), actions);
      && id in s.ledger.rows
      && s.ledger.rows[id].balance == rows0[id].balance + DirectNet(s.ledger.log, id) + Effects(s, |s.txns|, id)
  {
    Reachable(rows0, actions);
    hide Run;
    AccountAddsUp(rows0, Run(Initial(rows0), actions), id);
  }

  lemma AccountAddsUp(rows0: L.Rows, s: State, id: string)
    requires Inv(rows0, s) && id in rows0
    ensures id in s.ledger.rows
    ensures s.ledger.rows[id].balance == rows0[id].balance + DirectNet(s.ledger.log, id) + Effects(s, |s.txns|, id)
  {
    LogLegs(rows0, s);
    L.ReplayTotals(rows0, s.ledger.log, id);
    EffectsAreNets(rows0, s, |s.txns|, id);
    NetSplits(s.ledger.log, |s.txns|, id);
    hide AllTxns, AllReqs, AllCalls, L.Replay, PaymentNets, Effects;
  }
}
