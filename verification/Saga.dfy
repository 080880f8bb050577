/**
 The debit-then-credit payment as a machine: any number of requests, each going through
 lookup, pre-check, insert, debit, credit and compensation one call at a time, interleaved
 with each other and with the reads and writes inside account-svc.
 */
module Saga {
  import opened Wrappers
  import L = Ledger

  /** The external reference of a transaction; identifiers of different kinds are taken to be different. */
  datatype Reference = NoReference | ToTransaction(t: nat) | ToCharge(c: nat) | ToMerchant(nmid: string)

  datatype Details = Details(paymentType: string, currency: string, reference: Reference)

  datatype Input = Input(key: string, source: string, dest: string, amount: int, details: Details)

  datatype Status = Pending | Processing | Success | Failed

  /** A row of the transactions table. `owner`, the request that inserted it, is kept for the proofs only. */
  datatype Txn = Txn(input: Input, status: Status, owner: nat)

  datatype Trouble = NotStarted | DebitFailed | CreditFailed(refunded: bool) | NotMarked

  datatype Response =
    | Replayed(t: nat, seen: Status)
    | Completed(t: nat)
    | Refused
    | Errored(t: nat, how: Trouble)

  datatype Step =
    | Lookup | PreCheck | Insert | Reread
    | MarkProcessing(t: nat)
    | Debiting(t: nat, c: nat)
    | Crediting(t: nat, c: nat)
    | Refunding(t: nat, c: nat)
    | MarkFailed(t: nat, how: Trouble)
    | MarkSuccess(t: nat)
    | Returned(r: Response)

  datatype Request = Request(input: Input, step: Step)

  datatype State = State(ledger: L.State, txns: seq<Txn>, reqs: seq<Request>)

  datatype Action = Arrive(input: Input) | Proceed(r: nat, fault: Fault) | AccountStep(a: L.Action)

  function FindKey(txns: seq<Txn>, key: string): (found: Option<nat>)
    ensures found.Some? ==> found.value < |txns| && txns[found.value].input.key == key
    ensures found.None? ==> forall i :: 0 <= i < |txns| ==> txns[i].input.key != key
  {
    if txns == [] then None
    else if txns[|txns| - 1].input.key == key then Some(|txns| - 1)
    else FindKey(txns[..|txns| - 1], key)
  }

  /** The account operation of one leg of a payment. */
  function LegOp(input: Input, leg: L.Leg): L.Op {
    match leg
    case DebitLeg => L.Debit(input.source, input.amount)
    case CreditLeg => L.Credit(input.dest, input.amount)
    case RefundLeg => L.Credit(input.source, input.amount)
  }

  function Goto(s: State, r: nat, step: Step): State
    requires r < |s.reqs|
  {
    s.(reqs := s.reqs[r := s.reqs[r].(step := step)])
  }

  function SetStatus(s: State, t: nat, status: Status): State {
    if t < |s.txns| then s.(txns := s.txns[t := s.txns[t].(status := status)]) else s
  }

  /** Send one leg to account-svc; the new call is the last one. */
  function Send(s: State, t: nat, leg: L.Leg): State {
    if t < |s.txns| then
      s.(ledger := L.Next(s.ledger, L.Issue(LegOp(s.txns[t].input, leg), L.Payment(t, leg))))
    else s
  }

  function Outcome(s: State, c: nat): Option<L.Outcome> {
    if c < |s.ledger.calls| && s.ledger.calls[c].phase.Done? then Some(s.ledger.calls[c].phase.out) else None
  }

  function ReturnExisting(s: State, r: nat, otherwise: Step): State
    requires r < |s.reqs|
  {
    match FindKey(s.txns, s.reqs[r].input.key)
    case Some(t) => Goto(s, r, Returned(Replayed(t, s.txns[t].status)))
    case None => Goto(s, r, otherwise)
  }

  predicate CheckSource(rows: L.Rows, input: Input) {
    && input.source in rows
    && var row := rows[input.source];
       (row.status == "" || row.status == "ACTIVE") && row.balance >= input.amount
  }

  /** The unique key and the positive-amount constraint of the table. */
  predicate Insertable(txns: seq<Txn>, input: Input) {
    FindKey(txns, input.key).None? && input.amount > 0
  }

  function DoInsert(s: State, r: nat, fault: Fault): State
    requires r < |s.reqs|
  {
    var input := s.reqs[r].input;
    if !Insertable(s.txns, input) || fault == Fails then
      Goto(s, r, Reread)
    else
      Goto(s.(txns := s.txns + [Txn(input, Pending, r)]), r, if fault == Fine then MarkProcessing(|s.txns|) else Reread)
  }

  function Wait(s: State, r: nat): State
    requires r < |s.reqs|
  {
    match s.reqs[r].step
    case Debiting(t, c) =>
      (match Outcome(s, c)
       case None => s
       case Some(out) =>
         if out == L.Applied then Goto(Send(s, t, L.CreditLeg), r, Crediting(t, |s.ledger.calls|))
         else Goto(s, r, MarkFailed(t, DebitFailed)))
    case Crediting(t, c) =>
      (match Outcome(s, c)
       case None => s
       case Some(out) =>
         if out == L.Applied then Goto(s, r, MarkSuccess(t))
         else Goto(Send(s, t, L.RefundLeg), r, Refunding(t, |s.ledger.calls|)))
    case Refunding(t, c) =>
      (match Outcome(s, c)
       case None => s
       case Some(out) => Goto(s, r, MarkFailed(t, CreditFailed(out == L.Applied))))
    case _ => s
  }

  function Write(s: State, t: nat, status: Status, fault: Fault): State {
    if fault == Fails then s else SetStatus(s, t, status)
  }

  /** The next thing request `r` does. */
  function DoProceed(s: State, r: nat, fault: Fault): State
    requires r < |s.reqs|
  {
    match s.reqs[r].step
    case Lookup => if fault == Fine then ReturnExisting(s, r, PreCheck) else Goto(s, r, Returned(Refused))
    case PreCheck =>
      Goto(s, r, if fault == Fine && CheckSource(s.ledger.rows, s.reqs[r].input) then Insert else Returned(Refused))
    case Insert => DoInsert(s, r, fault)
    case Reread =>
      if fault == Fine then ReturnExisting(s, r, Returned(Refused)) else Goto(s, r, Returned(Refused))
    case MarkProcessing(t) =>
      var w := Write(s, t, Processing, fault);
      if fault == Fine then Goto(Send(w, t, L.DebitLeg), r, Debiting(t, |s.ledger.calls|))
      else Goto(w, r, Returned(Errored(t, NotStarted)))
    case MarkFailed(t, how) => Goto(Write(s, t, Failed, fault), r, Returned(Errored(t, how)))
    case MarkSuccess(t) =>
      Goto(Write(s, t, Success, fault), r, Returned(if fault == Fine then Completed(t) else Errored(t, NotMarked)))
    case Returned(_) => s
    case _ => Wait(s, r)
  }

  /** Account-svc makes progress; calls with a payment reference come only from the requests. */
  predicate FromOutside(a: L.Action) { a.Issue? ==> a.ref == L.Direct }

  function Next(s: State, a: Action): State {
    match a
    case Arrive(input) => s.(reqs := s.reqs + [Request(input, Lookup)])
    case Proceed(r, fault) => if r < |s.reqs| then DoProceed(s, r, fault) else s
    case AccountStep(b) => if FromOutside(b) then s.(ledger := L.Next(s.ledger, b)) else s
  }

  function Run(s: State, actions: seq<Action>): State {
    if actions == [] then s else Next(Run(s, actions[..|actions| - 1]), actions[|actions| - 1])
  }

  function Initial(rows: L.Rows): State { State(L.State(rows, [], []), [], []) }

  // ---------- The invariant ----------

  /** How often a leg of a payment has been applied. */
  function Count(log: seq<L.Event>, t: nat, leg: L.Leg): nat {
    if log == [] then 0
    else
      var e := log[|log| - 1];
      Count(log[..|log| - 1], t, leg) + if e.out == L.Applied && e.ref == L.Payment(t, leg) then 1 else 0
  }

  predicate Moved(l: L.State, t: nat, debits: nat, credits: nat, refunds: nat) {
    && Count(l.log, t, L.DebitLeg) == debits
    && Count(l.log, t, L.CreditLeg) == credits
    && Count(l.log, t, L.RefundLeg) == refunds
  }

  function AppliedOnce(l: L.State, c: nat): nat {
    if c < |l.calls| && l.calls[c].phase == L.Done(L.Applied) then 1 else 0
  }

  predicate IsLeg(l: L.State, c: nat, t: nat, leg: L.Leg) {
    c < |l.calls| && l.calls[c].ref == L.Payment(t, leg)
  }

  predicate MovedBy(l: L.State, t: nat, how: Trouble) {
    match how
    case NotStarted => Moved(l, t, 0, 0, 0)
    case DebitFailed => Moved(l, t, 0, 0, 0)
    case CreditFailed(refunded) => Moved(l, t, 1, 0, if refunded then 1 else 0)
    case NotMarked => Moved(l, t, 1, 1, 0)
  }

  /** What the step of the request that inserted transaction `t` says about its money and its status. */
  predicate Shape(l: L.State, t: nat, status: Status, step: Step) {
    match step
    case Lookup => false
    case PreCheck => false
    case Insert => false
    case Reread => status == Pending && Moved(l, t, 0, 0, 0)
    case MarkProcessing(u) => u == t && status == Pending && Moved(l, t, 0, 0, 0)
    case Debiting(u, c) =>
      u == t && status == Processing && IsLeg(l, c, t, L.DebitLeg) && Moved(l, t, AppliedOnce(l, c), 0, 0)
    case Crediting(u, c) =>
      u == t && status == Processing && IsLeg(l, c, t, L.CreditLeg) && Moved(l, t, 1, AppliedOnce(l, c), 0)
    case Refunding(u, c) =>
      u == t && status == Processing && IsLeg(l, c, t, L.RefundLeg) && Moved(l, t, 1, 0, AppliedOnce(l, c))
    case MarkFailed(u, how) =>
      u == t && status == Processing && (how.DebitFailed? || how.CreditFailed?) && MovedBy(l, t, how)
    case MarkSuccess(u) => u == t && status == Processing && Moved(l, t, 1, 1, 0)
    case Returned(Replayed(_, _)) => status == Pending && Moved(l, t, 0, 0, 0)
    case Returned(Refused) => status == Pending && Moved(l, t, 0, 0, 0)
    case Returned(Completed(u)) => u == t && status == Success && Moved(l, t, 1, 1, 0)
    case Returned(Errored(u, how)) => u == t && MovedBy(l, t, how) && StatusAfter(status, how)
  }

  predicate StatusAfter(status: Status, how: Trouble) {
    match how
    case NotStarted => status == Pending || status == Processing
    case DebitFailed => status == Processing || status == Failed
    case CreditFailed(_) => status == Processing || status == Failed
    case NotMarked => status == Processing || status == Success
  }

  predicate TxnOk(s: State, t: nat)
    requires t < |s.txns|
  {
    var txn := s.txns[t];
    && txn.owner < |s.reqs|
    && txn.input == s.reqs[txn.owner].input
    && Shape(s.ledger, t, txn.status, s.reqs[txn.owner].step)
  }

  /** The transaction a request has in hand, and whether it is one it inserted itself. */
  predicate ReqOk(s: State, r: nat)
    requires r < |s.reqs|
  {
    match s.reqs[r].step
    case Lookup => true
    case PreCheck => true
    case Insert => true
    case Reread => true
    case Returned(Refused) => true
    case Returned(Replayed(t, _)) => t < |s.txns| && s.txns[t].input.key == s.reqs[r].input.key
    case Returned(Completed(t)) => t < |s.txns| && s.txns[t].owner == r
    case Returned(Errored(t, _)) => t < |s.txns| && s.txns[t].owner == r
    case step => step.t < |s.txns| && s.txns[step.t].owner == r
  }

  /** The call a step is waiting for. */
  function Awaited(step: Step): Option<(nat, L.Leg, nat)> {
    match step
    case Debiting(t, c) => Some((t, L.DebitLeg, c))
    case Crediting(t, c) => Some((t, L.CreditLeg, c))
    case Refunding(t, c) => Some((t, L.RefundLeg, c))
    case _ => None
  }

  /** A call that carries a payment reference moves that payment's money; while it is pending, its owner waits for it. */
  predicate CallOk(s: State, c: nat)
    requires c < |s.ledger.calls|
  {
    var call := s.ledger.calls[c];
    call.ref.Payment? ==>
      && call.ref.txn < |s.txns|
      && call.op == LegOp(s.txns[call.ref.txn].input, call.ref.leg)
      && (!call.phase.Done? ==>
            && s.txns[call.ref.txn].owner < |s.reqs|
            && Awaited(s.reqs[s.txns[call.ref.txn].owner].step) == Some((call.ref.txn, call.ref.leg, c)))
  }

  ghost predicate DistinctKeys(txns: seq<Txn>) {
    forall i, j :: 0 <= i < j < |txns| ==> txns[i].input.key != txns[j].input.key
  }

  ghost predicate AllTxns(s: State) { forall t :: 0 <= t < |s.txns| ==> TxnOk(s, t) }

  ghost predicate AllReqs(s: State) { forall r :: 0 <= r < |s.reqs| ==> ReqOk(s, r) }

  ghost predicate AllCalls(s: State) { forall c :: 0 <= c < |s.ledger.calls| ==> CallOk(s, c) }

  ghost predicate Inv(rows0: L.Rows, s: State) {
    L.Inv(rows0, s.ledger) && DistinctKeys(s.txns) && AllTxns(s) && AllReqs(s) && AllCalls(s)
  }

  // ---------- Steps of a request ----------

  /** The transaction a step is working on as its inserter. */
  function Owned(step: Step): Option<nat> {
    match step
    case Lookup => None
    case PreCheck => None
    case Insert => None
    case Reread => None
    case Returned(_) => None
    case _ => Some(step.t)
  }

  /** The call the request waits for, if any, has answered. */
  predicate Settled(s: State, r: nat)
    requires r < |s.reqs|
  {
    match Awaited(s.reqs[r].step)
    case None => true
    case Some(w) => w.2 < |s.ledger.calls| && s.ledger.calls[w.2].phase.Done?
  }

  /** A request moves on without touching any table: its own transactions must fit the new step. */
  lemma GotoKeeps(rows0: L.Rows, s: State, r: nat, step: Step)
    requires Inv(rows0, s) && r < |s.reqs| && Settled(s, r)
    requires ReqOk(Goto(s, r, step), r)
    requires forall t :: 0 <= t < |s.txns| && s.txns[t].owner == r ==> Shape(s.ledger, t, s.txns[t].status, step)
    ensures Inv(rows0, Goto(s, r, step))
  {
    hide L.Inv, Shape, DistinctKeys;
    var s' := Goto(s, r, step);
    forall t | 0 <= t < |s'.txns| ensures TxnOk(s', t) {
      assert TxnOk(s, t);
    }
    forall q | 0 <= q < |s'.reqs| ensures ReqOk(s', q) {
      assert ReqOk(s, q);
    }
    forall c | 0 <= c < |s'.ledger.calls| ensures CallOk(s', c) {
      assert CallOk(s, c);
    }
  }

  /** A request that owns transaction `t` sets its status and moves on. */
  lemma UpdateKeeps(rows0: L.Rows, s: State, r: nat, t: nat, status: Status, step: Step)
    requires Inv(rows0, s) && r < |s.reqs| && Settled(s, r) && Owned(s.reqs[r].step) == Some(t)
    requires t < |s.txns| && Shape(s.ledger, t, status, step)
    requires ReqOk(Goto(SetStatus(s, t, status), r, step), r)
    ensures Inv(rows0, Goto(SetStatus(s, t, status), r, step))
  {
    hide L.Inv;
    OnlyOwns(s, r, t);
    hide Shape;
    var s' := Goto(SetStatus(s, t, status), r, step);
    assert ReqOk(s, r);
    forall u | 0 <= u < |s'.txns| ensures TxnOk(s', u) {
      assert TxnOk(s, u);
    }
    forall q | 0 <= q < |s'.reqs| ensures ReqOk(s', q) {
      assert ReqOk(s, q);
    }
    forall c | 0 <= c < |s'.ledger.calls| ensures CallOk(s', c) {
      assert CallOk(s, c);
    }
  }

  lemma OnlyOwns(s: State, r: nat, t: nat)
    requires AllTxns(s) && r < |s.reqs| && Owned(s.reqs[r].step) == Some(t)
    ensures forall u :: 0 <= u < |s.txns| && s.txns[u].owner == r ==> u == t
  {
    hide Moved, MovedBy;
    forall u | 0 <= u < |s.txns| && s.txns[u].owner == r ensures u == t {
      assert TxnOk(s, u);
    }
  }

  /** Sending a leg adds a pending call and changes nothing that is already there. */
  lemma ShapeAfterIssue(l: L.State, op: L.Op, ref: L.Ref, t: nat, status: Status, step: Step)
    requires Shape(l, t, status, step)
    ensures Shape(L.Next(l, L.Issue(op, ref)), t, status, step)
  {
  }

  lemma SendTxnOk(s: State, r: nat, t: nat, leg: L.Leg, step: Step, u: nat)
    requires AllTxns(s) && r < |s.reqs| && Owned(s.reqs[r].step) == Some(t) && t < |s.txns| && u < |s.txns|
    requires Shape(Send(s, t, leg).ledger, t, s.txns[t].status, step)
    ensures TxnOk(Goto(Send(s, t, leg), r, step), u)
  {
    OnlyOwns(s, r, t);
    assert TxnOk(s, u) && TxnOk(s, t);
    hide Shape, LegOp;
    if u != t {
      ShapeAfterIssue(s.ledger, LegOp(s.txns[t].input, leg), L.Payment(t, leg), u, s.txns[u].status, s.reqs[s.txns[u].owner].step);
    }
  }

  /** A request that owns `t` sends the next leg and waits for it. */
  lemma SendReqOk(s: State, r: nat, t: nat, leg: L.Leg, step: Step, q: nat)
    requires AllReqs(s) && r < |s.reqs| && Owned(s.reqs[r].step) == Some(t) && t < |s.txns| && q < |s.reqs|
    requires Awaited(step) == Some((t, leg, |s.ledger.calls|))
    ensures ReqOk(Goto(Send(s, t, leg), r, step), q)
  {
    hide LegOp, L.Next;
    assert ReqOk(s, r) && ReqOk(s, q);
  }

  lemma SendCallOk(s: State, r: nat, t: nat, leg: L.Leg, step: Step, c: nat)
    requires AllCalls(s) && r < |s.reqs| && Settled(s, r) && t < |s.txns| && s.txns[t].owner == r
    requires Awaited(step) == Some((t, leg, |s.ledger.calls|))
    requires c < |Send(s, t, leg).ledger.calls|
    ensures CallOk(Goto(Send(s, t, leg), r, step), c)
  {
    hide LegOp;
    if c < |s.ledger.calls| {
      assert CallOk(s, c);
    }
  }

  lemma SendKeeps(rows0: L.Rows, s: State, r: nat, t: nat, leg: L.Leg, step: Step)
    requires Inv(rows0, s) && r < |s.reqs| && Settled(s, r) && Owned(s.reqs[r].step) == Some(t) && t < |s.txns|
    requires Awaited(step) == Some((t, leg, |s.ledger.calls|))
    requires Shape(Send(s, t, leg).ledger, t, s.txns[t].status, step)
    ensures Inv(rows0, Goto(Send(s, t, leg), r, step))
  {
    var s' := Goto(Send(s, t, leg), r, step);
    L.NextKeeps(rows0, s.ledger, L.Issue(LegOp(s.txns[t].input, leg), L.Payment(t, leg)));
    assert ReqOk(s, r);
    assert s'.txns == s.txns && |s'.reqs| == |s.reqs| && s'.ledger == Send(s, t, leg).ledger;
    hide L.Inv, L.Next, TxnOk, ReqOk, CallOk, Shape, Settled, Awaited, LegOp;
    forall u | 0 <= u < |s'.txns| ensures TxnOk(s', u) {
      SendTxnOk(s, r, t, leg, step, u);
    }
    forall q | 0 <= q < |s'.reqs| ensures ReqOk(s', q) {
      SendReqOk(s, r, t, leg, step, q);
    }
    forall c | 0 <= c < |s'.ledger.calls| ensures CallOk(s', c) {
      SendCallOk(s, r, t, leg, step, c);
    }
  }

  lemma {:induction false} CountAbsent(log: seq<L.Event>, t: nat, leg: L.Leg)
    requires forall i :: 0 <= i < |log| ==> log[i].ref != L.Payment(t, leg)
    ensures Count(log, t, leg) == 0
  {
    if log != [] {
      CountAbsent(log[..|log| - 1], t, leg);
    }
  }

  /** No money has moved for a transaction that does not exist yet. */
  lemma NothingMovedYet(rows0: L.Rows, s: State, t: nat)
    requires Inv(rows0, s) && t >= |s.txns|
    ensures Moved(s.ledger, t, 0, 0, 0)
  {
    forall i, leg | 0 <= i < |s.ledger.log| ensures s.ledger.log[i].ref != L.Payment(t, leg) {
      assert CallOk(s, s.ledger.log[i].call);
    }
    CountAbsent(s.ledger.log, t, L.DebitLeg);
    CountAbsent(s.ledger.log, t, L.CreditLeg);
    CountAbsent(s.ledger.log, t, L.RefundLeg);
  }

  lemma InsertKeeps(rows0: L.Rows, s: State, r: nat, fault: Fault)
    requires Inv(rows0, s) && r < |s.reqs| && s.reqs[r].step == Insert
    ensures Inv(rows0, DoInsert(s, r, fault))
  {
    var input := s.reqs[r].input;
    forall t | 0 <= t < |s.txns| ensures s.txns[t].owner != r {
      assert TxnOk(s, t);
    }
    if !Insertable(s.txns, input) || fault == Fails {
      GotoKeeps(rows0, s, r, Reread);
    } else {
      NothingMovedYet(rows0, s, |s.txns|);
      hide L.Inv, Moved;
      var s' := DoInsert(s, r, fault);
      forall t | 0 <= t < |s'.txns| ensures TxnOk(s', t) {
        if t < |s.txns| {
          assert TxnOk(s, t);
        }
      }
      forall q | 0 <= q < |s'.reqs| ensures ReqOk(s', q) {
        assert ReqOk(s, q);
      }
      forall c | 0 <= c < |s'.ledger.calls| ensures CallOk(s', c) {
        assert CallOk(s, c);
      }
    }
  }

  /** A request that is still looking around owns nothing, or only a row it does not know it wrote. */
  lemma BrowseKeeps(rows0: L.Rows, s: State, r: nat, fault: Fault)
    requires Inv(rows0, s) && r < |s.reqs|
    requires s.reqs[r].step == Lookup || s.reqs[r].step == PreCheck || s.reqs[r].step == Reread
    ensures Inv(rows0, DoProceed(s, r, fault))
  {
    forall t, step | 0 <= t < |s.txns| && s.txns[t].owner == r
      ensures s.reqs[r].step == Reread
      ensures step == Returned(Refused) || (step.Returned? && step.r.Replayed?) ==> Shape(s.ledger, t, s.txns[t].status, step)
    {
      assert TxnOk(s, t);
    }
    hide Inv, Shape;
    GotoKeeps(rows0, s, r, Returned(Refused));
    if s.reqs[r].step == PreCheck {
      GotoKeeps(rows0, s, r, Insert);
    } else {
      var found := FindKey(s.txns, s.reqs[r].input.key);
      if found.Some? {
        GotoKeeps(rows0, s, r, Returned(Replayed(found.value, s.txns[found.value].status)));
      } else if s.reqs[r].step == Lookup {
        GotoKeeps(rows0, s, r, PreCheck);
      }
    }
  }

  lemma SameStatus(s: State, t: nat)
    requires t < |s.txns|
    ensures SetStatus(s, t, s.txns[t].status) == s
  {
    assert s.txns[t := s.txns[t]] == s.txns;
  }

  /** Setting the final status, well or not, and returning. */
  lemma FinalKeeps(rows0: L.Rows, s: State, r: nat, fault: Fault)
    requires Inv(rows0, s) && r < |s.reqs| && (s.reqs[r].step.MarkFailed? || s.reqs[r].step.MarkSuccess?)
    ensures Inv(rows0, DoProceed(s, r, fault))
  {
    var step := s.reqs[r].step;
    var t := step.t;
    assert ReqOk(s, r) && TxnOk(s, t);
    hide Inv, Moved;
    SameStatus(s, t);
    var status := if fault == Fails then Processing else if step.MarkFailed? then Failed else Success;
    var next := if step.MarkFailed? then Errored(t, step.how) else if fault == Fine then Completed(t) else Errored(t, NotMarked);
    UpdateKeeps(rows0, s, r, t, status, Returned(next));
  }

  lemma StartKeeps(rows0: L.Rows, s: State, r: nat, fault: Fault)
    requires Inv(rows0, s) && r < |s.reqs| && s.reqs[r].step.MarkProcessing?
    ensures Inv(rows0, DoProceed(s, r, fault))
  {
    var t := s.reqs[r].step.t;
    assert ReqOk(s, r) && TxnOk(s, t);
    SameStatus(s, t);
    hide Inv;
    if fault != Fine {
      UpdateKeeps(rows0, s, r, t, if fault == Fails then Pending else Processing, Returned(Errored(t, NotStarted)));
    } else {
      StartFineKeeps(rows0, s, r, t);
    }
  }

  /** Marking PROCESSING and sending the debit happen in one step of the request. */
  lemma StartFineKeeps(rows0: L.Rows, s: State, r: nat, t: nat)
    requires Inv(rows0, s) && r < |s.reqs| && s.reqs[r].step == MarkProcessing(t) && t < |s.txns|
    requires s.txns[t].owner == r && Shape(s.ledger, t, s.txns[t].status, s.reqs[r].step)
    ensures Inv(rows0, DoProceed(s, r, Fine))
  {
    var w := SetStatus(s, t, Processing);
    var s' := DoProceed(s, r, Fine);
    var c := |s.ledger.calls|;
    var issue := L.Issue(LegOp(s.txns[t].input, L.DebitLeg), L.Payment(t, L.DebitLeg));
    L.NextKeeps(rows0, s.ledger, issue);
    hide L.Inv;
    OnlyOwns(s, r, t);
    forall u | 0 <= u < |s'.txns| ensures TxnOk(s', u) {
      assert TxnOk(s, u);
      if u != t {
        ShapeAfterIssue(s.ledger, issue.op, issue.ref, u, s.txns[u].status, s.reqs[s.txns[u].owner].step);
      }
    }
    hide Shape;
    forall q | 0 <= q < |s'.reqs| ensures ReqOk(s', q) {
      assert ReqOk(s, q);
    }
    forall d | 0 <= d < |s'.ledger.calls| ensures CallOk(s', d) {
      if d < c {
        assert CallOk(s, d);
      }
    }
  }

  /** The call the request waits for has its answer. */
  predicate Answered(s: State, r: nat)
    requires r < |s.reqs|
  {
    Awaited(s.reqs[r].step).Some? && Outcome(s, s.reqs[r].step.c).Some?
  }

  lemma RefusedKeeps(rows0: L.Rows, s: State, r: nat)
    requires Inv(rows0, s) && r < |s.reqs| && Answered(s, r) && Outcome(s, s.reqs[r].step.c).value != L.Applied
    ensures Inv(rows0, Wait(s, r))
  {
    var step := s.reqs[r].step;
    var t := step.t;
    assert ReqOk(s, r) && TxnOk(s, t);
    OnlyOwns(s, r, t);
    hide Inv, Count;
    match step
    case Debiting(_, _) => GotoKeeps(rows0, s, r, MarkFailed(t, DebitFailed));
    case Crediting(_, _) => SendKeeps(rows0, s, r, t, L.RefundLeg, Refunding(t, |s.ledger.calls|));
    case Refunding(_, _) => GotoKeeps(rows0, s, r, MarkFailed(t, CreditFailed(false)));
  }

  lemma AcceptedKeeps(rows0: L.Rows, s: State, r: nat)
    requires Inv(rows0, s) && r < |s.reqs| && Answered(s, r) && Outcome(s, s.reqs[r].step.c).value == L.Applied
    ensures Inv(rows0, Wait(s, r))
  {
    var step := s.reqs[r].step;
    var t := step.t;
    assert ReqOk(s, r) && TxnOk(s, t);
    OnlyOwns(s, r, t);
    hide Inv, Count;
    match step
    case Debiting(_, _) => SendKeeps(rows0, s, r, t, L.CreditLeg, Crediting(t, |s.ledger.calls|));
    case Crediting(_, _) => GotoKeeps(rows0, s, r, MarkSuccess(t));
    case Refunding(_, _) => GotoKeeps(rows0, s, r, MarkFailed(t, CreditFailed(true)));
  }

  lemma WaitKeeps(rows0: L.Rows, s: State, r: nat)
    requires Inv(rows0, s) && r < |s.reqs| && Awaited(s.reqs[r].step).Some?
    ensures Inv(rows0, Wait(s, r))
  {
    hide Inv;
    if Answered(s, r) {
      if Outcome(s, s.reqs[r].step.c).value == L.Applied {
        AcceptedKeeps(rows0, s, r);
      } else {
        RefusedKeeps(rows0, s, r);
      }
    }
  }

  lemma ProceedKeeps(rows0: L.Rows, s: State, r: nat, fault: Fault)
    requires Inv(rows0, s) && r < |s.reqs|
    ensures Inv(rows0, DoProceed(s, r, fault))
  {
    hide Inv;
    match s.reqs[r].step
    case Lookup => BrowseKeeps(rows0, s, r, fault);
    case PreCheck => BrowseKeeps(rows0, s, r, fault);
    case Reread => BrowseKeeps(rows0, s, r, fault);
    case Insert => InsertKeeps(rows0, s, r, fault);
    case MarkProcessing(_) => StartKeeps(rows0, s, r, fault);
    case MarkFailed(_, _) => FinalKeeps(rows0, s, r, fault);
    case MarkSuccess(_) => FinalKeeps(rows0, s, r, fault);
    case Returned(_) =>
    case _ => WaitKeeps(rows0, s, r);
  }

  // ---------- Steps of account-svc ----------

  lemma CountLast(log: seq<L.Event>, e: L.Event, t: nat, leg: L.Leg)
    ensures Count(log + [e], t, leg) == Count(log, t, leg) + if e.out == L.Applied && e.ref == L.Payment(t, leg) then 1 else 0
  {
    assert (log + [e])[..|log|] == log;
  }

  /** A call that answers moves the money of its own payment, and only that. */
  lemma MovedAfterFinish(l: L.State, c: nat, out: L.Outcome, t: nat, d: nat, k: nat, f: nat)
    requires c < |l.calls| && Moved(l, t, d, k, f)
    ensures var hit := (leg: L.Leg) => if out == L.Applied && l.calls[c].ref == L.Payment(t, leg) then 1 else 0;
            Moved(L.Finish(l, c, out), t, d + hit(L.DebitLeg), k + hit(L.CreditLeg), f + hit(L.RefundLeg))
  {
    var e := L.Event(c, l.calls[c].op, l.calls[c].ref, out);
    CountLast(l.log, e, t, L.DebitLeg);
    CountLast(l.log, e, t, L.CreditLeg);
    CountLast(l.log, e, t, L.RefundLeg);
  }

  /** A call that answers keeps the shape of every transaction whose owner waits for it or that it does not concern. */
  lemma ShapeAfterFinish(l: L.State, c: nat, out: L.Outcome, t: nat, status: Status, step: Step)
    requires Shape(l, t, status, step) && c < |l.calls| && !l.calls[c].phase.Done?
    requires forall leg :: l.calls[c].ref == L.Payment(t, leg) ==> Awaited(step) == Some((t, leg, c))
    ensures Shape(L.Finish(l, c, out), t, status, step)
  {
    MovedAfterFinish(l, c, out, t, Count(l.log, t, L.DebitLeg), Count(l.log, t, L.CreditLeg), Count(l.log, t, L.RefundLeg));
    hide Count;
  }

  lemma ShapeAfterPhase(l: L.State, c: nat, phase: L.Phase, t: nat, status: Status, step: Step)
    requires Shape(l, t, status, step) && c < |l.calls| && !l.calls[c].phase.Done? && !phase.Done?
    ensures Shape(L.SetPhase(l, c, phase), t, status, step)
  {
    hide Count;
  }

  /** What an account step does to the calls and the log. */
  ghost predicate Advanced(l: L.State, l': L.State, c: nat) {
    && c < |l.calls| && !l.calls[c].phase.Done?
    && ((exists out :: l'.calls == L.Finish(l, c, out).calls && l'.log == L.Finish(l, c, out).log)
     || (exists phase: L.Phase :: !phase.Done? && l'.calls == L.SetPhase(l, c, phase).calls && l'.log == l.log))
  }

  lemma StepAdvances(l: L.State, a: L.Action)
    requires L.Enabled(l, a) && !a.Issue?
    ensures Advanced(l, L.Next(l, a), a.c)
  {
    var c := a.c;
    var l' := L.Next(l, a);
    match a
    case Load(_) =>
      var out := L.Apply(l.rows, l.calls[c].op).1;
      if out != L.Applied {
        assert l' == L.Finish(l, c, out);
      } else {
        assert l' == L.SetPhase(l, c, L.Loaded(L.Decide(l.rows[l.calls[c].op.id], l.calls[c].op).value));
      }
    case Commit(_) =>
      var ok := L.CompareAndSet(l.rows, l.calls[c].op.id, l.calls[c].phase.written).1;
      assert l'.log == L.Finish(l, c, if ok then L.Applied else L.Conflict).log;
    case Retry(_) => assert l' == L.SetPhase(l, c, L.Start);
    case Drop(_) => assert l' == L.Finish(l, c, L.Unreachable);
  }

  /** Shape looks only at the calls and the log. */
  lemma ShapeReads(l: L.State, l': L.State, t: nat, status: Status, step: Step)
    requires l.calls == l'.calls && l.log == l'.log
    ensures Shape(l, t, status, step) == Shape(l', t, status, step)
  {
    hide Count;
  }

  lemma ShapeAfterStep(s: State, l': L.State, c: nat, t: nat)
    requires AllCalls(s) && t < |s.txns| && TxnOk(s, t) && Advanced(s.ledger, l', c)
    ensures Shape(l', t, s.txns[t].status, s.reqs[s.txns[t].owner].step)
  {
    var l, status, step := s.ledger, s.txns[t].status, s.reqs[s.txns[t].owner].step;
    assert CallOk(s, c);
    hide Shape;
    if out :| l'.calls == L.Finish(l, c, out).calls && l'.log == L.Finish(l, c, out).log {
      ShapeAfterFinish(l, c, out, t, status, step);
      ShapeReads(L.Finish(l, c, out), l', t, status, step);
    } else {
      var phase: L.Phase :| !phase.Done? && l'.calls == L.SetPhase(l, c, phase).calls && l'.log == l.log;
      ShapeAfterPhase(l, c, phase, t, status, step);
      ShapeReads(L.SetPhase(l, c, phase), l', t, status, step);
    }
  }

  lemma AccountTxnOk(s: State, a: L.Action, t: nat)
    requires AllTxns(s) && AllCalls(s) && FromOutside(a) && L.Enabled(s.ledger, a) && t < |s.txns|
    ensures TxnOk(Next(s, AccountStep(a)), t)
  {
    assert TxnOk(s, t);
    if a.Issue? {
      ShapeAfterIssue(s.ledger, a.op, a.ref, t, s.txns[t].status, s.reqs[s.txns[t].owner].step);
    } else {
      StepAdvances(s.ledger, a);
      ShapeAfterStep(s, L.Next(s.ledger, a), a.c, t);
    }
    hide Shape, L.Next;
  }

  lemma AccountKeeps(rows0: L.Rows, s: State, a: L.Action)
    requires Inv(rows0, s) && FromOutside(a) && L.Enabled(s.ledger, a)
    ensures Inv(rows0, Next(s, AccountStep(a)))
  {
    var s' := Next(s, AccountStep(a));
    L.NextKeeps(rows0, s.ledger, a);
    CallsAfterStep(s, a);
    hide L.Inv, L.Next, Shape, CallOk, AllCalls;
    forall t | 0 <= t < |s'.txns| ensures TxnOk(s', t) {
      AccountTxnOk(s, a, t);
    }
    forall r | 0 <= r < |s'.reqs| ensures ReqOk(s', r) {
      assert ReqOk(s, r);
    }
  }

  lemma CallsAfterStep(s: State, a: L.Action)
    requires AllCalls(s) && FromOutside(a) && L.Enabled(s.ledger, a)
    ensures AllCalls(Next(s, AccountStep(a)))
  {
    var s' := Next(s, AccountStep(a));
    if !a.Issue? {
      StepAdvances(s.ledger, a);
      hide L.Next;
      forall d | 0 <= d < |s'.ledger.calls| ensures CallOk(s', d) {
        assert CallOk(s, d);
      }
    } else {
      forall d | 0 <= d < |s'.ledger.calls| ensures CallOk(s', d) {
        if d < |s.ledger.calls| {
          assert CallOk(s, d);
        }
      }
    }
  }

  lemma ArriveKeeps(rows0: L.Rows, s: State, input: Input)
    requires Inv(rows0, s)
    ensures Inv(rows0, Next(s, Arrive(input)))
  {
    hide L.Inv, Shape;
    var s' := Next(s, Arrive(input));
    forall t | 0 <= t < |s'.txns| ensures TxnOk(s', t) {
      assert TxnOk(s, t);
    }
    forall r | 0 <= r < |s'.reqs| ensures ReqOk(s', r) {
      if r < |s.reqs| {
        assert ReqOk(s, r);
      }
    }
    forall c | 0 <= c < |s'.ledger.calls| ensures CallOk(s', c) {
      assert CallOk(s, c);
    }
  }

  lemma NextKeeps(rows0: L.Rows, s: State, a: Action)
    requires Inv(rows0, s)
    ensures Inv(rows0, Next(s, a))
  {
    hide Inv;
    match a
    case Arrive(input) => ArriveKeeps(rows0, s, input);
    case Proceed(r, fault) =>
      if r < |s.reqs| {
        ProceedKeeps(rows0, s, r, fault);
      }
    case AccountStep(b) =>
      if FromOutside(b) && L.Enabled(s.ledger, b) {
        AccountKeeps(rows0, s, b);
      }
  }

  /** The invariant holds after every interleaving. */
  lemma {:induction false} Reachable(rows0: L.Rows, actions: seq<Action>)
    requires L.Bounded(rows0)
    ensures Inv(rows0, Run(Initial(rows0), actions))
  {
    hide Next;
    if actions != [] {
      Reachable(rows0, actions[..|actions| - 1]);
      NextKeeps(rows0, Run(Initial(rows0), actions[..|actions| - 1]), actions[|actions| - 1]);
    }
  }

  // ---------- Which requests get a row ----------

  /** What the balance query must report for a payment to go on. */
  predicate Covers(rows: L.Rows, source: string, amount: int) {
    && source in rows && (rows[source].status == "" || rows[source].status == "ACTIVE")
    && rows[source].balance >= amount
  }

  /**
   The pre-check lets a request go on to its insert exactly if the query works and the source exists, is active or
   without a status, and has the amount; otherwise the request is refused. No table changes.
   */
  lemma PreCheckIff(s: State, r: nat, fault: Fault)
    requires r < |s.reqs| && s.reqs[r].step == PreCheck
    ensures var s' := Next(s, Proceed(r, fault)); var input := s.reqs[r].input;
      && s'.ledger == s.ledger && s'.txns == s.txns && |s'.reqs| == |s.reqs|
      && (s'.reqs[r].step == Insert <==> fault == Fine && Covers(s.ledger.rows, input.source, input.amount))
      && (s'.reqs[r].step != Insert ==> s'.reqs[r].step == Returned(Refused))
  {
  }

  /** At some moment of the run the request's pre-check found the source able to pay. */
  ghost predicate FoundCovered(rows0: L.Rows, actions: seq<Action>, r: nat) {
    exists n :: 0 <= n < |actions| && CheckedAt(rows0, actions, r, n)
  }

  predicate CheckedAt(rows0: L.Rows, actions: seq<Action>, r: nat, n: nat) {
    n < |actions| &&
    var s := Run(Initial(rows0), actions[..n]);
    && actions[n] == Proceed(r, Fine) && r < |s.reqs| && s.reqs[r].step == PreCheck
    && Covers(s.ledger.rows, s.reqs[r].input.source, s.reqs[r].input.amount)
  }

  lemma CheckedEarlier(rows0: L.Rows, actions: seq<Action>, r: nat)
    requires actions != [] && FoundCovered(rows0, actions[..|actions| - 1], r)
    ensures FoundCovered(rows0, actions, r)
  {
    var before := actions[..|actions| - 1];
    var n :| 0 <= n < |before| && CheckedAt(rows0, before, r, n);
    assert actions[..n] == before[..n];
    assert CheckedAt(rows0, actions, r, n);
  }

  /** A step brings a request to its insert only from a pre-check, and a row only from an insert. */
  lemma InsertComesFrom(s: State, a: Action, r: nat)
    requires r < |Next(s, a).reqs| && Next(s, a).reqs[r].step == Insert
    ensures r < |s.reqs|
    ensures s.reqs[r].step == Insert || (a == Proceed(r, Fine) && s.reqs[r].step == PreCheck
      && Covers(s.ledger.rows, s.reqs[r].input.source, s.reqs[r].input.amount))
  {
    hide L.Next, FindKey;
    match a
    case Proceed(q, fault) =>
      if q < |s.reqs| && s.reqs[q].step == PreCheck {
        PreCheckIff(s, q, fault);
      }
      hide Covers, CheckSource;
    case _ =>
  }

  /**
   The insert adds a PENDING row of the request exactly if no row carries the key, the amount is positive and the
   write takes effect; nothing else ever adds a row.
   */
  lemma InsertIff(s: State, a: Action)
    ensures var s' := Next(s, a);
      |s'.txns| > |s.txns| <==>
        && a.Proceed? && a.fault != Fails && a.r < |s.reqs| && s.reqs[a.r].step == Insert && s.reqs[a.r].input.amount > 0
        && forall t :: 0 <= t < |s.txns| ==> s.txns[t].input.key != s.reqs[a.r].input.key
    ensures var s' := Next(s, a);
      if |s'.txns| > |s.txns| then s'.txns == s.txns + [Txn(s.reqs[a.r].input, Pending, a.r)]
      else |s'.txns| == |s.txns| && forall t :: 0 <= t < |s.txns| ==> s'.txns[t].owner == s.txns[t].owner
  {
    hide L.Next;
    if a.Proceed? && a.r < |s.reqs| && s.reqs[a.r].step.Insert? {
      var found := FindKey(s.txns, s.reqs[a.r].input.key);
    }
    hide FindKey, CheckSource;
  }

  /** In every run, every row's request, and every request at its insert, once found the source able to pay. */
  lemma {:induction false} RowsWereCovered(rows0: L.Rows, actions: seq<Action>)
    ensures var s := Run(Initial(rows0), actions);
      && (forall t :: 0 <= t < |s.txns| ==> FoundCovered(rows0, actions, s.txns[t].owner))
      && (forall r :: 0 <= r < |s.reqs| && s.reqs[r].step == Insert ==> FoundCovered(rows0, actions, r))
  {
    if actions != [] {
      var before, a := actions[..|actions| - 1], actions[|actions| - 1];
      RowsWereCovered(rows0, before);
      var s, s' := Run(Initial(rows0), before), Run(Initial(rows0), actions);
      hide Next, FoundCovered, Covers;
      InsertIff(s, a);
      forall t | 0 <= t < |s'.txns| ensures FoundCovered(rows0, actions, s'.txns[t].owner) {
        CheckedEarlier(rows0, actions, if t < |s.txns| then s.txns[t].owner else a.r);
      }
      forall r | 0 <= r < |s'.reqs| && s'.reqs[r].step == Insert ensures FoundCovered(rows0, actions, r) {
        CoveredNow(rows0, actions, r);
      }
    }
  }

  lemma CoveredNow(rows0: L.Rows, actions: seq<Action>, r: nat)
    requires actions != []
    requires var s := Run(Initial(rows0), actions[..|actions| - 1]);
      r < |s.reqs| && s.reqs[r].step == Insert ==> FoundCovered(rows0, actions[..|actions| - 1], r)
    requires r < |Run(Initial(rows0), actions).reqs| && Run(Initial(rows0), actions).reqs[r].step == Insert
    ensures FoundCovered(rows0, actions, r)
  {
    var before, a := actions[..|actions| - 1], actions[|actions| - 1];
    var s := Run(Initial(rows0), before);
    InsertComesFrom(s, a, r);
    hide Next, Covers;
    if s.reqs[r].step == Insert {
      CheckedEarlier(rows0, actions, r);
    } else {
      assert CheckedAt(rows0, actions, r, |before|);
    }
  }

  /** A request that loses the race for its key is answered with the row that won it, as that row is by then. */
  lemma LoserReplays(s: State, r: nat, t: nat, fault: Fault)
    requires DistinctKeys(s.txns) && r < |s.reqs| && s.reqs[r].step == Insert
    requires t < |s.txns| && s.txns[t].input.key == s.reqs[r].input.key
    ensures var s' := Next(Next(s, Proceed(r, fault)), Proceed(r, Fine));
      s' == s.(reqs := s.reqs[r := Request(s.reqs[r].input, Returned(Replayed(t, s.txns[t].status)))])
  {
    var found := FindKey(s.txns, s.reqs[r].input.key);
    assert found == Some(t);
    var s1 := Next(s, Proceed(r, fault));
    assert s1 == Goto(s, r, Reread);
    hide FindKey;
  }
}
