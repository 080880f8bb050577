/** Refunds on top of the orchestrator, one call at a time: what an original transaction can be refunded. */
module Refunds {
  import opened Wrappers
  import L = Ledger
  import opened Saga
  import opened Orchestration

  const REFUND: string := "REFUND"

  /** `original` is the transaction the reference names, if the request has a reference at all. */
  datatype RefundRequest = RefundRequest(original: Option<nat>, source: string, dest: string, amount: int, currency: string)

  datatype Refusal =
    | NoReferenceGiven | OriginalNotFound | NotEligible | WrongAccounts | TooMuch | WrongCurrency
    | AlreadyRefunded | LookupFailed

  datatype Answer = TurnedDown(why: Refusal) | Ran(response: Response)

  /** Which of the two lookups before the money movement fail, and how the movement itself goes. */
  datatype Faults = Faults(original: bool, existing: bool, move: Orchestration.Faults)

  function RefundInput(key: string, req: RefundRequest): Input
    requires req.original.Some?
  {
    Input(key, req.source, req.dest, req.amount, Details(REFUND, req.currency, ToTransaction(req.original.value)))
  }

  /** Why a refund is turned down before any money moves. */
  function Checked(txns: seq<Txn>, key: string, req: RefundRequest, f: Faults): Option<Refusal> {
    if req.original.None? then Some(NoReferenceGiven)
    else if f.original then Some(LookupFailed)
    else if req.original.value >= |txns| then Some(OriginalNotFound)
    else
      var original := txns[req.original.value];
      if original.status != Success then Some(NotEligible)
      else if req.source != original.input.dest || req.dest != original.input.source then Some(WrongAccounts)
      else if req.amount > original.input.amount then Some(TooMuch)
      else if req.currency != original.input.details.currency then Some(WrongCurrency)
      else if f.existing then Some(LookupFailed)
      else
        var existing := FindReference(txns, REFUND, ToTransaction(req.original.value));
        if existing.Some? && txns[existing.value].input.key != key then Some(AlreadyRefunded) else None
  }

  /** The tables and the answer after one call. */
  function Refunded(rows: L.Rows, txns: seq<Txn>, r: nat, key: string, req: RefundRequest, f: Faults)
    : (L.Rows, seq<Txn>, Answer)
  {
    var refusal := Checked(txns, key, req, f);
    if refusal.Some? then (rows, txns, TurnedDown(refusal.value))
    else
      var e := Executed(rows, txns, r, RefundInput(key, req), f.move);
      (e.rows, e.txns, Ran(e.response))
  }

  class PaymentService {
    const orch: Orchestrator

    constructor (orch: Orchestrator)
      ensures this.orch == orch
    {
      this.orch := orch;
    }

    method InitiateRefund(key: string, req: RefundRequest, f: Faults) returns (answer: Answer)
      requires orch.Valid()
      modifies orch, orch.repo, orch.account.repo
      ensures orch.Valid()
      ensures (orch.account.repo.rows, orch.repo.txns, answer)
           == Refunded(old(orch.account.repo.rows), old(orch.repo.txns), old(orch.served), key, req, f)
    {
      hide Executed, FindReference, orch.Valid;
      if req.original.None? {
        return TurnedDown(NoReferenceGiven);
      }
      if f.original {
        return TurnedDown(LookupFailed);
      }
      var original := orch.repo.GetByID(req.original.value);
      if original.None? {
        return TurnedDown(OriginalNotFound);
      }
      if original.value.status != Success {
        return TurnedDown(NotEligible);
      }
      if req.source != original.value.input.dest || req.dest != original.value.input.source {
        return TurnedDown(WrongAccounts);
      }
      if req.amount > original.value.input.amount {
        return TurnedDown(TooMuch);
      }
      if req.currency != original.value.input.details.currency {
        return TurnedDown(WrongCurrency);
      }
      if f.existing {
        return TurnedDown(LookupFailed);
      }
      var existing := orch.repo.GetByExternalReference(REFUND, ToTransaction(req.original.value));
      if existing.Some? && orch.repo.txns[existing.value].input.key != key {
        return TurnedDown(AlreadyRefunded);
      }
      var response := orch.ExecuteDebitCredit(RefundInput(key, req), f.move);
      answer := Ran(response);
    }
  }

  // ---------- Sequential runs ----------

  datatype World = World(rows: L.Rows, txns: seq<Txn>)

  /** Refunds, any other payment through the orchestrator, and account operations of any kind in between. */
  datatype Action =
    | Refund(key: string, req: RefundRequest, f: Faults)
    | Pay(input: Input, move: Orchestration.Faults)
    | Account(op: L.Op)

  function Next(w: World, a: Action): World {
    match a
    case Refund(key, req, f) =>
      var (rows, txns, _) := Refunded(w.rows, w.txns, 0, key, req, f);
      World(rows, txns)
    case Pay(input, move) =>
      if input.details.paymentType == REFUND then w
      else
        var e := Executed(w.rows, w.txns, 0, input, move);
        World(e.rows, e.txns)
    case Account(op) => w.(rows := L.Apply(w.rows, op).0)
  }

  function Run(w: World, actions: seq<Action>): World {
    if actions == [] then w else Next(Run(w, actions[..|actions| - 1]), actions[|actions| - 1])
  }

  // ---------- The invariant ----------

  predicate IsRefundOf(txns: seq<Txn>, t: nat, o: nat) {
    t < |txns| && txns[t].input.details.paymentType == REFUND && txns[t].input.details.reference == ToTransaction(o)
  }

  /** A refund reverses a successful transaction's counterparties, in its currency, for at most its amount. */
  predicate Reverses(txns: seq<Txn>, t: nat, o: nat)
    requires t < |txns|
  {
    && o < |txns| && txns[o].status == Success
    && txns[t].input.source == txns[o].input.dest && txns[t].input.dest == txns[o].input.source
    && txns[t].input.details.currency == txns[o].input.details.currency
    && 0 < txns[t].input.amount <= txns[o].input.amount
  }

  ghost predicate RefundsSafe(txns: seq<Txn>) {
    && (forall t: nat, o: nat :: IsRefundOf(txns, t, o) ==> Reverses(txns, t, o))
    && (forall t: nat, u: nat, o: nat :: IsRefundOf(txns, t, o) && IsRefundOf(txns, u, o) && t != u ==>
          txns[t].status == Failed || txns[u].status == Failed)
    && (forall t :: 0 <= t < |txns| && txns[t].input.details.paymentType == REFUND ==>
          txns[t].input.details.reference.ToTransaction?)
  }

  lemma PayKeeps(txns: seq<Txn>, txn: Txn)
    requires RefundsSafe(txns) && txn.input.details.paymentType != REFUND
    ensures RefundsSafe(txns + [txn])
  {
    var txns' := txns + [txn];
    forall t: nat, o: nat | IsRefundOf(txns', t, o) ensures Reverses(txns', t, o) {
      assert IsRefundOf(txns, t, o);
    }
    forall t: nat, u: nat, o: nat | IsRefundOf(txns', t, o) && IsRefundOf(txns', u, o) && t != u
      ensures txns'[t].status == Failed || txns'[u].status == Failed
    {
      assert IsRefundOf(txns, t, o) && IsRefundOf(txns, u, o);
    }
  }

  lemma RefundKeeps(txns: seq<Txn>, key: string, req: RefundRequest, f: Faults, txn: Txn)
    requires RefundsSafe(txns) && Checked(txns, key, req, f).None?
    requires FindKey(txns, key).None? && txn.input == RefundInput(key, req) && txn.input.amount > 0
    ensures RefundsSafe(txns + [txn])
  {
    var txns' := txns + [txn];
    var original := req.original.value;
    var existing := FindReference(txns, REFUND, ToTransaction(original));
    assert existing.None?;
    forall t: nat, o: nat | IsRefundOf(txns', t, o) ensures Reverses(txns', t, o) {
      if t < |txns| {
        assert IsRefundOf(txns, t, o) && Reverses(txns, t, o);
      }
    }
    forall t: nat, u: nat, o: nat | IsRefundOf(txns', t, o) && IsRefundOf(txns', u, o) && t != u
      ensures txns'[t].status == Failed || txns'[u].status == Failed
    {
      if t < |txns| && u < |txns| {
        assert IsRefundOf(txns, t, o) && IsRefundOf(txns, u, o);
      } else {
        var older := if t < |txns| then t else u;
        assert !Carries(txns[older], REFUND, ToTransaction(original));
      }
    }
  }

  lemma NextKeeps(w: World, a: Action)
    requires RefundsSafe(w.txns)
    ensures RefundsSafe(Next(w, a).txns)
  {
    hide RefundsSafe, Executed, FindKey, Checked;
    match a
    case Refund(key, req, f) =>
      if Checked(w.txns, key, req, f).None? {
        ReadyHasOriginal(w.txns, key, req, f);
        var input := RefundInput(key, req);
        ExecutedAppends(w.rows, w.txns, 0, input, f.move);
        var e := Executed(w.rows, w.txns, 0, input, f.move);
        if e.txns != w.txns {
          RefundKeeps(w.txns, key, req, f, Txn(input, e.txns[|w.txns|].status, 0));
        }
      }
    case Pay(input, move) =>
      if input.details.paymentType != REFUND {
        ExecutedAppends(w.rows, w.txns, 0, input, move);
        var e := Executed(w.rows, w.txns, 0, input, move);
        if e.txns != w.txns {
          PayKeeps(w.txns, Txn(input, e.txns[|w.txns|].status, 0));
        }
      }
    case Account(op) =>
  }

  lemma ReadyHasOriginal(txns: seq<Txn>, key: string, req: RefundRequest, f: Faults)
    requires Checked(txns, key, req, f).None?
    ensures req.original.Some?
  {
  }

  /**
   In every sequential run each original has at most one refund that has not failed, and every refund
   reverses its original's counterparties, in its currency, for at most its amount.
   */
  lemma {:induction false} RefundsStaySafe(rows: L.Rows, actions: seq<Action>)
    ensures RefundsSafe(Run(World(rows, []), actions).txns)
  {
    hide Next;
    if actions != [] {
      RefundsStaySafe(rows, actions[..|actions| - 1]);
      hide RefundsSafe;
      NextKeeps(Run(World(rows, []), actions[..|actions| - 1]), actions[|actions| - 1]);
    }
  }

  // ---------- Which refunds are run ----------

  /** The oldest refund of an original that has not failed. */
  ghost predicate FirstLive(txns: seq<Txn>, t: nat, o: nat) {
    && IsRefundOf(txns, t, o) && txns[t].status != Failed
    && forall u: nat :: u < t && IsRefundOf(txns, u, o) ==> txns[u].status == Failed
  }

  /** The request names a successful transaction. */
  predicate NamesSuccess(txns: seq<Txn>, req: RefundRequest) {
    req.original.Some? && req.original.value < |txns| && txns[req.original.value].status == Success
  }

  /** It goes back the way the original went. */
  predicate GoesBack(txns: seq<Txn>, req: RefundRequest)
    requires NamesSuccess(txns, req)
  {
    var original := txns[req.original.value].input;
    req.source == original.dest && req.dest == original.source
  }

  /** It goes back for at most the original's amount, in its currency. */
  predicate FitsOriginal(txns: seq<Txn>, req: RefundRequest)
    requires NamesSuccess(txns, req)
  {
    var original := txns[req.original.value].input;
    GoesBack(txns, req) && req.amount <= original.amount && req.currency == original.details.currency
  }

  /** An earlier refund of the same original, under another key, stands in the way. */
  ghost predicate InTheWay(txns: seq<Txn>, key: string, req: RefundRequest)
    requires req.original.Some?
  {
    exists t: nat :: FirstLive(txns, t, req.original.value) && txns[t].input.key != key
  }

  /** What the search for an earlier refund finds. */
  lemma FoundIsFirstLive(txns: seq<Txn>, key: string, o: nat)
    ensures var found := FindReference(txns, "REFUND", ToTransaction(o));
      found.Some? && txns[found.value].input.key != key <==>
        exists t: nat :: FirstLive(txns, t, o) && txns[t].input.key != key
  {
    var found := FindReference(txns, "REFUND", ToTransaction(o));
    assert forall t: nat :: t < |txns| ==>
      (Carries(txns[t], "REFUND", ToTransaction(o)) <==> IsRefundOf(txns, t, o) && txns[t].status != Failed);
    if found.Some? {
      assert FirstLive(txns, found.value, o);
    }
  }

  /**
   A refund is run exactly if both lookups work, it names a successful transaction, goes back the way that went,
   for at most its amount and in its currency, and no earlier refund under another key stands in its way. One that
   is run is the payment of exactly that amount; one that is not changes nothing.
   */
  lemma RefundRunsIff(rows: L.Rows, txns: seq<Txn>, r: nat, key: string, req: RefundRequest, f: Faults)
    ensures var (rows', txns', answer) := Refunded(rows, txns, r, key, req, f);
      && (answer.Ran? <==>
            && NamesSuccess(txns, req) && FitsOriginal(txns, req) && !InTheWay(txns, key, req)
            && !f.original && !f.existing)
      && (answer.TurnedDown? ==> rows' == rows && txns' == txns)
      && (answer.Ran? ==>
            var input := Input(key, req.source, req.dest, req.amount,
              Details("REFUND", req.currency, ToTransaction(req.original.value)));
            Execution(rows', txns', answer.response) == Executed(rows, txns, r, input, f.move))
  {
    if req.original.Some? {
      FoundIsFirstLive(txns, key, req.original.value);
    }
    hide Executed, FindReference, FirstLive;
  }

  /** The reason a refund is turned down for is the first that applies, in the order of the guards. */
  lemma RefusalIs(rows: L.Rows, txns: seq<Txn>, r: nat, key: string, req: RefundRequest, f: Faults)
    ensures var answer := Refunded(rows, txns, r, key, req, f).2;
      var named := req.original.Some? && !f.original;
      var success := named && NamesSuccess(txns, req);
      var back := success && GoesBack(txns, req);
      var within := back && req.amount <= txns[req.original.value].input.amount;
      var fits := within && FitsOriginal(txns, req);
      && (answer == TurnedDown(NoReferenceGiven) <==> req.original.None?)
      && (answer == TurnedDown(OriginalNotFound) <==> named && req.original.value >= |txns|)
      && (answer == TurnedDown(NotEligible) <==> named && req.original.value < |txns| && !success)
      && (answer == TurnedDown(WrongAccounts) <==> success && !back)
      && (answer == TurnedDown(TooMuch) <==> back && !within)
      && (answer == TurnedDown(WrongCurrency) <==> within && !fits)
      && (answer == TurnedDown(LookupFailed) <==> (req.original.Some? && f.original) || (fits && f.existing))
      && (answer == TurnedDown(AlreadyRefunded) <==> fits && !f.existing && InTheWay(txns, key, req))
  {
    if req.original.Some? {
      FoundIsFirstLive(txns, key, req.original.value);
    }
    hide Executed, FindReference, FirstLive;
  }

  /** A refund that nothing stands in the way of, with the money there and no call failing, completes. */
  lemma RefundCompletes(rows: L.Rows, txns: seq<Txn>, r: nat, key: string, req: RefundRequest, f: Faults)
    requires NamesSuccess(txns, req) && FitsOriginal(txns, req) && !InTheWay(txns, key, req)
    requires !f.original && !f.existing && NothingFails(f.move) && f.move.final == Fine
    requires NewKey(txns, key) && req.amount > 0
    requires Active(rows, req.source) && rows[req.source].balance >= req.amount && Active(rows, req.dest)
    requires rows[req.dest].balance + (if req.source == req.dest then 0 else req.amount) <= 0x7FFF_FFFF_FFFF_FFFF
    ensures var (rows', txns', answer) := Refunded(rows, txns, r, key, req, f);
      var input := Input(key, req.source, req.dest, req.amount,
        Details("REFUND", req.currency, ToTransaction(req.original.value)));
      && answer == Ran(Completed(|txns|)) && txns' == txns + [Txn(input, Success, r)]
      && Transferred(rows, rows', input)
  {
    RefundRunsIff(rows, txns, r, key, req, f);
    var found := FindKey(txns, key);
    var input := Input(key, req.source, req.dest, req.amount,
      Details("REFUND", req.currency, ToTransaction(req.original.value)));
    CompletesIff(rows, txns, r, input, f.move);
    hide Executed, Refunded, InTheWay, FindKey, Transferred;
  }

  /**
   Paying and then refunding in full, under another key and with no call failing, completes and puts every balance
   back to what it was.
   */
  lemma FullRefundRestores(rows: L.Rows, txns: seq<Txn>, r: nat, input: Input, f: Orchestration.Faults,
                           q: nat, key: string, g: Faults)
    requires L.Bounded(rows) && RefundsSafe(txns) && input.details.paymentType != "REFUND"
    requires Executed(rows, txns, r, input, f).response == Completed(|txns|)
    requires NewKey(txns, key) && key != input.key
    requires !g.original && !g.existing && NothingFails(g.move) && g.move.final == Fine
    ensures var e := Executed(rows, txns, r, input, f);
      var req := RefundRequest(Some(|txns|), input.dest, input.source, input.amount, input.details.currency);
      var (rows', txns', answer) := Refunded(e.rows, e.txns, q, key, req, g);
      && answer == Ran(Completed(|txns| + 1)) && SameBalances(rows, rows', input.source, 0)
  {
    var e := Executed(rows, txns, r, input, f);
    var req := RefundRequest(Some(|txns|), input.dest, input.source, input.amount, input.details.currency);
    hide Executed, Refunded, InTheWay;
    CompletedIs(rows, txns, r, input, f);
    NoRefundYet(txns, e.txns[|txns|], key, req);
    RefundCompletes(e.rows, e.txns, q, key, req, g);
    hide RefundsSafe;
  }

  lemma CompletedIs(rows: L.Rows, txns: seq<Txn>, r: nat, input: Input, f: Orchestration.Faults)
    requires L.Bounded(rows) && Executed(rows, txns, r, input, f).response == Completed(|txns|)
    ensures var e := Executed(rows, txns, r, input, f);
      && e.txns == txns + [Txn(input, Success, r)] && Transferred(rows, e.rows, input) && input.amount > 0
      && Active(rows, input.source) && rows[input.source].balance >= input.amount && Active(rows, input.dest)
  {
    RecordedIff(rows, txns, r, input, f);
    var e := Executed(rows, txns, r, input, f);
    if |e.txns| > |txns| {
      RecordedEnds(rows, txns, r, input, f);
      RecordedMoves(rows, txns, r, input, f);
      hide Executed;
    } else {
      hide Transferred;
    }
  }

  /** A transaction that was just added has no refund. */
  lemma NoRefundYet(txns: seq<Txn>, txn: Txn, key: string, req: RefundRequest)
    requires RefundsSafe(txns) && txn.input.details.paymentType != "REFUND" && req.original == Some(|txns|)
    ensures !InTheWay(txns + [txn], key, req)
  {
    forall t: nat ensures !IsRefundOf(txns + [txn], t, |txns|) {
      assert !IsRefundOf(txns, t, |txns|);
    }
  }

  // ---------- How much is refunded ----------

  /** The amounts of an original's refunds that have not failed. */
  function TotalRefunded(txns: seq<Txn>, o: nat, n: nat): int
    requires n <= |txns|
  {
    if n == 0 then 0
    else
      TotalRefunded(txns, o, n - 1) +
      if IsRefundOf(txns, n - 1, o) && txns[n - 1].status != Failed then txns[n - 1].input.amount else 0
  }

  /** Up to any row, at most one refund counts. */
  lemma {:induction false} TotalIsOne(txns: seq<Txn>, o: nat, n: nat)
    requires RefundsSafe(txns) && n <= |txns|
    ensures TotalRefunded(txns, o, n) == 0
         || exists t: nat :: t < n && IsRefundOf(txns, t, o) && txns[t].status != Failed
              && TotalRefunded(txns, o, n) == txns[t].input.amount
  {
    if n > 0 {
      TotalIsOne(txns, o, n - 1);
      hide Reverses;
      if IsRefundOf(txns, n - 1, o) && txns[n - 1].status != Failed {
        assert TotalRefunded(txns, o, n - 1) == 0 by {
          hide TotalRefunded;
        }
      }
    }
  }

  /** No run refunds more of a transaction than its amount. */
  lemma RefundsBounded(rows: L.Rows, actions: seq<Action>, o: nat)
    requires o < |Run(World(rows, []), actions).txns|
    ensures var txns := Run(World(rows, []), actions).txns;
      TotalRefunded(txns, o, |txns|) == 0
      || (txns[o].status == Success && 0 < TotalRefunded(txns, o, |txns|) <= txns[o].input.amount)
  {
    RefundsStaySafe(rows, actions);
    hide Run;
    var txns := Run(World(rows, []), actions).txns;
    TotalIsOne(txns, o, |txns|);
    hide TotalRefunded;
  }

  /** A refund that failed has credited nobody. */
  lemma FailedCreditsNobody(rows: L.Rows, txns: seq<Txn>, r: nat, input: Input, f: Orchestration.Faults)
    requires input.source != input.dest && input.dest in rows
    requires var e := Executed(rows, txns, r, input, f); |e.txns| > |txns| && e.txns[|txns|].status == Failed
    ensures Executed(rows, txns, r, input, f).rows[input.dest] == rows[input.dest]
  {
    hide FindKey, CheckSource;
  }
}
