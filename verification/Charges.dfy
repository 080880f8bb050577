/** Paying generated QR charges on top of the orchestrator, one call at a time: which charge is settled by what. */
module Charges {
  import opened Wrappers
  import opened Amounts
  import Codec
  import Crc
  import L = Ledger
  import opened Saga
  import opened Orchestration
  import opened QrPayments

  const QRIS: string := "QRIS"

  datatype PayRequest = PayRequest(charge: nat, source: string, amount: Int64)

  datatype Refusal = ChargeNotFound | AlreadySettled | NoMerchant | BadAmountFor(why: Failure)

  datatype Answer = TurnedDown(why: Refusal) | Replay(t: nat) | Ran(response: Response) | NotMarkedPaid(t: nat)

  /** How the money movement goes, and the write that marks the charge paid. */
  datatype PayFaults = PayFaults(move: Faults, mark: Fault)

  /** The input of the money movement, or the answer that ends the call before it. */
  function ResolveCharge(ms: seq<Merchant>, charges: seq<Charge>, txns: seq<Txn>, key: string, req: PayRequest)
    : Result<Input, Answer>
  {
    if req.charge >= |charges| then Err(TurnedDown(ChargeNotFound))
    else
      var charge := charges[req.charge];
      if charge.status != ChargePending then
        if charge.paidTxn.Some? && charge.paidTxn.value < |txns| && txns[charge.paidTxn.value].input.key == key
        then Err(Replay(charge.paidTxn.value))
        else Err(TurnedDown(AlreadySettled))
      else
        match ById(ms, charge.merchantId)
        case None => Err(TurnedDown(NoMerchant))
        case Some(m) =>
          match AmountForCharge(charge, req.amount)
          case Err(why) => Err(TurnedDown(BadAmountFor(why)))
          case Ok(amount) =>
            Ok(Input(key, req.source, m.accountId, amount, Details(QRIS, m.currency, ToCharge(req.charge))))
  }

  /** The transaction a response reports as successful. */
  function Settles(response: Response): Option<nat> {
    match response
    case Completed(t) => Some(t)
    case Replayed(t, seen) => if seen == Success then Some(t) else None
    case _ => None
  }

  datatype Tables = Tables(rows: L.Rows, txns: seq<Txn>, charges: seq<Charge>)

  function Paid(ms: seq<Merchant>, w: Tables, r: nat, key: string, req: PayRequest, f: PayFaults): (Tables, Answer) {
    match ResolveCharge(ms, w.charges, w.txns, key, req)
    case Err(answer) => (w, answer)
    case Ok(input) =>
      var e := Executed(w.rows, w.txns, r, input, f.move);
      var settled := Settles(e.response);
      if settled.None? || req.charge >= |w.charges| then (Tables(e.rows, e.txns, w.charges), Ran(e.response))
      else
        (Tables(e.rows, e.txns, Marked(w.charges, req.charge, settled.value, f.mark)),
         if f.mark == Fine then Ran(e.response) else NotMarkedPaid(settled.value))
  }

  datatype ScanRequest = ScanRequest(qr: string, source: string, amount: Int64)

  /** The response of the money movement, or why there was none. */
  datatype ScanAnswer = ScanAnswer(response: Response, refused: Option<Failure>)

  function ScanInput(key: string, source: string, r: Resolution): Input {
    Input(key, source, r.merchant.accountId, r.amount, Details(QRIS, r.merchant.currency, ToMerchant(r.extRef)))
  }

  function PaidScanned(ms: seq<Merchant>, rows: L.Rows, txns: seq<Txn>, r: nat, key: string, req: ScanRequest, f: Faults)
    : (Execution, Option<Failure>)
  {
    match Resolve(ms, req.qr, req.amount)
    case Err(e) => (Execution(rows, txns, Refused), Some(e))
    case Ok(resolution) => (Executed(rows, txns, r, ScanInput(key, req.source, resolution), f), None)
  }

  class ChargeService {
    const orch: Orchestrator
    const qris: QrisService

    constructor (orch: Orchestrator, qris: QrisService)
      ensures this.orch == orch && this.qris == qris
    {
      this.orch, this.qris := orch, qris;
    }

    ghost function State(): Tables
      reads orch.account.repo, orch.repo, qris
    {
      Tables(orch.account.repo.rows, orch.repo.txns, qris.charges)
    }

    method ResolveChargePayment(key: string, req: PayRequest) returns (r: Result<Input, Answer>)
      ensures r == ResolveCharge(qris.merchants, qris.charges, orch.repo.txns, key, req)
    {
      if req.charge >= |qris.charges| {
        return Err(TurnedDown(ChargeNotFound));
      }
      var charge := qris.charges[req.charge];
      if charge.status != ChargePending {
        if charge.paidTxn.Some? {
          var paid := orch.repo.GetByID(charge.paidTxn.value);
          if paid.Some? && paid.value.input.key == key {
            return Err(Replay(charge.paidTxn.value));
          }
        }
        return Err(TurnedDown(AlreadySettled));
      }
      var merchant := ById(qris.merchants, charge.merchantId);
      if merchant.None? {
        return Err(TurnedDown(NoMerchant));
      }
      var amount := AmountForCharge(charge, req.amount);
      if amount.Err? {
        return Err(TurnedDown(BadAmountFor(amount.error)));
      }
      r := Ok(Input(key, req.source, merchant.value.accountId, amount.value,
                    Details(QRIS, merchant.value.currency, ToCharge(req.charge))));
    }

    method Pay(key: string, req: PayRequest, f: PayFaults) returns (answer: Answer)
      requires orch.Valid()
      modifies orch, orch.repo, orch.account.repo, qris`charges
      ensures orch.Valid()
      ensures (State(), answer) == Paid(qris.merchants, old(State()), old(orch.served), key, req, f)
    {
      hide Executed, orch.Valid, ById, AmountForCharge;
      var resolved := ResolveChargePayment(key, req);
      if resolved.Err? {
        return resolved.error;
      }
      var response := orch.ExecuteDebitCredit(resolved.value, f.move);
      var settled := Settles(response);
      if settled.Some? {
        var marked := qris.MarkPaid(req.charge, settled.value, f.mark);
        if marked == MarkResult.MarkFailed {
          return NotMarkedPaid(settled.value);
        }
      }
      answer := Ran(response);
    }

    /** Paying a scanned string instead of a stored charge: nothing is settled. */
    method PayScanned(key: string, req: ScanRequest, f: Faults) returns (answer: ScanAnswer)
      requires orch.Valid()
      modifies orch, orch.repo, orch.account.repo
      ensures orch.Valid() && qris.charges == old(qris.charges)
      ensures (Execution(orch.account.repo.rows, orch.repo.txns, answer.response), answer.refused)
        == PaidScanned(qris.merchants, old(orch.account.repo.rows), old(orch.repo.txns), old(orch.served), key, req, f)
    {
      hide Executed, orch.Valid, Resolve;
      var resolved := qris.ResolveQrString(req.qr, req.amount);
      if resolved.Err? {
        return ScanAnswer(Refused, Some(resolved.error));
      }
      var response := orch.ExecuteDebitCredit(ScanInput(key, req.source, resolved.value), f);
      answer := ScanAnswer(response, None);
    }
  }

  // ---------- What one payment does ----------

  /** The charge is there and has not been settled or closed. */
  predicate Open(charges: seq<Charge>, c: nat) { c < |charges| && charges[c].status == ChargePending }

  /** The charge was settled by the transaction with this key. */
  predicate PaidUnder(charges: seq<Charge>, txns: seq<Txn>, c: nat, key: string)
    requires c < |charges|
  {
    charges[c].paidTxn.Some? && charges[c].paidTxn.value < |txns| && txns[charges[c].paidTxn.value].input.key == key
  }

  /** The charge's merchant is registered. */
  ghost predicate Registered(ms: seq<Merchant>, id: string) { exists i :: 0 <= i < |ms| && ms[i].id == id }

  /** There is an amount to pay: the charge's own if it is dynamic, or else a positive one of the payer's. */
  predicate Priced(charge: Charge, reqAmount: Int64) {
    if charge.qrType == Dynamic then charge.amount.Some? else reqAmount > 0
  }

  /**
   A charge is paid, or turned down, for the first reason that applies: it must exist, be open, or settled under the
   same key, which replays it, have a registered merchant, and an amount. The money then goes from the payer to the
   merchant's account, in the merchant's currency.
   */
  lemma ResolveChargeExact(ms: seq<Merchant>, charges: seq<Charge>, txns: seq<Txn>, key: string, req: PayRequest)
    ensures var r := ResolveCharge(ms, charges, txns, key, req);
      var c := req.charge;
      && (r == Err(TurnedDown(ChargeNotFound)) <==> c >= |charges|)
      && (r == Err(TurnedDown(AlreadySettled)) <==>
            c < |charges| && !Open(charges, c) && !PaidUnder(charges, txns, c, key))
      && (r.Err? && r.error.Replay? <==> c < |charges| && !Open(charges, c) && PaidUnder(charges, txns, c, key))
      && (r.Err? && r.error.Replay? ==> Some(r.error.t) == charges[c].paidTxn)
      && (r == Err(TurnedDown(NoMerchant)) <==> Open(charges, c) && !Registered(ms, charges[c].merchantId))
      && (r.Ok? <==> Open(charges, c) && Registered(ms, charges[c].merchantId) && Priced(charges[c], req.amount))
      && (r.Err? ==> r.error.Replay? || r.error.TurnedDown?)
      && (r.Ok? ==>
            var amount := if charges[c].qrType == Dynamic then charges[c].amount.value else req.amount;
            exists m :: m in ms && m.id == charges[c].merchantId &&
              r.value == Input(key, req.source, m.accountId, amount, Details("QRIS", m.currency, ToCharge(c))))
  {
    if req.charge < |charges| {
      var charge := charges[req.charge];
      ByIdFinds(ms, charge.merchantId);
      ChargeAmountExact(charge, req.amount);
      assert Registered(ms, charge.merchantId) <==> ById(ms, charge.merchantId).Some?;
      hide ById, AmountForCharge, Registered;
    }
  }

  /**
   A payment that is resolved moves the money as an execution of its own, and settles its charge, and no other,
   exactly if the execution reports a success, its own or the one under its key, and the mark takes effect.
   */
  lemma PayExact(ms: seq<Merchant>, w: Tables, r: nat, key: string, req: PayRequest, f: PayFaults)
    ensures var resolved := ResolveCharge(ms, w.charges, w.txns, key, req);
      var (w', answer) := Paid(ms, w, r, key, req, f);
      if resolved.Err? then w' == w && answer == resolved.error
      else
        var e := Executed(w.rows, w.txns, r, resolved.value, f.move);
        var success := e.response.Completed? || (e.response.Replayed? && e.response.seen == Success);
        && w'.rows == e.rows && w'.txns == e.txns && |w'.charges| == |w.charges|
        && (forall c :: 0 <= c < |w.charges| && c != req.charge ==> w'.charges[c] == w.charges[c])
        && w'.charges[req.charge] ==
             (if success && f.mark != Fails
              then w.charges[req.charge].(status := ChargePaid, paidTxn := Some(e.response.t)) else w.charges[req.charge])
        && answer == if success && f.mark != Fine then NotMarkedPaid(e.response.t) else Ran(e.response)
  {
    if ResolveCharge(ms, w.charges, w.txns, key, req).Ok? {
      ResolvedIs(ms, w, key, req);
    }
    hide Executed, ResolveCharge;
  }

  /** An open charge of a registered merchant, paid under a new key by someone who can, with nothing failing, is settled. */
  lemma PaymentCompletes(ms: seq<Merchant>, w: Tables, r: nat, key: string, req: PayRequest, f: PayFaults)
    requires ResolveCharge(ms, w.charges, w.txns, key, req).Ok?
    requires NothingFails(f.move) && f.move.final == Fine && f.mark == Fine && NewKey(w.txns, key)
    requires var input := ResolveCharge(ms, w.charges, w.txns, key, req).value;
      && input.amount > 0 && Active(w.rows, input.source) && w.rows[input.source].balance >= input.amount
      && Active(w.rows, input.dest)
      && w.rows[input.dest].balance + (if input.source == input.dest then 0 else input.amount) <= 0x7FFF_FFFF_FFFF_FFFF
    ensures var input := ResolveCharge(ms, w.charges, w.txns, key, req).value;
      var (w', answer) := Paid(ms, w, r, key, req, f);
      && answer == Ran(Completed(|w.txns|)) && w'.txns == w.txns + [Txn(input, Success, r)]
      && Transferred(w.rows, w'.rows, input)
      && w'.charges[req.charge] == w.charges[req.charge].(status := ChargePaid, paidTxn := Some(|w.txns|))
  {
    var input := ResolveCharge(ms, w.charges, w.txns, key, req).value;
    ResolvedIs(ms, w, key, req);
    PayExact(ms, w, r, key, req, f);
    hide ResolveCharge, Paid;
    var found := FindKey(w.txns, key);
    CompletesIff(w.rows, w.txns, r, input, f.move);
    hide Executed, FindKey, Transferred;
  }

  /**
   Scanning the string of a dynamic charge pays its merchant's account its very amount, under a new key, if the payer
   can and nothing fails.
   */
  lemma ScanPays(ms: seq<Merchant>, guid: string, m: Merchant, gen: GenerateRequest, rows: L.Rows, txns: seq<Txn>, r: nat,
                 key: string, req: ScanRequest, f: Faults)
    requires UniqueNmid(ms) && m in ms && gen.qrType == Dynamic && gen.amount > 0
    requires Codec.EncodeSpec(ChargePayload(guid, m, gen)) == Ok(req.qr)
    requires NothingFails(f) && f.final == Fine && NewKey(txns, key)
    requires Active(rows, req.source) && rows[req.source].balance >= gen.amount && Active(rows, m.accountId)
    requires rows[m.accountId].balance + (if req.source == m.accountId then 0 else gen.amount) <= 0x7FFF_FFFF_FFFF_FFFF
    ensures var input := Input(key, req.source, m.accountId, gen.amount, Details("QRIS", m.currency, ToMerchant(m.nmid)));
      var (e, refused) := PaidScanned(ms, rows, txns, r, key, req, f);
      && refused == None && e.response == Completed(|txns|) && e.txns == txns + [Txn(input, Success, r)]
      && Transferred(rows, e.rows, input)
  {
    ScanResolves(ms, guid, m, gen, req.qr, req.amount);
    hide Resolve, Codec.EncodeSpec, UniqueNmid;
    var input := Input(key, req.source, m.accountId, gen.amount, Details("QRIS", m.currency, ToMerchant(m.nmid)));
    var found := FindKey(txns, key);
    CompletesIff(rows, txns, r, input, f);
    hide Executed, FindKey, Transferred;
  }

  /** Scanning a string that was damaged under its checksum, by a burst or an odd number of bits, moves nothing. */
  lemma DamagedMovesNothing(ms: seq<Merchant>, p: Codec.Payload, qr: string, w: nat, rows: L.Rows, txns: seq<Txn>, r: nat,
                            key: string, req: ScanRequest, f: Faults)
    requires Codec.EncodeSpec(p) == Ok(qr) && |req.qr| == |qr| >= 4 && req.qr[|qr| - 4..] == qr[|qr| - 4..]
    requires Crc.Burst16(Codec.Covered(qr), Codec.Covered(req.qr), w)
          || Crc.Odd(Crc.Xor(Codec.Covered(qr), Codec.Covered(req.qr)))
    ensures var (e, refused) := PaidScanned(ms, rows, txns, r, key, req, f);
      e.rows == rows && e.txns == txns && refused.Some?
  {
    DamagedNeverResolves(ms, p, qr, req.qr, w, req.amount);
    hide Resolve;
  }

  // ---------- Settlement ----------

  /** A successful payment of this charge. */
  predicate Pays(txns: seq<Txn>, t: nat, c: nat) {
    t < |txns| && txns[t].status == Success && txns[t].input.details.reference == ToCharge(c)
  }

  /**
   At most one successful transaction pays a charge, the charge is PAID exactly when one does, and then it
   names that one; a charge that is not PAID names none.
   */
  ghost predicate ChargeOk(txns: seq<Txn>, charge: Charge, c: nat) {
    && (forall t: nat, u: nat :: Pays(txns, t, c) && Pays(txns, u, c) ==> t == u)
    && (charge.status == ChargePaid <==> exists t: nat :: Pays(txns, t, c))
    && (charge.status == ChargePaid ==> charge.paidTxn.Some? && Pays(txns, charge.paidTxn.value, c))
    && (charge.status != ChargePaid ==> charge.paidTxn.None?)
  }

  ghost predicate Settled(w: Tables) {
    && (forall c :: 0 <= c < |w.charges| ==> ChargeOk(w.txns, w.charges[c], c))
    && (forall t :: 0 <= t < |w.txns| && w.txns[t].input.details.reference.ToCharge? ==>
          w.txns[t].input.details.reference.c < |w.charges|)
  }

  /** An unsettled charge is marked paid by a key that already names a successful transaction. */
  predicate KeyTaken(ms: seq<Merchant>, w: Tables, key: string, req: PayRequest, f: PayFaults) {
    && ResolveCharge(ms, w.charges, w.txns, key, req).Ok? && f.move.lookup == Fine && f.mark != Fails
    && var found := FindKey(w.txns, key);
       found.Some? && w.txns[found.value].status == Success
  }

  /**
   The charge is paid for, but its mark is missed: the final status write takes effect and is reported as
   failed, so that the charge is not marked, or marking it fails.
   */
  predicate MarkMissed(ms: seq<Merchant>, w: Tables, key: string, req: PayRequest, f: PayFaults) {
    var resolved := ResolveCharge(ms, w.charges, w.txns, key, req);
    && resolved.Ok? && NothingFails(f.move) && Payable(w.rows, w.txns, resolved.value)
    && (f.move.final == Lost || (f.move.final == Fine && f.mark == Fails))
  }

  lemma ResolvedIs(ms: seq<Merchant>, w: Tables, key: string, req: PayRequest)
    requires ResolveCharge(ms, w.charges, w.txns, key, req).Ok?
    ensures req.charge < |w.charges| && w.charges[req.charge].status == ChargePending
    ensures var input := ResolveCharge(ms, w.charges, w.txns, key, req).value;
      input.key == key && input.details.reference == ToCharge(req.charge)
  {
    hide ById, AmountForCharge;
  }

  /** A key that is taken: nothing is added, and the response is the row that carries it. */
  lemma TakenReports(rows: L.Rows, txns: seq<Txn>, r: nat, input: Input, f: Faults)
    requires FindKey(txns, input.key).Some?
    ensures var e := Executed(rows, txns, r, input, f);
      var t := FindKey(txns, input.key).value;
      e.txns == txns && Settles(e.response) == if f.lookup == Fine && txns[t].status == Success then Some(t) else None
  {
    hide FindKey, CheckSource, Move;
  }

  /** A new key whose payment does not succeed: at most a row that is no success, and no success reported. */
  lemma UnpaidReports(rows: L.Rows, txns: seq<Txn>, r: nat, input: Input, f: Faults)
    requires FindKey(txns, input.key).None? && !(NothingFails(f) && Payable(rows, txns, input) && f.final != Fails)
    ensures var e := Executed(rows, txns, r, input, f);
      && Settles(e.response).None?
      && (e.txns == txns
          || (|e.txns| == |txns| + 1 && e.txns[|txns|].status != Success
              && e.txns == txns + [Txn(input, e.txns[|txns|].status, r)]))
  {
    hide FindKey;
  }

  /** A new key whose payment succeeds: one successful row, reported unless its status write was lost. */
  lemma PaidReports(rows: L.Rows, txns: seq<Txn>, r: nat, input: Input, f: Faults)
    requires NothingFails(f) && Payable(rows, txns, input) && f.final != Fails
    ensures var e := Executed(rows, txns, r, input, f);
      && e.txns == txns + [Txn(input, Success, r)]
      && Settles(e.response) == if f.final == Fine then Some(|txns|) else None
  {
    CompletesIff(rows, txns, r, input, f);
    hide Executed;
  }

  lemma SamePays(txns: seq<Txn>, txn: Txn, t: nat, c: nat)
    requires txn.status != Success || txn.input.details.reference != ToCharge(c)
    ensures Pays(txns + [txn], t, c) <==> Pays(txns, t, c)
  {
  }

  /** A row that is not a successful payment of a charge disturbs no charge. */
  lemma ForeignRowKeeps(txns: seq<Txn>, txn: Txn, charge: Charge, c: nat)
    requires ChargeOk(txns, charge, c) && (txn.status != Success || txn.input.details.reference != ToCharge(c))
    ensures ChargeOk(txns + [txn], charge, c)
  {
    forall t: nat ensures Pays(txns + [txn], t, c) <==> Pays(txns, t, c) {
      SamePays(txns, txn, t, c);
    }
    hide Pays;
  }

  /** The first successful payment of a charge settles it. */
  lemma PaymentSettles(txns: seq<Txn>, txn: Txn, charge: Charge, c: nat)
    requires ChargeOk(txns, charge, c) && charge.status == ChargePending
    requires txn.status == Success && txn.input.details.reference == ToCharge(c)
    ensures ChargeOk(txns + [txn], charge.(status := ChargePaid, paidTxn := Some(|txns|)), c)
  {
    assert Pays(txns + [txn], |txns|, c);
    forall t: nat ensures Pays(txns + [txn], t, c) ==> t == |txns| {
      assert !Pays(txns, t, c);
    }
  }

  lemma AppendKeeps(w: Tables, txn: Txn)
    requires Settled(w) && (txn.status != Success || !txn.input.details.reference.ToCharge?)
    requires txn.input.details.reference.ToCharge? ==> txn.input.details.reference.c < |w.charges|
    ensures Settled(w.(txns := w.txns + [txn]))
  {
    forall c | 0 <= c < |w.charges| ensures ChargeOk(w.txns + [txn], w.charges[c], c) {
      ForeignRowKeeps(w.txns, txn, w.charges[c], c);
    }
  }

  lemma SuccessKeeps(w: Tables, c: nat, txn: Txn)
    requires Settled(w) && c < |w.charges| && w.charges[c].status == ChargePending
    requires txn.status == Success && txn.input.details.reference == ToCharge(c)
    ensures Settled(Tables(w.rows, w.txns + [txn], Marked(w.charges, c, |w.txns|, Fine)))
  {
    PaymentSettles(w.txns, txn, w.charges[c], c);
    var charges := Marked(w.charges, c, |w.txns|, Fine);
    forall d | 0 <= d < |charges| ensures ChargeOk(w.txns + [txn], charges[d], d) {
      if d != c {
        ForeignRowKeeps(w.txns, txn, w.charges[d], d);
      }
    }
  }

  /** Marking a charge with a transaction that does not pay it breaks it. */
  lemma WrongMark(w: Tables, c: nat, t: nat)
    requires Settled(w) && c < |w.charges| && w.charges[c].status == ChargePending
    ensures !Settled(w.(charges := Marked(w.charges, c, t, Fine)))
  {
    var charges := Marked(w.charges, c, t, Fine);
    assert ChargeOk(w.txns, w.charges[c], c);
    assert !ChargeOk(w.txns, charges[c], c);
  }

  /** A successful payment of a charge that stays unpaid breaks it. */
  lemma MissedMark(w: Tables, c: nat, txn: Txn)
    requires Settled(w) && c < |w.charges| && w.charges[c].status == ChargePending
    requires txn.status == Success && txn.input.details.reference == ToCharge(c)
    ensures !Settled(w.(txns := w.txns + [txn]))
  {
    assert Pays(w.txns + [txn], |w.txns|, c);
    assert !ChargeOk(w.txns + [txn], w.charges[c], c);
  }

  /** A mark that takes effect is the mark; one that fails is none. */
  lemma MarkedBy(charges: seq<Charge>, c: nat, t: nat, fault: Fault)
    requires c < |charges|
    ensures Marked(charges, c, t, fault) == if fault == Fails then charges else Marked(charges, c, t, Fine)
  {
  }

  lemma TakenKeeps(ms: seq<Merchant>, w: Tables, r: nat, key: string, req: PayRequest, f: PayFaults)
    requires Settled(w) && ResolveCharge(ms, w.charges, w.txns, key, req).Ok? && FindKey(w.txns, key).Some?
    ensures Settled(Paid(ms, w, r, key, req, f).0) <==> !KeyTaken(ms, w, key, req, f)
  {
    hide Settled, ResolveCharge, FindKey, Executed, Settles, Marked;
    ResolvedIs(ms, w, key, req);
    var input, t := ResolveCharge(ms, w.charges, w.txns, key, req).value, FindKey(w.txns, key).value;
    var e := Executed(w.rows, w.txns, r, input, f.move);
    TakenReports(w.rows, w.txns, r, input, f.move);
    OtherRows(w, e.rows);
    WrongMark(w.(rows := e.rows), req.charge, t);
    MarkedBy(w.charges, req.charge, t, f.mark);
  }

  lemma NewKeeps(ms: seq<Merchant>, w: Tables, r: nat, key: string, req: PayRequest, f: PayFaults)
    requires Settled(w) && ResolveCharge(ms, w.charges, w.txns, key, req).Ok? && FindKey(w.txns, key).None?
    ensures Settled(Paid(ms, w, r, key, req, f).0) <==> !MarkMissed(ms, w, key, req, f)
  {
    hide Settled, ResolveCharge, FindKey, Executed, Settles, Marked, Payable, NothingFails;
    ResolvedIs(ms, w, key, req);
    var input := ResolveCharge(ms, w.charges, w.txns, key, req).value;
    var e := Executed(w.rows, w.txns, r, input, f.move);
    OtherRows(w, e.rows);
    var w1 := w.(rows := e.rows);
    if NothingFails(f.move) && Payable(w.rows, w.txns, input) && f.move.final != Fails {
      PaidReports(w.rows, w.txns, r, input, f.move);
      MarkedBy(w.charges, req.charge, |w.txns|, f.mark);
      SuccessKeeps(w1, req.charge, Txn(input, Success, r));
      MissedMark(w1, req.charge, Txn(input, Success, r));
    } else {
      UnpaidReports(w.rows, w.txns, r, input, f.move);
      if e.txns != w.txns {
        AppendKeeps(w1, Txn(input, e.txns[|w.txns|].status, r));
      }
    }
  }

  /**
   A payment of a charge keeps the books right exactly if it does not mark the charge by a key that already
   names a successful transaction, and does not pay for it and miss the mark.
   */
  lemma PayKeepsIff(ms: seq<Merchant>, w: Tables, r: nat, key: string, req: PayRequest, f: PayFaults)
    requires Settled(w)
    ensures Settled(Paid(ms, w, r, key, req, f).0) <==> !KeyTaken(ms, w, key, req, f) && !MarkMissed(ms, w, key, req, f)
  {
    if ResolveCharge(ms, w.charges, w.txns, key, req).Ok? {
      ResolvedIs(ms, w, key, req);
      hide Settled, ResolveCharge, Paid;
      if FindKey(w.txns, key).Some? {
        TakenKeeps(ms, w, r, key, req, f);
      } else {
        NewKeeps(ms, w, r, key, req, f);
      }
    }
  }

  /** Paying again under the same key mends a missed mark. */
  lemma RetryMends(ms: seq<Merchant>, w: Tables, r: nat, q: nat, key: string, req: PayRequest, f: PayFaults, g: PayFaults)
    requires Settled(w) && MarkMissed(ms, w, key, req, f) && g.move.lookup == Fine && g.mark == Fine
    ensures Settled(Paid(ms, Paid(ms, w, r, key, req, f).0, q, key, req, g).0)
  {
    hide Settled, FindKey, Executed, Marked, Payable;
    ResolvedIs(ms, w, key, req);
    var input := ResolveCharge(ms, w.charges, w.txns, key, req).value;
    PaidReports(w.rows, w.txns, r, input, f.move);
    var e := Executed(w.rows, w.txns, r, input, f.move);
    MarkedBy(w.charges, req.charge, |w.txns|, f.mark);
    var w1 := Paid(ms, w, r, key, req, f).0;
    assert w1 == Tables(e.rows, e.txns, w.charges);
    PendingResolves(ms, w, w1, key, req);
    FoundLast(w.txns, Txn(input, Success, r));
    TakenReports(w1.rows, w1.txns, q, input, g.move);
    hide ResolveCharge, Settles;
    var e2 := Executed(w1.rows, w1.txns, q, input, g.move);
    OtherRows(w, e2.rows);
    SuccessKeeps(w.(rows := e2.rows), req.charge, Txn(input, Success, r));
  }

  /** What a pending charge resolves to does not depend on the transactions. */
  lemma PendingResolves(ms: seq<Merchant>, w: Tables, w': Tables, key: string, req: PayRequest)
    requires w.charges == w'.charges && ResolveCharge(ms, w.charges, w.txns, key, req).Ok?
    ensures ResolveCharge(ms, w'.charges, w'.txns, key, req) == ResolveCharge(ms, w.charges, w.txns, key, req)
  {
    hide ById, AmountForCharge;
  }

  /** Settlement does not look at balances. */
  lemma OtherRows(w: Tables, rows: L.Rows)
    ensures Settled(w.(rows := rows)) <==> Settled(w)
  {
  }

  // ---------- Sequential runs ----------

  /** Charges are created and paid; other payments, and account operations, come in between. */
  datatype Action =
    | Create(charge: Charge)
    | PayCharge(key: string, req: PayRequest, f: PayFaults)
    | PayOther(input: Input, move: Faults)
    | Account(op: L.Op)

  function Next(ms: seq<Merchant>, w: Tables, a: Action): Tables {
    match a
    case Create(charge) =>
      w.(charges := w.charges + [charge.(status := ChargePending, paidTxn := None)])
    case PayCharge(key, req, f) => Paid(ms, w, 0, key, req, f).0
    case PayOther(input, f) =>
      if input.details.reference.ToCharge? then w
      else
        var e := Executed(w.rows, w.txns, 0, input, f);
        Tables(e.rows, e.txns, w.charges)
    case Account(op) => w.(rows := L.Apply(w.rows, op).0)
  }

  function Run(ms: seq<Merchant>, w: Tables, actions: seq<Action>): Tables {
    if actions == [] then w else Next(ms, Run(ms, w, actions[..|actions| - 1]), actions[|actions| - 1])
  }

  /** The key a request comes with, and what it pays for. */
  function Purpose(a: Action): Option<(string, Reference)> {
    match a
    case PayCharge(key, req, _) => Some((key, ToCharge(req.charge)))
    case PayOther(input, _) => Some((input.key, input.details.reference))
    case _ => None
  }

  /** No key is used for two purposes. */
  ghost predicate KeysKept(actions: seq<Action>) {
    forall i, j :: 0 <= i < |actions| && 0 <= j < |actions| ==> Compatible(Purpose(actions[i]), Purpose(actions[j]))
  }

  predicate Compatible(a: Option<(string, Reference)>, b: Option<(string, Reference)>) {
    a.Some? && b.Some? && a.value.0 == b.value.0 ==> a == b
  }

  ghost predicate Asked(actions: seq<Action>, txn: Txn) {
    exists i :: 0 <= i < |actions| && Purpose(actions[i]) == Some((txn.input.key, txn.input.details.reference))
  }

  /** Every row was asked for under its key and for its purpose. */
  ghost predicate AllAsked(actions: seq<Action>, txns: seq<Txn>) {
    forall t :: 0 <= t < |txns| ==> Asked(actions, txns[t])
  }

  lemma AskedLonger(actions: seq<Action>, a: Action, txns: seq<Txn>)
    requires AllAsked(actions, txns)
    ensures AllAsked(actions + [a], txns)
  {
    forall t | 0 <= t < |txns| ensures Asked(actions + [a], txns[t]) {
      var i :| 0 <= i < |actions| && Purpose(actions[i]) == Some((txns[t].input.key, txns[t].input.details.reference));
      assert (actions + [a])[i] == actions[i];
    }
  }

  lemma AskedStays(ms: seq<Merchant>, w: Tables, actions: seq<Action>, a: Action)
    requires AllAsked(actions, w.txns)
    ensures AllAsked(actions + [a], Next(ms, w, a).txns)
  {
    AskedLonger(actions, a, w.txns);
    assert (actions + [a])[|actions|] == a;
    hide Executed, ResolveCharge, Marked, Settles;
    match a
    case PayCharge(key, req, f) =>
      if ResolveCharge(ms, w.charges, w.txns, key, req).Ok? {
        ResolvedIs(ms, w, key, req);
        ExecutedAppends(w.rows, w.txns, 0, ResolveCharge(ms, w.charges, w.txns, key, req).value, f.move);
      }
    case PayOther(input, f) => ExecutedAppends(w.rows, w.txns, 0, input, f);
    case _ =>
  }

  /** A key that names a successful transaction was used for the same charge, which is then already settled. */
  lemma KeyIsFree(ms: seq<Merchant>, w: Tables, actions: seq<Action>, key: string, req: PayRequest, f: PayFaults)
    requires Settled(w) && AllAsked(actions, w.txns) && KeysKept(actions + [PayCharge(key, req, f)])
    ensures !KeyTaken(ms, w, key, req, f)
  {
    var all := actions + [PayCharge(key, req, f)];
    if ResolveCharge(ms, w.charges, w.txns, key, req).Ok? && FindKey(w.txns, key).Some? {
      ResolvedIs(ms, w, key, req);
      var t := FindKey(w.txns, key).value;
      assert Asked(actions, w.txns[t]);
      var i :| 0 <= i < |actions| && Purpose(actions[i]) == Some((w.txns[t].input.key, w.txns[t].input.details.reference));
      assert all[i] == actions[i] && all[|actions|] == PayCharge(key, req, f);
      assert Purpose(all[i]) == Purpose(all[|actions|]);
      assert ChargeOk(w.txns, w.charges[req.charge], req.charge);
      assert Pays(w.txns, t, req.charge) <==> w.txns[t].status == Success;
    }
  }

  lemma CreateKeeps(w: Tables, charge: Charge)
    requires Settled(w) && charge.status == ChargePending && charge.paidTxn.None?
    ensures Settled(w.(charges := w.charges + [charge]))
  {
    var w' := w.(charges := w.charges + [charge]);
    forall c | 0 <= c < |w'.charges| ensures ChargeOk(w'.txns, w'.charges[c], c) {
      if c < |w.charges| {
        assert ChargeOk(w.txns, w.charges[c], c);
      }
    }
  }

  /** A payment of a charge that spoils the books. */
  predicate Misstep(ms: seq<Merchant>, w: Tables, a: Action) {
    a.PayCharge? && (KeyTaken(ms, w, a.key, a.req, a.f) || MarkMissed(ms, w, a.key, a.req, a.f))
  }

  lemma NextKeepsIff(ms: seq<Merchant>, w: Tables, a: Action)
    requires Settled(w)
    ensures Settled(Next(ms, w, a)) <==> !Misstep(ms, w, a)
  {
    hide Settled, Executed, Paid, KeyTaken, MarkMissed;
    match a
    case Create(charge) => CreateKeeps(w, charge.(status := ChargePending, paidTxn := None));
    case PayCharge(key, req, f) => PayKeepsIff(ms, w, 0, key, req, f);
    case PayOther(input, f) =>
      if !input.details.reference.ToCharge? {
        ExecutedAppends(w.rows, w.txns, 0, input, f);
        var e := Executed(w.rows, w.txns, 0, input, f);
        OtherRows(w, e.rows);
        if e.txns != w.txns {
          AppendKeeps(w.(rows := e.rows), Txn(input, e.txns[|w.txns|].status, 0));
        }
      }
    case Account(op) => OtherRows(w, L.Apply(w.rows, op).0);
  }

  /** The tables after the first n actions, from empty ones but for the accounts. */
  function Reached(ms: seq<Merchant>, rows: L.Rows, actions: seq<Action>, n: nat): Tables
    requires n <= |actions|
  {
    Run(ms, Tables(rows, [], []), actions[..n])
  }

  ghost predicate AlwaysSettled(ms: seq<Merchant>, rows: L.Rows, actions: seq<Action>) {
    forall n :: 0 <= n <= |actions| ==> Settled(Reached(ms, rows, actions, n))
  }

  ghost predicate NoMisstep(ms: seq<Merchant>, rows: L.Rows, actions: seq<Action>) {
    forall n :: 0 <= n < |actions| ==> !Misstep(ms, Reached(ms, rows, actions, n), actions[n])
  }

  /** No payment pays for a charge and misses its mark. */
  ghost predicate NoMissedMark(ms: seq<Merchant>, rows: L.Rows, actions: seq<Action>) {
    forall n :: 0 <= n < |actions| && actions[n].PayCharge? ==>
      !MarkMissed(ms, Reached(ms, rows, actions, n), actions[n].key, actions[n].req, actions[n].f)
  }

  lemma ReachedPrefix(ms: seq<Merchant>, rows: L.Rows, actions: seq<Action>, a: Action)
    ensures forall n :: 0 <= n <= |actions| ==> Reached(ms, rows, actions + [a], n) == Reached(ms, rows, actions, n)
    ensures Reached(ms, rows, actions + [a], |actions| + 1) == Next(ms, Reached(ms, rows, actions, |actions|), a)
  {
    hide Next;
    forall n | 0 <= n <= |actions| ensures Reached(ms, rows, actions + [a], n) == Reached(ms, rows, actions, n) {
      assert (actions + [a])[..n] == actions[..n];
    }
    var all := (actions + [a])[..|actions| + 1];
    assert all[..|all| - 1] == actions[..|actions|] && all[|all| - 1] == a;
  }

  lemma OneMore(ms: seq<Merchant>, rows: L.Rows, actions: seq<Action>, a: Action)
    ensures AlwaysSettled(ms, rows, actions + [a]) <==>
      AlwaysSettled(ms, rows, actions) && Settled(Next(ms, Reached(ms, rows, actions, |actions|), a))
    ensures NoMisstep(ms, rows, actions + [a]) <==>
      NoMisstep(ms, rows, actions) && !Misstep(ms, Reached(ms, rows, actions, |actions|), a)
    ensures NoMissedMark(ms, rows, actions + [a]) <==>
      NoMissedMark(ms, rows, actions)
      && (a.PayCharge? ==> !MarkMissed(ms, Reached(ms, rows, actions, |actions|), a.key, a.req, a.f))
  {
    ReachedPrefix(ms, rows, actions, a);
    hide Reached, Next, Settled, Misstep, MarkMissed;
    var all := actions + [a];
    assert forall n :: 0 <= n < |actions| ==> all[n] == actions[n];
    assert all[|actions|] == a;
    assert AlwaysSettled(ms, rows, all) ==> AlwaysSettled(ms, rows, actions) by {
      assert forall n :: 0 <= n <= |actions| ==> Reached(ms, rows, all, n) == Reached(ms, rows, actions, n);
    }
    assert NoMisstep(ms, rows, all) ==> NoMisstep(ms, rows, actions) by {
      assert forall n :: 0 <= n <= |actions| ==> Reached(ms, rows, all, n) == Reached(ms, rows, actions, n);
    }
  }

  /**
   In every sequential run, whatever keys are used and whatever fails, settlement is always right exactly if no
   payment spoils it.
   */
  lemma {:induction false} RunSettledIff(ms: seq<Merchant>, rows: L.Rows, actions: seq<Action>)
    ensures AlwaysSettled(ms, rows, actions) <==> NoMisstep(ms, rows, actions)
  {
    if actions == [] {
      NothingSettled(ms, rows);
    } else {
      var before, a := actions[..|actions| - 1], actions[|actions| - 1];
      assert actions == before + [a];
      RunSettledIff(ms, rows, before);
      OneMore(ms, rows, before, a);
      assert AlwaysSettled(ms, rows, before) ==> Settled(Reached(ms, rows, before, |before|));
      hide Settled, Misstep, Reached, Next;
      if Settled(Reached(ms, rows, before, |before|)) {
        NextKeepsIff(ms, Reached(ms, rows, before, |before|), a);
      }
    }
  }

  lemma NothingSettled(ms: seq<Merchant>, rows: L.Rows)
    ensures AlwaysSettled(ms, rows, [])
  {
    forall n | 0 <= n <= 0 ensures Settled(Reached(ms, rows, [], n)) {
      assert Reached(ms, rows, [], n) == Tables(rows, [], []);
    }
  }

  lemma {:induction false} RunAsked(ms: seq<Merchant>, rows: L.Rows, actions: seq<Action>)
    ensures AllAsked(actions, Run(ms, Tables(rows, [], []), actions).txns)
  {
    if actions != [] {
      hide Next, AllAsked;
      var before, a := actions[..|actions| - 1], actions[|actions| - 1];
      assert before + [a] == actions;
      RunAsked(ms, rows, before);
      AskedStays(ms, Run(ms, Tables(rows, [], []), before), before, a);
    } else {
      NothingAsked();
    }
  }

  lemma NothingAsked()
    ensures AllAsked([], [])
  {
  }

  /**
   In every sequential run in which no key serves two purposes, it is always the case that at most one
   successful transaction pays a charge, the charge is PAID exactly when one does, and PaidTxnID names it,
   exactly if no payment pays for a charge and misses its mark.
   */
  lemma {:induction false} RunSettled(ms: seq<Merchant>, rows: L.Rows, actions: seq<Action>)
    requires KeysKept(actions)
    ensures AlwaysSettled(ms, rows, actions) <==> NoMissedMark(ms, rows, actions)
  {
    if actions == [] {
      NothingSettled(ms, rows);
    } else {
      var before, a := actions[..|actions| - 1], actions[|actions| - 1];
      assert actions == before + [a];
      assert KeysKept(before);
      RunSettled(ms, rows, before);
      OneMore(ms, rows, before, a);
      RunAsked(ms, rows, before);
      assert before[..|before|] == before;
      var w := Reached(ms, rows, before, |before|);
      assert AlwaysSettled(ms, rows, before) ==> Settled(w);
      hide Settled, Reached, Next, AllAsked, KeyTaken, MarkMissed;
      if Settled(w) {
        NextKeepsIff(ms, w, a);
        if a.PayCharge? {
          KeyIsFree(ms, w, before, a.key, a.req, a.f);
        }
      }
    }
  }

  // ---------- A key used twice ----------

  lemma RunTwo(ms: seq<Merchant>, w: Tables, a: Action, b: Action)
    ensures Run(ms, w, [a, b]) == Next(ms, Next(ms, w, a), b)
  {
    hide Next;
    assert [a, b][..1] == [a] && [a][..0] == [];
    assert Run(ms, w, []) == w;
    assert Run(ms, w, [a]) == Next(ms, w, a);
    assert Run(ms, w, [a, b]) == Next(ms, Run(ms, w, [a, b][..|[a, b]| - 1]), b);
  }

  lemma {:induction false} RunConcat(ms: seq<Merchant>, w: Tables, a: seq<Action>, b: seq<Action>)
    ensures Run(ms, w, a + b) == Run(ms, Run(ms, w, a), b)
  {
    hide Next;
    if b == [] {
      assert a + b == a;
    } else {
      RunConcat(ms, w, a, b[..|b| - 1]);
      assert (a + b)[..|a + b| - 1] == a + b[..|b| - 1];
    }
  }

  function StaticCharge(m: Merchant, qr: string): Charge { Charge(m.id, Static, qr, None, ChargePending, None) }

  function AllFine(): PayFaults { PayFaults(Faults(Fine, Fine, Fine, Fine, Fine, true, true, true, Fine), Fine) }

  /** A merchant who exists, an amount, and accounts with money and room for it. */
  predicate CanPay(ms: seq<Merchant>, rows: L.Rows, m: Merchant, source: string, amount: Int64) {
    && ById(ms, m.id) == Some(m)
    && Payable(rows, [], Input("", source, m.accountId, amount, Details(QRIS, m.currency, NoReference)))
  }

  function ChargeInput(m: Merchant, key: string, req: PayRequest): Input {
    Input(key, req.source, m.accountId, req.amount, Details(QRIS, m.currency, ToCharge(req.charge)))
  }

  lemma FirstPays(ms: seq<Merchant>, rows: L.Rows, m: Merchant, source: string, amount: Int64, key: string, cs: seq<Charge>)
    requires CanPay(ms, rows, m, source, amount) && |cs| == 2 && cs[0].merchantId == m.id && cs[0].qrType == Static
    requires cs[0].status == ChargePending
    ensures var w := Paid(ms, Tables(rows, [], cs), 0, key, PayRequest(0, source, amount), AllFine()).0;
      && w.txns == [Txn(ChargeInput(m, key, PayRequest(0, source, amount)), Success, 0)]
      && w.charges == Marked(cs, 0, 0, Fine)
  {
    var input := ChargeInput(m, key, PayRequest(0, source, amount));
    hide Executed, ById;
    assert ResolveCharge(ms, cs, [], key, PayRequest(0, source, amount)) == Ok(input);
    assert Payable(rows, [], input);
    PaidReports(rows, [], 0, input, AllFine().move);
    assert [] + [Txn(input, Success, 0)] == [Txn(input, Success, 0)];
    hide Payable, Marked, ResolveCharge;
  }

  lemma SecondReuses(ms: seq<Merchant>, w: Tables, m: Merchant, source: string, amount: Int64, key: string)
    requires ById(ms, m.id) == Some(m) && |w.charges| == 2 && w.charges[1].merchantId == m.id && w.charges[1].qrType == Static
    requires w.charges[1].status == ChargePending && amount > 0
    requires |w.txns| == 1 && w.txns[0].input.key == key && w.txns[0].status == Success
    ensures var w' := Paid(ms, w, 0, key, PayRequest(1, source, amount), AllFine()).0;
      w'.txns == w.txns && w'.charges == Marked(w.charges, 1, 0, Fine)
  {
    var input := ChargeInput(m, key, PayRequest(1, source, amount));
    hide Executed, ById;
    assert ResolveCharge(ms, w.charges, w.txns, key, PayRequest(1, source, amount)) == Ok(input);
    assert FindKey(w.txns, key) == Some(0);
    TakenReports(w.rows, w.txns, 0, input, AllFine().move);
    hide Marked, ResolveCharge, FindKey;
  }

  /**
   For example, from any accounts that can pay: two charges are created and paid for under one key. Only the
   first payment moves money, and the second charge is PAID although no transaction pays for it.
   */
  lemma KeyReuseBreaks(ms: seq<Merchant>, rows: L.Rows, m: Merchant, source: string, amount: Int64, key: string,
                       qr: seq<string>)
    requires CanPay(ms, rows, m, source, amount) && |qr| == 2
    ensures var w := Run(ms, Tables(rows, [], []),
        [Create(StaticCharge(m, qr[0])), Create(StaticCharge(m, qr[1]))]
        + [PayCharge(key, PayRequest(0, source, amount), AllFine()), PayCharge(key, PayRequest(1, source, amount), AllFine())]);
      && w.txns == [Txn(ChargeInput(m, key, PayRequest(0, source, amount)), Success, 0)]
      && |w.charges| == 2 && w.charges[1].status == ChargePaid && (forall t: nat :: !Pays(w.txns, t, 1))
      && !Settled(w)
  {
    var (c0, c1) := (StaticCharge(m, qr[0]), StaticCharge(m, qr[1]));
    var p0 := PayCharge(key, PayRequest(0, source, amount), AllFine());
    var p1 := PayCharge(key, PayRequest(1, source, amount), AllFine());
    var start, w2 := Tables(rows, [], []), Tables(rows, [], [c0, c1]);
    CreatedTwo(ms, rows, c0, c1);
    RunConcat(ms, start, [Create(c0), Create(c1)], [p0, p1]);
    RunTwo(ms, w2, p0, p1);
    hide Run;
    PaidTwice(ms, rows, m, source, amount, key, c0, c1);
    hide Next, CanPay, Settled;
    var w4 := Next(ms, Next(ms, w2, p0), p1);
    NotSettled(w4);
  }

  lemma CreatedTwo(ms: seq<Merchant>, rows: L.Rows, c0: Charge, c1: Charge)
    requires c0.status == c1.status == ChargePending && c0.paidTxn == c1.paidTxn == None
    ensures Run(ms, Tables(rows, [], []), [Create(c0), Create(c1)]) == Tables(rows, [], [c0, c1])
  {
    RunTwo(ms, Tables(rows, [], []), Create(c0), Create(c1));
    assert [] + [c0] == [c0] && [c0] + [c1] == [c0, c1];
  }

  lemma PaidTwice(ms: seq<Merchant>, rows: L.Rows, m: Merchant, source: string, amount: Int64, key: string,
                  c0: Charge, c1: Charge)
    requires CanPay(ms, rows, m, source, amount)
    requires c0 == StaticCharge(m, c0.qrString) && c1 == StaticCharge(m, c1.qrString)
    ensures var w3 := Next(ms, Tables(rows, [], [c0, c1]), PayCharge(key, PayRequest(0, source, amount), AllFine()));
      var w4 := Next(ms, w3, PayCharge(key, PayRequest(1, source, amount), AllFine()));
      && w4.txns == [Txn(ChargeInput(m, key, PayRequest(0, source, amount)), Success, 0)]
      && |w4.charges| == 2 && w4.charges[1].status == ChargePaid
  {
    FirstPays(ms, rows, m, source, amount, key, [c0, c1]);
    var w3 := Paid(ms, Tables(rows, [], [c0, c1]), 0, key, PayRequest(0, source, amount), AllFine()).0;
    hide Paid, Executed;
    SecondReuses(ms, w3, m, source, amount, key);
  }

  /** A charge that is PAID although its only transaction is for another one. */
  lemma NotSettled(w: Tables)
    requires |w.charges| == 2 && w.charges[1].status == ChargePaid
    requires |w.txns| == 1 && w.txns[0].input.details.reference == ToCharge(0)
    ensures (forall t: nat :: !Pays(w.txns, t, 1)) && !Settled(w)
  {
    assert !ChargeOk(w.txns, w.charges[1], 1);
  }

  /** A settled charge stays settled by the same transaction, whatever is called next. */
  lemma PaidStays(ms: seq<Merchant>, w: Tables, a: Action, c: nat)
    requires c < |w.charges| && w.charges[c].status == ChargePaid
    ensures c < |Next(ms, w, a).charges| && Next(ms, w, a).charges[c] == w.charges[c]
  {
    hide Executed, ResolveCharge, Settles;
  }

  // ---------- Who is paid, and how much ----------

  /** A payment of a charge goes to the charge's merchant, and for a dynamic charge over exactly its amount. */
  predicate FitsCharge(ms: seq<Merchant>, charge: Charge, input: Input) {
    && ById(ms, charge.merchantId).Some?
    && input.dest == ById(ms, charge.merchantId).value.accountId
    && input.details.currency == ById(ms, charge.merchantId).value.currency
    && input.amount > 0
    && (charge.qrType == Dynamic ==> charge.amount == Some(input.amount))
  }

  ghost predicate AllFit(ms: seq<Merchant>, w: Tables) {
    forall t :: 0 <= t < |w.txns| && w.txns[t].input.details.reference.ToCharge? ==>
      var c := w.txns[t].input.details.reference.c;
      c < |w.charges| && FitsCharge(ms, w.charges[c], w.txns[t].input)
  }

  lemma ResolvedFits(ms: seq<Merchant>, w: Tables, key: string, req: PayRequest)
    requires ResolveCharge(ms, w.charges, w.txns, key, req).Ok?
    requires ResolveCharge(ms, w.charges, w.txns, key, req).value.amount > 0
    ensures req.charge < |w.charges|
    ensures FitsCharge(ms, w.charges[req.charge], ResolveCharge(ms, w.charges, w.txns, key, req).value)
  {
    hide ById;
  }

  /** A step keeps what a charge is for, and every row it adds has a positive amount. */
  lemma StepFits(ms: seq<Merchant>, w: Tables, a: Action)
    requires AllFit(ms, w)
    ensures AllFit(ms, Next(ms, w, a))
  {
    hide FitsCharge, ResolveCharge, Executed, Settles, Marked;
    match a
    case PayCharge(key, req, f) =>
      if ResolveCharge(ms, w.charges, w.txns, key, req).Ok? {
        ResolvedIs(ms, w, key, req);
        var input := ResolveCharge(ms, w.charges, w.txns, key, req).value;
        ExecutedAppends(w.rows, w.txns, 0, input, f.move);
        var e := Executed(w.rows, w.txns, 0, input, f.move);
        var w1 := w.(txns := e.txns);
        if e.txns != w.txns {
          ResolvedFits(ms, w, key, req);
          RowFits(ms, w, Txn(input, e.txns[|w.txns|].status, 0));
        }
        if Settles(e.response).Some? {
          MarkFits(ms, w1, req.charge, Settles(e.response).value, f.mark);
        }
      }
    case PayOther(input, f) =>
      if !input.details.reference.ToCharge? {
        ExecutedAppends(w.rows, w.txns, 0, input, f);
      }
    case _ =>
  }

  lemma MarkedSame(ms: seq<Merchant>, charges: seq<Charge>, c: nat, t: nat, mark: Fault, input: Input)
    requires c < |charges|
    ensures |Marked(charges, c, t, mark)| == |charges|
    ensures forall d :: 0 <= d < |charges| ==>
      FitsCharge(ms, Marked(charges, c, t, mark)[d], input) == FitsCharge(ms, charges[d], input)
  {
    hide ById;
  }

  lemma MarkFits(ms: seq<Merchant>, w: Tables, c: nat, t: nat, mark: Fault)
    requires AllFit(ms, w) && c < |w.charges|
    ensures AllFit(ms, w.(charges := Marked(w.charges, c, t, mark)))
  {
    forall u | 0 <= u < |w.txns| && w.txns[u].input.details.reference.ToCharge?
      ensures w.txns[u].input.details.reference.c < |Marked(w.charges, c, t, mark)|
      ensures FitsCharge(ms, Marked(w.charges, c, t, mark)[w.txns[u].input.details.reference.c], w.txns[u].input)
    {
      MarkedSame(ms, w.charges, c, t, mark, w.txns[u].input);
    }
    hide FitsCharge, Marked;
  }

  lemma RowFits(ms: seq<Merchant>, w: Tables, txn: Txn)
    requires AllFit(ms, w) && txn.input.details.reference.ToCharge?
    requires txn.input.details.reference.c < |w.charges| && FitsCharge(ms, w.charges[txn.input.details.reference.c], txn.input)
    ensures AllFit(ms, w.(txns := w.txns + [txn]))
  {
    hide FitsCharge;
  }

  /** Whatever keys are used: every payment made for a charge goes to its merchant, over its amount. */
  lemma {:induction false} ChargesPayTheirMerchant(ms: seq<Merchant>, rows: L.Rows, actions: seq<Action>)
    ensures AllFit(ms, Run(ms, Tables(rows, [], []), actions))
  {
    hide Next, AllFit;
    if actions != [] {
      ChargesPayTheirMerchant(ms, rows, actions[..|actions| - 1]);
      StepFits(ms, Run(ms, Tables(rows, [], []), actions[..|actions| - 1]), actions[|actions| - 1]);
    } else {
      NothingFits(ms, rows);
    }
  }

  lemma NothingFits(ms: seq<Merchant>, rows: L.Rows)
    ensures AllFit(ms, Tables(rows, [], []))
  {
  }
}
