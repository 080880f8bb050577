/** Generating a QR charge for a merchant, and resolving a scanned QR string back to merchant and amount. */
module QrPayments {
  import opened Wrappers
  import opened Amounts
  import opened Codec

  datatype Merchant = Merchant(
    id: string, nmid: string, name: string, city: string, mcc: string, country: string,
    postalCode: Option<string>, accountId: string, currency: string, active: bool)

  datatype QrType = Static | Dynamic

  datatype GenerateRequest = GenerateRequest(
    merchantId: string, qrType: QrType, amount: Int64, reference: string, billNumber: string)

  datatype ChargeStatus = ChargePending | ChargePaid | ChargeExpired | ChargeCancelled

  /** `paidTxn` is the transaction that settled the charge. */
  datatype Charge = Charge(
    merchantId: string, qrType: QrType, qrString: string, amount: Option<Int64>,
    status: ChargeStatus, paidTxn: Option<nat>)

  datatype Failure = MerchantNotFound | MerchantInactive | EncodeFailed(e: EncodeError) | StoreFailed
                   | MalformedQr | BadChecksum | BadAmount | AmountRequired | AmountMissing | DecodePanic

  datatype Resolution = Resolution(merchant: Merchant, amount: Int64, extRef: string)

  function ById(ms: seq<Merchant>, id: string): Option<Merchant> {
    if ms == [] then None else if ms[0].id == id then Some(ms[0]) else ById(ms[1..], id)
  }

  function ByNmid(ms: seq<Merchant>, nmid: string): Option<Merchant> {
    if ms == [] then None else if ms[0].nmid == nmid then Some(ms[0]) else ByNmid(ms[1..], nmid)
  }

  /** The unique index on the merchants' NMID. */
  ghost predicate UniqueNmid(ms: seq<Merchant>) {
    forall i, j :: 0 <= i < j < |ms| ==> ms[i].nmid != ms[j].nmid
  }

  function InitiationFor(t: QrType): string {
    if t == Static then INITIATION_STATIC else INITIATION_DYNAMIC
  }

  function ChargePayload(guid: string, m: Merchant, req: GenerateRequest): Payload {
    Payload(
      "", InitiationFor(req.qrType), guid, m.nmid, "", m.mcc, CURRENCY_IDR,
      if req.qrType == Dynamic then MinorToMajor(req.amount) else "",
      m.country, m.name, m.city, m.postalCode.GetOr(""), req.billNumber, req.reference, "", "", false)
  }

  function AmountForCharge(charge: Charge, reqAmount: Int64): Result<Int64, Failure> {
    if charge.qrType == Dynamic then
      if charge.amount.None? then Err(AmountMissing) else Ok(charge.amount.value)
    else if reqAmount <= 0 then Err(AmountRequired)
    else Ok(reqAmount)
  }

  function AmountForDecoded(p: Payload, reqAmount: Int64): Result<Int64, Failure> {
    if p.IsDynamic() then
      match MajorToMinor(p.amount)
      case None => Err(BadAmount)
      case Some(minor) => Ok(minor)
    else if reqAmount <= 0 then
      Err(AmountRequired)
    else
      Ok(reqAmount)
  }

  function Resolve(ms: seq<Merchant>, qr: string, reqAmount: Int64): Result<Resolution, Failure> {
    match DecodeSpec(qr)
    case Rejected => Err(MalformedQr)
    case Panicked => Err(DecodePanic)
    case Decoded(p) =>
      if !p.crcValid then Err(BadChecksum) else
      match ByNmid(ms, p.nmid)
      case None => Err(MerchantNotFound)
      case Some(m) =>
        match AmountForDecoded(p, reqAmount)
        case Err(e) => Err(e)
        case Ok(amount) => Ok(Resolution(m, amount, p.nmid))
  }

  datatype MarkResult = PaidNow | NotPending | MarkFailed

  /** The charges after marking one paid: a pending one names the transaction, unless the write fails. */
  function Marked(charges: seq<Charge>, c: nat, txn: nat, fault: Fault): seq<Charge>
    requires c < |charges|
  {
    if charges[c].status == ChargePending && fault != Fails then
      charges[c := charges[c].(status := ChargePaid, paidTxn := Some(txn))]
    else
      charges
  }

  /** The merchant registry, the stored charges, and the configured acquirer id. */
  class QrisService {
    var merchants: seq<Merchant>
    var charges: seq<Charge>
    const acquirerGuid: string

    constructor (merchants: seq<Merchant>, acquirerGuid: string)
      ensures this.merchants == merchants && this.acquirerGuid == acquirerGuid && charges == []
    {
      this.merchants, this.acquirerGuid := merchants, acquirerGuid;
      charges := [];
    }

    /** `fault` is how the insert goes. */
    method GenerateCharge(req: GenerateRequest, fault: Fault) returns (r: Result<Charge, Failure>)
      modifies this`charges
      ensures r == Err(MerchantNotFound) <==> ById(merchants, req.merchantId).None?
      ensures r == Err(MerchantInactive) <==>
        ById(merchants, req.merchantId).Some? && !ById(merchants, req.merchantId).value.active
      ensures ById(merchants, req.merchantId).Some? && ById(merchants, req.merchantId).value.active ==>
        var encoded := EncodeSpec(ChargePayload(acquirerGuid, ById(merchants, req.merchantId).value, req));
        && (encoded.Err? ==> r == Err(EncodeFailed(encoded.error)))
        && (encoded.Ok? ==> if fault == Fine then r.Ok? else r == Err(StoreFailed))
      ensures r.Ok? ==> charges == old(charges) + [r.value]
      ensures r == Err(StoreFailed) && fault == Lost ==> |charges| == |old(charges)| + 1 && old(charges) <= charges
      ensures r.Err? && (r.error.StoreFailed? ==> fault == Fails) ==> charges == old(charges)
      ensures |charges| > |old(charges)| ==>
        && ById(merchants, req.merchantId).Some?
        && var (m, added) := (ById(merchants, req.merchantId).value, charges[|old(charges)|]);
           && m.active
           && EncodeSpec(ChargePayload(acquirerGuid, m, req)) == Ok(added.qrString)
           && added.merchantId == m.id && added.qrType == req.qrType
           && added.amount == (if req.qrType == Dynamic then Some(req.amount) else None)
           && added.status == ChargePending && added.paidTxn == None
    {
      var found := ById(merchants, req.merchantId);
      if found.None? {
        return Err(MerchantNotFound);
      }
      var m := found.value;
      if !m.active {
        return Err(MerchantInactive);
      }
      var encoded := Encode(ChargePayload(acquirerGuid, m, req));
      if encoded.Err? {
        return Err(EncodeFailed(encoded.error));
      }
      var charge := Charge(m.id, req.qrType, encoded.value, if req.qrType == Dynamic then Some(req.amount) else None,
        ChargePending, None);
      if fault != Fails {
        charges := charges + [charge];
      }
      r := if fault == Fine then Ok(charge) else Err(StoreFailed);
    }

    /** `UPDATE ... WHERE id = ? AND status = 'PENDING'`. */
    method MarkPaid(c: nat, txn: nat, fault: Fault) returns (r: MarkResult)
      requires c < |charges|
      modifies this`charges
      ensures charges == Marked(old(charges), c, txn, fault)
      ensures r == MarkFailed <==> fault != Fine
      ensures r == PaidNow <==> fault == Fine && old(charges)[c].status == ChargePending
    {
      var pending := charges[c].status == ChargePending;
      if pending && fault != Fails {
        charges := charges[c := charges[c].(status := ChargePaid, paidTxn := Some(txn))];
      }
      r := if fault != Fine then MarkFailed else if pending then PaidNow else NotPending;
    }

    method ResolveQrString(qr: string, reqAmount: Int64) returns (r: Result<Resolution, Failure>)
      ensures r == Resolve(merchants, qr, reqAmount)
    {
      var decoded := Decode(qr);
      if decoded.Panicked? {
        return Err(DecodePanic);
      }
      if decoded.Rejected? {
        return Err(MalformedQr);
      }
      if !decoded.p.crcValid {
        return Err(BadChecksum);
      }
      var merchant := ByNmid(merchants, decoded.p.nmid);
      if merchant.None? {
        return Err(MerchantNotFound);
      }
      var amount := AmountForDecoded(decoded.p, reqAmount);
      if amount.Err? {
        return Err(amount.error);
      }
      r := Ok(Resolution(merchant.value, amount.value, decoded.p.nmid));
    }
  }

  lemma {:induction false} ByNmidFinds(ms: seq<Merchant>, m: Merchant)
    requires UniqueNmid(ms) && m in ms
    ensures ByNmid(ms, m.nmid) == Some(m)
  {
    if ms[0] != m {
      var i :| 0 <= i < |ms| && ms[i] == m;
      assert ms[1..][i - 1] == m;
      ByNmidFinds(ms[1..], m);
    }
  }

  /**
   For every valid amount and every registered merchant, the string of a charge resolves to
   that merchant, and for a dynamic charge to the very amount it was generated for.
   */
  lemma ScanResolves(ms: seq<Merchant>, guid: string, m: Merchant, req: GenerateRequest, qr: string, reqAmount: Int64)
    requires UniqueNmid(ms) && m in ms
    requires req.qrType == Dynamic ==> req.amount > 0
    requires EncodeSpec(ChargePayload(guid, m, req)) == Ok(qr)
    ensures Resolve(ms, qr, reqAmount) ==
            if req.qrType == Dynamic then Ok(Resolution(m, req.amount, m.nmid))
            else if reqAmount <= 0 then Err(AmountRequired)
            else Ok(Resolution(m, reqAmount, m.nmid))
  {
    hide EncodeSpec, DecodeSpec, MajorToMinor, MinorToMajor, ByNmid, UniqueNmid;
    var p := ChargePayload(guid, m, req);
    RoundTrip(p, qr);
    ByNmidFinds(ms, m);
    if req.qrType == Dynamic {
      MinorRoundTripIff(req.amount);
    }
  }

  /** A string that decodes and whose checksum is wrong resolves to nothing, whoever and whatever it names. */
  lemma BadChecksumRefused(ms: seq<Merchant>, qr: string, reqAmount: Int64)
    requires DecodeSpec(qr).Decoded? && !CrcValid(qr)
    ensures Resolve(ms, qr, reqAmount) == Err(BadChecksum)
  {
    DecodeReportsChecksum(qr);
    hide DecodeSpec, CrcValid;
  }

  /**
   A string that was encoded and then damaged under its unchanged checksum, by a burst of at most sixteen bits or by
   an odd number of them, never resolves to a merchant and an amount.
   */
  lemma DamagedNeverResolves(ms: seq<Merchant>, p: Payload, qr: string, damaged: string, w: nat, reqAmount: Int64)
    requires EncodeSpec(p) == Ok(qr) && |damaged| == |qr| && damaged[|qr| - 4..] == qr[|qr| - 4..]
    requires Crc.Burst16(Covered(qr), Covered(damaged), w) || Crc.Odd(Crc.Xor(Covered(qr), Covered(damaged)))
    ensures Resolve(ms, damaged, reqAmount).Err?
  {
    hide DecodeSpec, EncodeSpec, Body, CrcValid, ByNmid, Covered;
    EncodedShape(p, qr);
    ChecksumMatches(qr);
    DamageDetected(qr, damaged, w);
    if DecodeSpec(damaged).Decoded? {
      BadChecksumRefused(ms, damaged, reqAmount);
    }
  }

  /** The first registered merchant with an NMID. */
  ghost predicate FirstWith(ms: seq<Merchant>, nmid: string, i: nat) {
    i < |ms| && ms[i].nmid == nmid && forall j :: 0 <= j < i ==> ms[j].nmid != nmid
  }

  lemma {:induction false} ByNmidIsFirst(ms: seq<Merchant>, nmid: string)
    ensures ByNmid(ms, nmid).None? <==> forall i :: 0 <= i < |ms| ==> ms[i].nmid != nmid
    ensures ByNmid(ms, nmid).Some? ==> exists i: nat :: FirstWith(ms, nmid, i) && ByNmid(ms, nmid).value == ms[i]
  {
    if ms != [] {
      ByNmidIsFirst(ms[1..], nmid);
      if ms[0].nmid == nmid {
        assert FirstWith(ms, nmid, 0);
      } else {
        assert forall i :: 0 < i < |ms| ==> ms[i] == ms[1..][i - 1];
        if i: nat :| FirstWith(ms[1..], nmid, i) && ByNmid(ms[1..], nmid).value == ms[1..][i] {
          assert FirstWith(ms, nmid, i + 1) && ms[i + 1] == ms[1..][i];
        }
      }
    }
  }

  /** A merchant that is found is registered under the identifier; none is found exactly if none is. */
  lemma {:induction false} ByIdFinds(ms: seq<Merchant>, id: string)
    ensures ById(ms, id).None? <==> forall i :: 0 <= i < |ms| ==> ms[i].id != id
    ensures ById(ms, id).Some? ==> ById(ms, id).value in ms && ById(ms, id).value.id == id
  {
    if ms != [] {
      ByIdFinds(ms[1..], id);
      assert forall i :: 0 < i < |ms| ==> ms[i] == ms[1..][i - 1];
    }
  }

  /**
   A string with a right checksum resolves to the merchant with its NMID and an amount: its own if it is dynamic, or
   else the payer's, which must be positive.
   */
  lemma ResolveExact(ms: seq<Merchant>, qr: string, reqAmount: Int64)
    requires DecodeSpec(qr).Decoded? && CrcValid(qr)
    ensures var (p, r) := (DecodeSpec(qr).p, Resolve(ms, qr, reqAmount));
      && (r == Err(MerchantNotFound) <==> forall i :: 0 <= i < |ms| ==> ms[i].nmid != p.nmid)
      && (r == Err(BadAmount) <==>
            r != Err(MerchantNotFound) && p.initiation == "12" && MajorToMinor(p.amount).None?)
      && (r == Err(AmountRequired) <==> r != Err(MerchantNotFound) && p.initiation != "12" && reqAmount <= 0)
      && (r.Err? ==> r.error.MerchantNotFound? || r.error.BadAmount? || r.error.AmountRequired?)
      && (r.Ok? ==>
            && (exists i: nat :: FirstWith(ms, p.nmid, i) && r.value.merchant == ms[i])
            && r.value.extRef == p.nmid
            && (if p.initiation == "12" then MajorToMinor(p.amount) == Some(r.value.amount)
                else r.value.amount == reqAmount))
  {
    DecodeReportsChecksum(qr);
    ByNmidIsFirst(ms, DecodeSpec(qr).p.nmid);
    hide DecodeSpec, CrcValid, ByNmid, MajorToMinor, FirstWith;
  }

  /** A string that does not decode is refused, or takes the decoder down. */
  lemma UndecodableRefused(ms: seq<Merchant>, qr: string, reqAmount: Int64)
    ensures DecodeSpec(qr).Rejected? <==> Resolve(ms, qr, reqAmount) == Err(MalformedQr)
    ensures DecodeSpec(qr).Panicked? <==> Resolve(ms, qr, reqAmount) == Err(DecodePanic)
  {
    hide DecodeSpec, ByNmid, MajorToMinor;
  }

  /**
   What a charge's string says, as any reader of the format sees it: the merchant's data, rupiah, the acquirer's
   identifier, and the amount if the charge is dynamic.
   */
  lemma GeneratedReads(guid: string, m: Merchant, req: GenerateRequest, qr: string)
    requires EncodeSpec(ChargePayload(guid, m, req)) == Ok(qr)
    ensures DecodeSpec(qr) == Decoded(Payload(
      "01", if req.qrType == Dynamic then "12" else "11", if guid != "" then guid else "ID.CO.QRIS.WWW", m.nmid, "",
      m.mcc, "360", if req.qrType == Dynamic then MinorToMajor(req.amount) else "",
      if m.country != "" then m.country else "ID", m.name, m.city, if m.postalCode.Some? then m.postalCode.value else "",
      req.billNumber, req.reference, "", qr[|qr| - 4..], true))
  {
    RoundTrip(ChargePayload(guid, m, req), qr);
    hide EncodeSpec, DecodeSpec, MinorToMajor;
  }

  /** What a stored charge is worth: a dynamic one its own amount, a static one what the payer says, if positive. */
  lemma ChargeAmountExact(charge: Charge, reqAmount: Int64)
    ensures var r := AmountForCharge(charge, reqAmount);
      && (r.Ok? <==> if charge.qrType == Dynamic then charge.amount.Some? else reqAmount > 0)
      && (r.Ok? ==> r.value == if charge.qrType == Dynamic then charge.amount.value else reqAmount)
      && (r.Err? ==> r.error == if charge.qrType == Dynamic then AmountMissing else AmountRequired)
  {
  }
}
