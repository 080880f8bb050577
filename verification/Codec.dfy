/** Encoding and decoding QRIS payment strings, and the round trip between them. */
module Codec {
  import opened Wrappers
  import opened Strconv
  import opened Tlv
  import Crc

  const TAG_FORMAT := "00"
  const TAG_INITIATION := "01"
  const TAG_MERCHANT_ACCOUNT := "26"
  const TAG_MCC := "52"
  const TAG_CURRENCY := "53"
  const TAG_AMOUNT := "54"
  const TAG_COUNTRY := "58"
  const TAG_MERCHANT_NAME := "59"
  const TAG_MERCHANT_CITY := "60"
  const TAG_POSTAL_CODE := "61"
  const TAG_ADDITIONAL_DATA := "62"
  const TAG_CRC := "63"

  const SUB_GUID := "00"
  const SUB_NMID := "01"
  const SUB_CRITERIA := "03"
  const SUB_BILL_NUMBER := "01"
  const SUB_REFERENCE := "05"
  const SUB_TERMINAL := "07"

  const INITIATION_STATIC := "11"
  const INITIATION_DYNAMIC := "12"
  const PAYLOAD_FORMAT_V1 := "01"
  const DEFAULT_GUID := "ID.CO.QRIS.WWW"
  const CURRENCY_IDR := "360"
  const COUNTRY_ID := "ID"

  datatype Payload = Payload(
    format: string, initiation: string,
    guid: string, nmid: string, criteria: string,
    mcc: string, currency: string, amount: string, country: string,
    name: string, city: string, postalCode: string,
    billNumber: string, reference: string, terminal: string,
    crc: string, crcValid: bool)
  {
    predicate IsDynamic() { initiation == INITIATION_DYNAMIC }
  }

  datatype EncodeError = MissingField | ValueTooLong

  datatype DecodeOutcome = Decoded(p: Payload) | Rejected | Panicked

  function FirstNonEmpty(a: string, b: string): string { if a != [] then a else b }

  /** The payload with the four defaults filled in. */
  function WithDefaults(p: Payload): Payload {
    p.(format := FirstNonEmpty(p.format, PAYLOAD_FORMAT_V1),
       guid := FirstNonEmpty(p.guid, DEFAULT_GUID),
       currency := FirstNonEmpty(p.currency, CURRENCY_IDR),
       country := FirstNonEmpty(p.country, COUNTRY_ID))
  }

  predicate HasRequired(p: Payload) {
    p.initiation != [] && p.nmid != [] && p.mcc != [] && p.name != [] && p.city != []
  }

  function AccountItems(p: Payload): seq<TagValue> {
    [TagValue(SUB_GUID, p.guid), TagValue(SUB_NMID, p.nmid), TagValue(SUB_CRITERIA, p.criteria)]
  }

  function AdditionalItems(p: Payload): seq<TagValue> {
    [TagValue(SUB_BILL_NUMBER, p.billNumber), TagValue(SUB_REFERENCE, p.reference), TagValue(SUB_TERMINAL, p.terminal)]
  }

  /** The root objects before the amount. */
  function HeadItems(p: Payload, account: string): seq<TagValue> {
    [TagValue(TAG_FORMAT, p.format), TagValue(TAG_INITIATION, p.initiation),
     TagValue(TAG_MERCHANT_ACCOUNT, account), TagValue(TAG_MCC, p.mcc), TagValue(TAG_CURRENCY, p.currency)]
  }

  /** The root objects between the amount and the postal code. */
  function PlaceItems(p: Payload): seq<TagValue> {
    [TagValue(TAG_COUNTRY, p.country), TagValue(TAG_MERCHANT_NAME, p.name), TagValue(TAG_MERCHANT_CITY, p.city)]
  }

  /** Every root object in canonical order, the optional ones possibly empty. */
  function RootItems(p: Payload, account: string, additional: string): seq<TagValue> {
    HeadItems(p, account) + [TagValue(TAG_AMOUNT, p.amount)] + PlaceItems(p) +
    [TagValue(TAG_POSTAL_CODE, p.postalCode)] + [TagValue(TAG_ADDITIONAL_DATA, additional)]
  }

  /** The string before the checksum digits. */
  function Body(p: Payload): Result<string, EncodeError> {
    if !HasRequired(p) then
      Err(MissingField)
    else
      var q := WithDefaults(p);
      match (Template(AccountItems(q)), Template(AdditionalItems(q)))
      case (Some(account), Some(additional)) =>
        (match Template(RootItems(q, account, additional))
         case Some(root) => Ok(root + TAG_CRC + "04")
         case None => Err(ValueTooLong))
      case _ => Err(ValueTooLong)
  }

  function EncodeSpec(p: Payload): Result<string, EncodeError> {
    match Body(p)
    case Ok(body) => Ok(body + Crc.CRC16(body))
    case Err(e) => Err(e)
  }

  function Upper(c: char): char {
    if 'a' <= c <= 'z' then (c as int - 32) as char else c
  }

  /** `strings.EqualFold` against a string of hexadecimal digits. */
  predicate EqualFold(hex: string, s: string) {
    |hex| == |s| && forall i :: 0 <= i < |s| ==> Upper(hex[i]) == Upper(s[i])
  }

  predicate CrcValid(s: string) {
    |s| >= 4 && EqualFold(Crc.CRC16(s[..|s| - 4]), s[|s| - 4..])
  }

  /** The tag map of a template: empty when the template is absent. */
  function SubFields(root: map<string, string>, tag: string): Parsed {
    if tag in root then Finish(map[], SplitObjects(root[tag])) else Fields(map[])
  }

  function Assemble(s: string, root: map<string, string>, acct: map<string, string>, add: map<string, string>): Payload {
    Payload(
      Lookup(root, TAG_FORMAT), Lookup(root, TAG_INITIATION),
      Lookup(acct, SUB_GUID), Lookup(acct, SUB_NMID), Lookup(acct, SUB_CRITERIA),
      Lookup(root, TAG_MCC), Lookup(root, TAG_CURRENCY), Lookup(root, TAG_AMOUNT), Lookup(root, TAG_COUNTRY),
      Lookup(root, TAG_MERCHANT_NAME), Lookup(root, TAG_MERCHANT_CITY), Lookup(root, TAG_POSTAL_CODE),
      Lookup(add, SUB_BILL_NUMBER), Lookup(add, SUB_REFERENCE), Lookup(add, SUB_TERMINAL),
      Lookup(root, TAG_CRC), CrcValid(s))
  }

  function DecodeSpec(s: string): DecodeOutcome {
    match Finish(map[], SplitObjects(s))
    case ErrMalformed => Rejected
    case Panic => Panicked
    case Fields(root) =>
      match SubFields(root, TAG_MERCHANT_ACCOUNT)
      case ErrMalformed => Rejected
      case Panic => Panicked
      case Fields(acct) =>
        match SubFields(root, TAG_ADDITIONAL_DATA)
        case ErrMalformed => Rejected
        case Panic => Panicked
        case Fields(add) => Decoded(Assemble(s, root, acct, add))
  }

  // ---------- The loops ----------

  lemma {:induction false} NonEmptyConcat(a: seq<TagValue>, b: seq<TagValue>)
    ensures NonEmpty(a + b) == NonEmpty(a) + NonEmpty(b)
  {
    if b == [] {
      assert a + b == a;
    } else {
      assert (a + b)[..|a + b| - 1] == a + b[..|b| - 1];
      NonEmptyConcat(a, b[..|b| - 1]);
    }
  }

  lemma {:induction false} NonEmptyAll(a: seq<TagValue>)
    requires forall i :: 0 <= i < |a| ==> a[i].value != []
    ensures NonEmpty(a) == a
  {
    if a != [] {
      NonEmptyAll(a[..|a| - 1]);
    }
  }

  function Optional(item: TagValue): seq<TagValue> {
    if item.value == [] then [] else [item]
  }

  lemma NonEmptyOne(item: TagValue)
    ensures NonEmpty([item]) == Optional(item)
  {
    assert [item][..0] == [];
  }

  lemma NonEmptyShape(a: seq<TagValue>, x: TagValue, b: seq<TagValue>, y: TagValue, z: TagValue)
    requires forall i :: 0 <= i < |a| ==> a[i].value != []
    requires forall i :: 0 <= i < |b| ==> b[i].value != []
    ensures NonEmpty(a + [x] + b + [y] + [z]) == a + Optional(x) + b + Optional(y) + Optional(z)
  {
    NonEmptyAll(a);
    NonEmptyAll(b);
    NonEmptyOne(x);
    NonEmptyOne(y);
    NonEmptyOne(z);
    hide NonEmpty;
    NonEmptyConcat(a, [x]);
    NonEmptyConcat(a + [x], b);
    NonEmptyConcat(a + [x] + b, [y]);
    NonEmptyConcat(a + [x] + b + [y], [z]);
  }

  /** The objects `Encode` appends one by one are the non-empty root items. */
  lemma RootNonEmpty(q: Payload, account: string, additional: string)
    requires HasRequired(q) && q.format != [] && q.currency != [] && q.country != [] && account != []
    ensures NonEmpty(RootItems(q, account, additional)) ==
            HeadItems(q, account) + Optional(TagValue(TAG_AMOUNT, q.amount)) + PlaceItems(q) +
            Optional(TagValue(TAG_POSTAL_CODE, q.postalCode)) + Optional(TagValue(TAG_ADDITIONAL_DATA, additional))
  {
    NonEmptyShape(HeadItems(q, account), TagValue(TAG_AMOUNT, q.amount), PlaceItems(q),
                  TagValue(TAG_POSTAL_CODE, q.postalCode), TagValue(TAG_ADDITIONAL_DATA, additional));
  }

  lemma FitsLast(front: seq<TagValue>, last: TagValue)
    ensures Fits(front + [last]) <==> Fits(front) && |last.value| <= 99
  {
    var all := front + [last];
    assert all[|front|] == last;
    assert forall i :: 0 <= i < |front| ==> all[i] == front[i];
  }

  lemma {:induction false} NonEmptyFits(items: seq<TagValue>)
    ensures Fits(NonEmpty(items)) <==> Fits(items)
  {
    if items != [] {
      var front, last := items[..|items| - 1], items[|items| - 1];
      NonEmptyFits(front);
      assert items == front + [last];
      FitsLast(front, last);
      FitsLast(NonEmpty(front), last);
    }
  }

  /** Print every object in turn, as the last loop of `Encode` does. */
  method PrintObjects(objects: seq<TagValue>) returns (r: Option<string>)
    ensures r == if Fits(objects) then Some(Concat(ObjectsOf(objects))) else None
  {
    NothingPrinted();
    hide Concat, ObjectsOf, Wire, ObjectOf;
    var sb := [];
    for i := 0 to |objects|
      invariant Fits(objects[..i]) && sb == Concat(ObjectsOf(objects[..i]))
    {
      var s := Print(objects[i]);
      if s.None? {
        return None;
      }
      PrintLast(objects[..i], objects[i]);
      assert objects[..i + 1] == objects[..i] + [objects[i]];
      sb := sb + s.value;
    }
    assert objects[..|objects|] == objects;
    r := Some(sb);
  }

  lemma NothingPrinted()
    ensures Concat(ObjectsOf([])) == []
  {
  }

  lemma {:induction false} TemplateNotEmpty(items: seq<TagValue>, i: nat)
    requires Fits(items) && i < |items| && items[i].value != []
    ensures Template(items).value != []
  {
    var front, last := items[..|items| - 1], items[|items| - 1];
    if last.value != [] {
      PrintLast(NonEmpty(front), last);
    } else {
      TemplateNotEmpty(front, i);
    }
  }

  /** Assemble the root objects in order, the optional ones only when they are present, and print them. */
  method PrintRoot(q: Payload, account: string, additional: string) returns (r: Option<string>)
    requires HasRequired(q) && q.format != [] && q.currency != [] && q.country != [] && account != []
    ensures r == Template(RootItems(q, account, additional))
  {
    hide NonEmpty, Fits, RootItems;
    var objects := HeadItems(q, account);
    if q.amount != [] {
      objects := objects + [TagValue(TAG_AMOUNT, q.amount)];
    }
    objects := objects + PlaceItems(q);
    if q.postalCode != [] {
      objects := objects + [TagValue(TAG_POSTAL_CODE, q.postalCode)];
    }
    if additional != [] {
      objects := objects + [TagValue(TAG_ADDITIONAL_DATA, additional)];
    }
    RootNonEmpty(q, account, additional);
    assert objects == NonEmpty(RootItems(q, account, additional));
    NonEmptyFits(RootItems(q, account, additional));
    r := PrintObjects(objects);
  }

  method Encode(p: Payload) returns (r: Result<string, EncodeError>)
    ensures r == EncodeSpec(p)
  {
    if p.initiation == [] || p.nmid == [] || p.mcc == [] || p.name == [] || p.city == [] {
      return Err(MissingField);
    }
    var q := WithDefaults(p);
    var account := BuildTemplate(AccountItems(q));
    if account.None? {
      return Err(ValueTooLong);
    }
    var additional := BuildTemplate(AdditionalItems(q));
    if additional.None? {
      return Err(ValueTooLong);
    }
    TemplateNotEmpty(AccountItems(q), 1);
    hide Template, RootItems, AccountItems, AdditionalItems;
    var root := PrintRoot(q, account.value, additional.value);
    if root.None? {
      return Err(ValueTooLong);
    }
    var sb := root.value + TAG_CRC + "04";
    var crc := Crc.Crc16Ccitt(sb);
    r := Ok(sb + Crc.Hex(crc));
  }

  method Decode(s: string) returns (r: DecodeOutcome)
    ensures r == DecodeSpec(s)
  {
    var root := ParseTLV(s);
    if !root.Fields? {
      return if root.Panic? then Panicked else Rejected;
    }
    var acct := Fields(map[]);
    if TAG_MERCHANT_ACCOUNT in root.m {
      acct := ParseTLV(root.m[TAG_MERCHANT_ACCOUNT]);
      if !acct.Fields? {
        return if acct.Panic? then Panicked else Rejected;
      }
    }
    var add := Fields(map[]);
    if TAG_ADDITIONAL_DATA in root.m {
      add := ParseTLV(root.m[TAG_ADDITIONAL_DATA]);
      if !add.Fields? {
        return if add.Panic? then Panicked else Rejected;
      }
    }
    r := Decoded(Assemble(s, root.m, acct.m, add.m));
  }

  // ---------- The round trip ----------

  /** The root items with the checksum object at the end. */
  function AllItems(q: Payload, account: string, additional: string, crc: string): seq<TagValue> {
    RootItems(q, account, additional) + [TagValue(TAG_CRC, crc)]
  }

  lemma DistinctRootTags(q: Payload, account: string, additional: string, crc: string)
    ensures DistinctTags(AllItems(q, account, additional, crc))
  {
  }

  lemma ChecksumIsAnObject(items: seq<TagValue>, crc: string)
    requires Fits(items) && |crc| == 4
    ensures Template(items + [TagValue(TAG_CRC, crc)]) == Some(Template(items).value + TAG_CRC + "04" + crc)
  {
    var x := TagValue(TAG_CRC, crc);
    FitsLast(items, x);
    assert (items + [x])[..|items|] == items;
    PrintLast(NonEmpty(items), x);
    assert Pad2(4) == "04";
    assert Wire(ObjectOf(x)) == TAG_CRC + "04" + crc;
    var front := Concat(ObjectsOf(NonEmpty(items)));
    assert front + (TAG_CRC + "04" + crc) == front + TAG_CRC + "04" + crc;
  }

  /** The pieces of an encoded string. */
  lemma EncodedShape(p: Payload, s: string)
    requires EncodeSpec(p) == Ok(s)
    ensures var q := WithDefaults(p);
            && Template(AccountItems(q)).Some? && Template(AdditionalItems(q)).Some?
            && |s| >= 4
            && Body(p) == Ok(s[..|s| - 4]) && s[|s| - 4..] == Crc.CRC16(s[..|s| - 4])
            && Template(AllItems(q, Template(AccountItems(q)).value, Template(AdditionalItems(q)).value, s[|s| - 4..])) == Some(s)
  {
    hide RootItems, AccountItems, AdditionalItems, Template;
    var q := WithDefaults(p);
    var body := Body(p).value;
    var crc := Crc.CRC16(body);
    assert s[..|s| - 4] == body && s[|s| - 4..] == crc;
    var account, additional := Template(AccountItems(q)).value, Template(AdditionalItems(q)).value;
    TemplateFits(RootItems(q, account, additional));
    ChecksumIsAnObject(RootItems(q, account, additional), crc);
  }

  lemma TemplateFits(items: seq<TagValue>)
    requires Template(items).Some?
    ensures Fits(items)
  {
  }

  lemma ChecksumMatches(s: string)
    requires |s| >= 4 && s[|s| - 4..] == Crc.CRC16(s[..|s| - 4])
    ensures CrcValid(s)
  {
  }

  /** A template sub-value parses to its items, present or not. */
  lemma SubTemplate(root: map<string, string>, tag: string, items: seq<TagValue>, value: string)
    requires DistinctTags(items) && Template(items) == Some(value) && Lookup(root, tag) == value
    requires tag in root ==> root[tag] != []
    ensures var sub := SubFields(root, tag); sub.Fields? && Holds(sub.m, items)
  {
    TemplateRoundTrip(items);
  }

  lemma TemplateFieldsPresent(s: string, items: seq<TagValue>)
    requires DistinctTags(items) && Template(items) == Some(s)
    ensures var parsed := Finish(map[], SplitObjects(s));
            && parsed.Fields? && Holds(parsed.m, items)
            && (forall t :: t in parsed.m ==> parsed.m[t] != [])
            && (forall i :: 0 <= i < |items| ==> Lookup(parsed.m, items[i].tag) == items[i].value)
  {
    TemplateRoundTrip(items);
    var m := Finish(map[], SplitObjects(s)).m;
    forall i | 0 <= i < |items| ensures Lookup(m, items[i].tag) == items[i].value {
      LookupItem(m, items, i);
    }
  }

  lemma RootLookups(m: map<string, string>, q: Payload, account: string, additional: string, crc: string)
    requires var items := AllItems(q, account, additional, crc);
             forall i :: 0 <= i < |items| ==> Lookup(m, items[i].tag) == items[i].value
    ensures Lookup(m, TAG_FORMAT) == q.format && Lookup(m, TAG_INITIATION) == q.initiation
    ensures Lookup(m, TAG_MERCHANT_ACCOUNT) == account && Lookup(m, TAG_MCC) == q.mcc
    ensures Lookup(m, TAG_CURRENCY) == q.currency && Lookup(m, TAG_AMOUNT) == q.amount
    ensures Lookup(m, TAG_COUNTRY) == q.country && Lookup(m, TAG_MERCHANT_NAME) == q.name
    ensures Lookup(m, TAG_MERCHANT_CITY) == q.city && Lookup(m, TAG_POSTAL_CODE) == q.postalCode
    ensures Lookup(m, TAG_ADDITIONAL_DATA) == additional && Lookup(m, TAG_CRC) == crc
  {
    hide Lookup;
    var items := AllItems(q, account, additional, crc);
    assert items[0].tag == TAG_FORMAT && items[1].tag == TAG_INITIATION && items[2].tag == TAG_MERCHANT_ACCOUNT;
    assert items[3].tag == TAG_MCC && items[4].tag == TAG_CURRENCY && items[5].tag == TAG_AMOUNT;
    assert items[6].tag == TAG_COUNTRY && items[7].tag == TAG_MERCHANT_NAME && items[8].tag == TAG_MERCHANT_CITY;
    assert items[9].tag == TAG_POSTAL_CODE && items[10].tag == TAG_ADDITIONAL_DATA && items[11].tag == TAG_CRC;
  }

  lemma AccountLookups(root: map<string, string>, q: Payload, account: string)
    requires Template(AccountItems(q)) == Some(account) && Lookup(root, TAG_MERCHANT_ACCOUNT) == account
    requires TAG_MERCHANT_ACCOUNT in root ==> root[TAG_MERCHANT_ACCOUNT] != []
    ensures var sub := SubFields(root, TAG_MERCHANT_ACCOUNT);
            && sub.Fields? && Lookup(sub.m, SUB_GUID) == q.guid
            && Lookup(sub.m, SUB_NMID) == q.nmid && Lookup(sub.m, SUB_CRITERIA) == q.criteria
  {
    var items := AccountItems(q);
    SubTemplate(root, TAG_MERCHANT_ACCOUNT, items, account);
    var m := SubFields(root, TAG_MERCHANT_ACCOUNT).m;
    LookupItem(m, items, 0);
    LookupItem(m, items, 1);
    LookupItem(m, items, 2);
  }

  lemma AdditionalLookups(root: map<string, string>, q: Payload, additional: string)
    requires Template(AdditionalItems(q)) == Some(additional) && Lookup(root, TAG_ADDITIONAL_DATA) == additional
    requires TAG_ADDITIONAL_DATA in root ==> root[TAG_ADDITIONAL_DATA] != []
    ensures var sub := SubFields(root, TAG_ADDITIONAL_DATA);
            && sub.Fields? && Lookup(sub.m, SUB_BILL_NUMBER) == q.billNumber
            && Lookup(sub.m, SUB_REFERENCE) == q.reference && Lookup(sub.m, SUB_TERMINAL) == q.terminal
  {
    var items := AdditionalItems(q);
    SubTemplate(root, TAG_ADDITIONAL_DATA, items, additional);
    var m := SubFields(root, TAG_ADDITIONAL_DATA).m;
    LookupItem(m, items, 0);
    LookupItem(m, items, 1);
    LookupItem(m, items, 2);
  }

  /** Whatever `Encode` accepts, `Decode` gives back, defaults filled in and the checksum confirmed. */
  lemma RoundTrip(p: Payload, s: string)
    requires EncodeSpec(p) == Ok(s)
    ensures DecodeSpec(s) == Decoded(WithDefaults(p).(crc := s[|s| - 4..], crcValid := true))
  {
    EncodedShape(p, s);
    ChecksumMatches(s);
    hide Body, AccountItems, AdditionalItems, AllItems, Template, CrcValid, Lookup;
    var q := WithDefaults(p);
    var account, additional := Template(AccountItems(q)).value, Template(AdditionalItems(q)).value;
    var crc := s[|s| - 4..];
    var items := AllItems(q, account, additional, crc);
    DistinctRootTags(q, account, additional, crc);
    TemplateFieldsPresent(s, items);
    var root := Finish(map[], SplitObjects(s)).m;
    RootLookups(root, q, account, additional, crc);
    AccountLookups(root, q, account);
    AdditionalLookups(root, q, additional);
  }

  /** Encoding loses nothing: payloads with one encoding agree on every field `Encode` reads. */
  lemma EncodeInjective(p: Payload, p': Payload, s: string)
    requires EncodeSpec(p) == Ok(s) && EncodeSpec(p') == Ok(s)
    ensures WithDefaults(p).(crc := [], crcValid := false) == WithDefaults(p').(crc := [], crcValid := false)
  {
    RoundTrip(p, s);
    RoundTrip(p', s);
    var q, q' := WithDefaults(p), WithDefaults(p');
    assert q.(crc := s[|s| - 4..], crcValid := true).(crc := [], crcValid := false) ==
           q'.(crc := s[|s| - 4..], crcValid := true).(crc := [], crcValid := false);
  }

  // ---------- The wire format ----------

  function Or(value: string, default: string): string { if value != "" then value else default }

  /** The template of the merchant account, object 26. */
  function AccountWire(p: Payload): string {
    Shown("00", Or(p.guid, "ID.CO.QRIS.WWW")) + Shown("01", p.nmid) + Shown("03", p.criteria)
  }

  /** The template of the additional data, object 62. */
  function AdditionalWire(p: Payload): string {
    Shown("01", p.billNumber) + Shown("05", p.reference) + Shown("07", p.terminal)
  }

  /** Everything before the checksum object, in the order of the tags. */
  function RootWire(p: Payload): string {
    Shown("00", Or(p.format, "01")) + Shown("01", p.initiation) + Shown("26", AccountWire(p)) + Shown("52", p.mcc)
    + Shown("53", Or(p.currency, "360")) + Shown("54", p.amount) + Shown("58", Or(p.country, "ID"))
    + Shown("59", p.name) + Shown("60", p.city) + Shown("61", p.postalCode) + Shown("62", AdditionalWire(p))
  }

  /** What an object can hold: at most 99 bytes. */
  predicate Short(value: string) { |value| <= 99 }

  predicate AllShort(p: Payload) {
    && Short(p.format) && Short(p.initiation) && Short(p.guid) && Short(p.nmid) && Short(p.criteria)
    && Short(p.mcc) && Short(p.currency) && Short(p.amount) && Short(p.country) && Short(p.name) && Short(p.city)
    && Short(p.postalCode) && Short(p.billNumber) && Short(p.reference) && Short(p.terminal)
    && Short(AccountWire(p)) && Short(AdditionalWire(p))
  }

  predicate RequiredMissing(p: Payload) {
    p.initiation == "" || p.nmid == "" || p.mcc == "" || p.name == "" || p.city == ""
  }

  lemma AccountShown(p: Payload)
    ensures var items := AccountItems(WithDefaults(p));
      && (Fits(items) <==> Short(p.guid) && Short(p.nmid) && Short(p.criteria))
      && (Fits(items) ==> Template(items) == Some(AccountWire(p)))
  {
    var items := AccountItems(WithDefaults(p));
    assert Fits(items) <==> Short(items[0].value) && Short(items[1].value) && Short(items[2].value);
    if Fits(items) {
      TemplateShown(items);
      ShownThree(items[0], items[1], items[2]);
      hide Template, AllShown, Shown;
    }
  }

  lemma AdditionalShown(p: Payload)
    ensures var items := AdditionalItems(WithDefaults(p));
      && (Fits(items) <==> Short(p.billNumber) && Short(p.reference) && Short(p.terminal))
      && (Fits(items) ==> Template(items) == Some(AdditionalWire(p)))
  {
    var items := AdditionalItems(WithDefaults(p));
    assert Fits(items) <==> Short(items[0].value) && Short(items[1].value) && Short(items[2].value);
    if Fits(items) {
      TemplateShown(items);
      ShownThree(items[0], items[1], items[2]);
      hide Template, AllShown, Shown;
    }
  }

  lemma RootFits(q: Payload, account: string, additional: string)
    ensures Fits(RootItems(q, account, additional)) <==>
      && Short(q.format) && Short(q.initiation) && Short(account) && Short(q.mcc) && Short(q.currency) && Short(q.amount)
      && Short(q.country) && Short(q.name) && Short(q.city) && Short(q.postalCode) && Short(additional)
  {
    var items := RootItems(q, account, additional);
    assert items[0].value == q.format && items[1].value == q.initiation && items[2].value == account;
    assert items[3].value == q.mcc && items[4].value == q.currency && items[5].value == q.amount;
    assert items[6].value == q.country && items[7].value == q.name && items[8].value == q.city;
    assert items[9].value == q.postalCode && items[10].value == additional && |items| == 11;
  }

  lemma HeadShown(q: Payload, account: string)
    ensures AllShown(HeadItems(q, account)) ==
      Shown("00", q.format) + Shown("01", q.initiation) + Shown("26", account) + Shown("52", q.mcc) + Shown("53", q.currency)
  {
    hide AllShown, Shown;
    var items := HeadItems(q, account);
    ShownThree(items[0], items[1], items[2]);
    ShownOne(items[3]);
    ShownOne(items[4]);
    AllShownConcat(items[..3], [items[3]]);
    AllShownConcat(items[..4], [items[4]]);
    assert items[..3] == [items[0], items[1], items[2]] && items[..3] + [items[3]] == items[..4];
    assert items[..4] + [items[4]] == items;
  }

  lemma RootShown(p: Payload)
    ensures AllShown(RootItems(WithDefaults(p), AccountWire(p), AdditionalWire(p))) == RootWire(p)
  {
    var q, account, additional := WithDefaults(p), AccountWire(p), AdditionalWire(p);
    var head, place := HeadItems(q, account), PlaceItems(q);
    var amount, postal, add := TagValue("54", q.amount), TagValue("61", q.postalCode), TagValue("62", additional);
    HeadShown(q, account);
    ShownThree(place[0], place[1], place[2]);
    ShownOne(amount);
    ShownOne(postal);
    ShownOne(add);
    hide AllShown, Shown, AccountWire, AdditionalWire;
    AllShownConcat(head, [amount]);
    AllShownConcat(head + [amount], place);
    AllShownConcat(head + [amount] + place, [postal]);
    AllShownConcat(head + [amount] + place + [postal], [add]);
    assert place == [place[0], place[1], place[2]];
    ShownTogether(AllShown(head) + Shown("54", q.amount),
      Shown("58", q.country), Shown("59", q.name), Shown("60", q.city));
    hide HeadItems, PlaceItems;
  }

  lemma ShownTogether(front: string, x: string, y: string, z: string)
    ensures front + (x + y + z) == front + x + y + z
  {
  }

  /**
   Encoding refuses a payload exactly if a required field is missing, or else some value or template is too long.
   What it accepts is printed field by field, each under its tag, followed by the checksum of all that precedes it.
   */
  lemma EncodedWire(p: Payload)
    ensures EncodeSpec(p) ==
      if RequiredMissing(p) then Err(MissingField)
      else if !AllShort(p) then Err(ValueTooLong)
      else Ok(RootWire(p) + "63" + "04" + Crc.CRC16(RootWire(p) + "63" + "04"))
  {
    hide AllShown, Shown;
    if !RequiredMissing(p) {
      var q := WithDefaults(p);
      AccountShown(p);
      AdditionalShown(p);
      RootFits(q, AccountWire(p), AdditionalWire(p));
      RootShown(p);
      hide Fits, RootItems, AccountItems, AdditionalItems, AllShown, AccountWire, AdditionalWire, RootWire;
      if Fits(RootItems(q, AccountWire(p), AdditionalWire(p))) {
        TemplateShown(RootItems(q, AccountWire(p), AdditionalWire(p)));
      }
    }
  }

  /** Root and templates of a string as complete objects, one after another; an absent template is empty. */
  ghost predicate Splits(s: string, root: seq<Object>, acct: seq<Object>, add: seq<Object>) {
    && AllComplete(root) && Concat(root) == s
    && AllComplete(acct) && Concat(acct) == LastValue(root, "26")
    && AllComplete(add) && Concat(add) == LastValue(root, "62")
  }

  /** The payload such objects stand for. */
  function Read(s: string, root: seq<Object>, acct: seq<Object>, add: seq<Object>): Payload {
    Payload(
      LastValue(root, "00"), LastValue(root, "01"),
      LastValue(acct, "00"), LastValue(acct, "01"), LastValue(acct, "03"),
      LastValue(root, "52"), LastValue(root, "53"), LastValue(root, "54"), LastValue(root, "58"),
      LastValue(root, "59"), LastValue(root, "60"), LastValue(root, "61"),
      LastValue(add, "01"), LastValue(add, "05"), LastValue(add, "07"),
      LastValue(root, "63"), CrcValid(s))
  }

  lemma SubParses(m: map<string, string>, tag: string, os: seq<Object>)
    requires AllComplete(os) && Concat(os) == Lookup(m, tag)
    ensures SubFields(m, tag) == Fields(Assign(map[], os))
  {
    NothingComplete(os);
    if tag in m {
      ParsesTo(m[tag], os);
    }
  }

  lemma SubParsed(m: map<string, string>, tag: string) returns (os: seq<Object>)
    requires SubFields(m, tag).Fields?
    ensures AllComplete(os) && Concat(os) == Lookup(m, tag)
  {
    if tag in m {
      os := ParsedFrom(m[tag]);
    } else {
      os := [];
      assert Concat([]) == "";
    }
  }

  /** Objects of a string and of its templates decode to the payload they stand for, each field from its own tag. */
  lemma DecodesTo(s: string, root: seq<Object>, acct: seq<Object>, add: seq<Object>)
    requires Splits(s, root, acct, add)
    ensures DecodeSpec(s) == Decoded(Read(s, root, acct, add))
  {
    ParsesTo(s, root);
    var m := Assign(map[], root);
    var a, d := Assign(map[], acct), Assign(map[], add);
    RootRead(root);
    AssignedIsLast(root, "26");
    AssignedIsLast(root, "62");
    SubParses(m, "26", acct);
    SubParses(m, "62", add);
    SubRead(acct);
    SubRead(add);
    hide Assign, LastValue, CrcValid, SubFields, Concat, Lookup;
  }

  lemma RootRead(os: seq<Object>)
    ensures var m := Assign(map[], os);
      && Lookup(m, "00") == LastValue(os, "00") && Lookup(m, "01") == LastValue(os, "01")
      && Lookup(m, "52") == LastValue(os, "52") && Lookup(m, "53") == LastValue(os, "53")
      && Lookup(m, "54") == LastValue(os, "54") && Lookup(m, "58") == LastValue(os, "58")
      && Lookup(m, "59") == LastValue(os, "59") && Lookup(m, "60") == LastValue(os, "60")
      && Lookup(m, "61") == LastValue(os, "61") && Lookup(m, "63") == LastValue(os, "63")
  {
    hide Assign, LastValue, Lookup;
    AssignedIsLast(os, "00");
    AssignedIsLast(os, "01");
    AssignedIsLast(os, "52");
    AssignedIsLast(os, "53");
    AssignedIsLast(os, "54");
    AssignedIsLast(os, "58");
    AssignedIsLast(os, "59");
    AssignedIsLast(os, "60");
    AssignedIsLast(os, "61");
    AssignedIsLast(os, "63");
  }

  lemma SubRead(os: seq<Object>)
    ensures var m := Assign(map[], os);
      && Lookup(m, "00") == LastValue(os, "00") && Lookup(m, "01") == LastValue(os, "01")
      && Lookup(m, "03") == LastValue(os, "03") && Lookup(m, "05") == LastValue(os, "05")
      && Lookup(m, "07") == LastValue(os, "07")
  {
    hide Assign, LastValue, Lookup;
    AssignedIsLast(os, "00");
    AssignedIsLast(os, "01");
    AssignedIsLast(os, "03");
    AssignedIsLast(os, "05");
    AssignedIsLast(os, "07");
  }

  /** A string decodes exactly if it and its templates are complete objects, one after another. */
  lemma DecodedIff(s: string)
    ensures DecodeSpec(s).Decoded? <==> exists root, acct, add :: Splits(s, root, acct, add)
  {
    if DecodeSpec(s).Decoded? {
      var root := ParsedFrom(s);
      ParsesTo(s, root);
      var m := Assign(map[], root);
      var acct := SubParsed(m, TAG_MERCHANT_ACCOUNT);
      var add := SubParsed(m, TAG_ADDITIONAL_DATA);
      AssignedIsLast(root, "26");
      AssignedIsLast(root, "62");
      hide Assign, LastValue, Concat, Lookup;
      assert Splits(s, root, acct, add);
    }
    if root, acct, add :| Splits(s, root, acct, add) {
      DecodesTo(s, root, acct, add);
    }
  }

  // ---------- Damage is never reported as valid ----------

  /** `EqualFold` against upper-case hexadecimal digits leaves one string up to case. */
  lemma FoldDetermines(x: Crc.Reg, y: Crc.Reg, tail: string)
    requires EqualFold(Crc.Hex(x), tail) && EqualFold(Crc.Hex(y), tail)
    ensures x == y
  {
    var h, k := Crc.Hex(x), Crc.Hex(y);
    forall i | 0 <= i < 4 ensures h[i] == k[i] {
      assert Upper(h[i]) == Upper(tail[i]) && Upper(k[i]) == Upper(tail[i]);
      UpperHex(x, i);
      UpperHex(y, i);
    }
    Crc.HexInjective(x, y);
  }

  lemma UpperHex(x: Crc.Reg, i: nat)
    requires i < 4
    ensures Upper(Crc.Hex(x)[i]) == Crc.Hex(x)[i]
  {
  }

  /** The character is the digit, a letter possibly in lower case. */
  predicate Writes(c: char, digit: char) { c == digit || ('A' <= digit <= 'F' && c as int == digit as int + 32) }

  lemma DigitFolds(x: Crc.Reg, i: nat, c: char)
    requires i < 4
    ensures Upper(Crc.Hex(x)[i]) == Upper(c) <==> Writes(c, Crc.Hex(x)[i])
  {
    UpperHex(x, i);
    HexRange(x, i);
    hide Crc.Hex;
  }

  lemma HexRange(x: Crc.Reg, i: nat)
    requires i < 4
    ensures '0' <= Crc.Hex(x)[i] <= '9' || 'A' <= Crc.Hex(x)[i] <= 'F'
  {
  }

  predicate WritesAll(text: string, digits: string) {
    |text| == |digits| && forall i :: 0 <= i < |text| ==> Writes(text[i], digits[i])
  }

  /** A checksum is right exactly if its four digits are those of what precedes it, letters in either case. */
  lemma CrcValidExact(s: string)
    ensures CrcValid(s) <==> |s| >= 4 && WritesAll(s[|s| - 4..], Crc.CRC16(s[..|s| - 4]))
  {
    if |s| >= 4 {
      var digits, tail := Crc.CRC16(s[..|s| - 4]), s[|s| - 4..];
      forall i: nat | i < 4 ensures Upper(digits[i]) == Upper(tail[i]) <==> Writes(tail[i], digits[i]) {
        DigitFolds(Crc.Checksum(s[..|s| - 4]), i, tail[i]);
      }
    }
    hide Upper, Crc.CRC16, Writes;
  }

  /** What `Decode` says about the checksum of a string it accepts. */
  lemma DecodeReportsChecksum(s: string)
    requires DecodeSpec(s).Decoded?
    ensures DecodeSpec(s).p.crcValid == CrcValid(s)
  {
  }

  /** The bits covered by the checksum. */
  function Covered(s: string): Crc.Bits
    requires |s| >= 4
  {
    Crc.Serial(s[..|s| - 4])
  }

  /** Under an unchanged checksum, a burst of at most sixteen bits or an odd number of flipped bits is never accepted. */
  lemma DamageDetected(s: string, t: string, w: nat)
    requires |s| == |t| >= 4 && s[|s| - 4..] == t[|t| - 4..]
    requires Crc.Burst16(Covered(s), Covered(t), w) || Crc.Odd(Crc.Xor(Covered(s), Covered(t)))
    requires CrcValid(s)
    ensures !CrcValid(t)
    ensures DecodeSpec(t).Decoded? ==> !DecodeSpec(t).p.crcValid
  {
    var n := |s| - 4;
    Crc.ChecksumIsSerial(Crc.INITIAL, s[..n]);
    Crc.ChecksumIsSerial(Crc.INITIAL, t[..n]);
    if Crc.Burst16(Covered(s), Covered(t), w) {
      Crc.DetectsBurst(Covered(s), Covered(t), w);
    } else {
      Crc.DetectsOddDamage(Covered(s), Covered(t));
    }
    if CrcValid(t) {
      FoldDetermines(Crc.Checksum(s[..n]), Crc.Checksum(t[..n]), s[n..]);
    }
    if DecodeSpec(t).Decoded? {
      DecodeReportsChecksum(t);
    }
  }
}
