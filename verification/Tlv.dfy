/**
 Tag-length-value strings: printing a list of items, and splitting a string back into
 objects. A length header is whatever `strconv.Atoi` accepts, which includes a sign.
 */
module Tlv {
  import opened Wrappers
  import opened Strconv

  datatype TagValue = TagValue(tag: string, value: string)

  // ---------- Splitting ----------

  /** One data object as it stands on the wire. */
  datatype Object = Object(tag: string, header: string, value: string)

  predicate Complete(o: Object) {
    |o.tag| == 2 && |o.header| == 2 && ParseInt64(o.header) == Some(|o.value|)
  }

  predicate AllComplete(os: seq<Object>) { forall i :: 0 <= i < |os| ==> Complete(os[i]) }

  function Wire(o: Object): string { o.tag + o.header + o.value }

  function Concat(os: seq<Object>): string {
    if os == [] then [] else Wire(os[0]) + Concat(os[1..])
  }

  /** `Crash` is the slice `s[start:end]` taken with `end < start`. */
  datatype Split = Objects(os: seq<Object>) | Malformed | Crash

  function SplitObjects(s: string): Split
    decreases |s|
  {
    if s == [] then
      Objects([])
    else if |s| < 4 then
      Malformed
    else
      match ParseInt64(s[2..4])
      case None => Malformed
      case Some(n) =>
        if n < 0 then
          Crash
        else if 4 + n > |s| then
          Malformed
        else
          match SplitObjects(s[4 + n..])
          case Objects(os) => Objects([Object(s[..2], s[2..4], s[4..4 + n])] + os)
          case other => other
  }

  /** The tag map a list of objects leaves: a later object replaces an earlier one. */
  function Assign(m: map<string, string>, os: seq<Object>): map<string, string>
    decreases |os|
  {
    if os == [] then m else Assign(m[os[0].tag := os[0].value], os[1..])
  }

  datatype Parsed = Fields(m: map<string, string>) | ErrMalformed | Panic

  function Finish(m: map<string, string>, split: Split): Parsed {
    match split
    case Objects(os) => Fields(Assign(m, os))
    case Malformed => ErrMalformed
    case Crash => Panic
  }

  lemma SplitCons(rest: string, n: nat, m: map<string, string>)
    requires |rest| >= 4 + n && ParseInt64(rest[2..4]) == Some(n)
    ensures Finish(m, SplitObjects(rest)) == Finish(m[rest[..2] := rest[4..4 + n]], SplitObjects(rest[4 + n..]))
  {
    hide ParseInt64;
    var tail := SplitObjects(rest[4 + n..]);
    if tail.Objects? {
      AssignFirst(m, Object(rest[..2], rest[2..4], rest[4..4 + n]), tail);
    }
  }

  /** What one object at the front contributes, in the terms of the loop below. */
  lemma SplitStep(s: string, i: nat, m: map<string, string>)
    requires i + 4 <= |s|
    ensures var whole := Finish(m, SplitObjects(s[i..]));
            match ParseInt64(s[i + 2..i + 4])
            case None => whole == ErrMalformed
            case Some(n) =>
              if n < 0 then whole == Panic
              else if i + 4 + n > |s| then whole == ErrMalformed
              else whole == Finish(m[s[i..i + 2] := s[i + 4..i + 4 + n]], SplitObjects(s[i + 4 + n..]))
  {
    hide ParseInt64;
    var rest := s[i..];
    assert rest[..2] == s[i..i + 2] && rest[2..4] == s[i + 2..i + 4];
    var length := ParseInt64(rest[2..4]);
    if length.Some? && 0 <= length.value && i + 4 + length.value <= |s| {
      var n := length.value;
      assert rest[4..4 + n] == s[i + 4..i + 4 + n];
      assert rest[4 + n..] == s[i + 4 + n..];
      SplitCons(rest, n, m);
    }
  }

  lemma SplitNothing(rest: string, m: map<string, string>)
    requires rest == []
    ensures Finish(m, SplitObjects(rest)) == Fields(m)
  {
  }

  lemma SplitShort(rest: string)
    requires 0 < |rest| < 4
    ensures SplitObjects(rest) == Malformed
  {
  }

  lemma AssignFirst(m: map<string, string>, o: Object, split: Split)
    requires split.Objects?
    ensures Assign(m, [o] + split.os) == Assign(m[o.tag := o.value], split.os)
  {
    assert ([o] + split.os)[1..] == split.os;
  }

  method ParseTLV(s: string) returns (r: Parsed)
    ensures r == Finish(map[], SplitObjects(s))
  {
    hide ParseInt64, SplitObjects;
    var m: map<string, string> := map[];
    var i := 0;
    assert s[0..] == s;
    while i < |s|
      invariant 0 <= i <= |s|
      invariant Finish(map[], SplitObjects(s)) == Finish(m, SplitObjects(s[i..]))
      decreases |s| - i
    {
      if i + 4 > |s| {
        SplitShort(s[i..]);
        return ErrMalformed;
      }
      SplitStep(s, i, m);
      var tag := s[i..i + 2];
      var length := ParseInt64(s[i + 2..i + 4]);
      if length.None? {
        return ErrMalformed;
      }
      var start := i + 4;
      var end := start + length.value;
      if end > |s| {
        return ErrMalformed;
      }
      if end < start {
        return Panic;
      }
      m := m[tag := s[start..end]];
      i := end;
    }
    SplitNothing(s[i..], m);
    r := Fields(m);
  }

  // ---------- Splitting is exact ----------

  lemma ConcatFirst(o: Object, os: seq<Object>)
    ensures Concat([o] + os) == Wire(o) + Concat(os)
    ensures AllComplete([o] + os) <==> Complete(o) && AllComplete(os)
  {
    assert ([o] + os)[1..] == os && ([o] + os)[0] == o;
    assert forall i :: 0 <= i < |os| ==> ([o] + os)[i + 1] == os[i];
  }

  lemma SplitSoundStep(s: string, n: nat, os: seq<Object>)
    requires |s| >= 4 + n && ParseInt64(s[2..4]) == Some(n) && AllComplete(os) && Concat(os) == s[4 + n..]
    ensures var o := Object(s[..2], s[2..4], s[4..4 + n]);
      AllComplete([o] + os) && Concat([o] + os) == s
  {
    var o := Object(s[..2], s[2..4], s[4..4 + n]);
    ConcatFirst(o, os);
    hide ParseInt64, Concat, AllComplete;
    assert s == Wire(o) + s[4 + n..];
  }

  lemma {:induction false} SplitSound(s: string)
    requires SplitObjects(s).Objects?
    ensures AllComplete(SplitObjects(s).os) && Concat(SplitObjects(s).os) == s
    decreases |s|
  {
    hide ParseInt64, AllComplete;
    if s == [] {
      NoObjects();
    } else {
      var n := ParseInt64(s[2..4]).value;
      hide Concat;
      SplitSound(s[4 + n..]);
      SplitSoundStep(s, n, SplitObjects(s[4 + n..]).os);
    }
  }

  lemma NoObjects()
    ensures AllComplete([]) && Concat([]) == []
  {
  }

  lemma FirstObject(o: Object, rest: string)
    requires Complete(o)
    ensures var s := Wire(o) + rest;
            && |s| >= 4 && s[..2] == o.tag && s[2..4] == o.header
            && s[4..4 + |o.value|] == o.value && s[4 + |o.value|..] == rest
  {
  }

  function Prepend(os: seq<Object>, split: Split): Split {
    match split
    case Objects(more) => Objects(os + more)
    case other => other
  }

  lemma SplitFirst(o: Object, rest: string)
    requires Complete(o)
    ensures SplitObjects(Wire(o) + rest) == Prepend([o], SplitObjects(rest))
  {
    hide ParseInt64;
    FirstObject(o, rest);
  }

  /** What stands after complete objects decides how the split ends. */
  lemma {:induction false} SplitAfter(os: seq<Object>, rest: string)
    requires AllComplete(os)
    ensures SplitObjects(Concat(os) + rest) == Prepend(os, SplitObjects(rest))
  {
    hide ParseInt64, SplitObjects;
    if os == [] {
      assert Concat(os) + rest == rest;
      PrependTwice([], [], SplitObjects(rest));
    } else {
      var tail := Concat(os[1..]) + rest;
      assert Concat(os) + rest == Wire(os[0]) + tail;
      SplitAfter(os[1..], rest);
      SplitFirst(os[0], tail);
      PrependTwice([os[0]], os[1..], SplitObjects(rest));
      assert [os[0]] + os[1..] == os;
    }
  }

  lemma PrependTwice(a: seq<Object>, b: seq<Object>, split: Split)
    ensures Prepend(a, Prepend(b, split)) == Prepend(a + b, split)
    ensures Prepend([], split) == split
  {
    if split.Objects? {
      assert a + (b + split.os) == a + b + split.os;
      assert [] + split.os == split.os;
    }
  }

  /** Splitting succeeds exactly on concatenations of complete objects, with that decomposition. */
  lemma SplitExact(s: string, os: seq<Object>)
    ensures SplitObjects(s) == Objects(os) <==> AllComplete(os) && Concat(os) == s
  {
    if SplitObjects(s) == Objects(os) {
      SplitSound(s);
    }
    if AllComplete(os) && Concat(os) == s {
      SplitAfter(os, []);
      assert s + [] == s && os + [] == os;
    }
  }

  lemma DecompositionUnique(a: seq<Object>, b: seq<Object>)
    requires AllComplete(a) && AllComplete(b) && Concat(a) == Concat(b)
    ensures a == b
  {
    SplitExact(Concat(a), a);
    SplitExact(Concat(a), b);
  }

  /** A header such as `-1`: four bytes are there and the length reads as a negative number. */
  predicate NegativeHeader(s: string) {
    |s| >= 4 && s[2] == '-' && '1' <= s[3] <= '9'
  }

  lemma NegativeHeaderIff(s: string)
    requires |s| >= 4
    ensures NegativeHeader(s) <==> ParseInt64(s[2..4]).Some? && ParseInt64(s[2..4]).value < 0
  {
    var h := s[2..4];
    assert h[0] == s[2] && h[1] == s[3] && h[1..] == [h[1]];
    assert [h[1]][..0] == [];
    if IsDigit(h[1]) {
      assert Natural([h[1]]) == DigitValue(h[1]);
    }
  }

  /** `s` is complete objects followed by a negative header. */
  ghost predicate HasNegativeHeader(s: string) {
    exists os, rest :: AllComplete(os) && s == Concat(os) + rest && NegativeHeader(rest)
  }

  lemma NegativeHeaderAfter(o: Object, s: string)
    requires Complete(o) && HasNegativeHeader(s)
    ensures HasNegativeHeader(Wire(o) + s)
  {
    var os, rest :| AllComplete(os) && s == Concat(os) + rest && NegativeHeader(rest);
    assert ([o] + os)[1..] == os;
    assert AllComplete([o] + os) && Wire(o) + s == Concat([o] + os) + rest;
  }

  lemma {:induction false} CrashHasHeader(s: string)
    requires SplitObjects(s) == Crash
    ensures HasNegativeHeader(s)
    decreases |s|
  {
    hide ParseInt64, NegativeHeader;
    NegativeHeaderIff(s);
    var n := ParseInt64(s[2..4]).value;
    if n < 0 {
      assert AllComplete([]) && s == Concat([]) + s;
    } else {
      CrashHasHeader(s[4 + n..]);
      var o := Object(s[..2], s[2..4], s[4..4 + n]);
      NegativeHeaderAfter(o, s[4 + n..]);
      assert Wire(o) + s[4 + n..] == s;
    }
  }

  /** The slice goes out of range exactly when complete objects are followed by a negative header. */
  lemma CrashExact(s: string)
    ensures SplitObjects(s) == Crash <==> HasNegativeHeader(s)
  {
    hide ParseInt64;
    if SplitObjects(s) == Crash {
      CrashHasHeader(s);
    }
    if HasNegativeHeader(s) {
      var os, rest :| AllComplete(os) && s == Concat(os) + rest && NegativeHeader(rest);
      SplitAfter(os, rest);
      NegativeHeaderIff(rest);
    }
  }

  // ---------- Printing ----------

  predicate Fits(items: seq<TagValue>) { forall i :: 0 <= i < |items| ==> |items[i].value| <= 99 }

  /** `tlv`: two-digit tag, two-digit length, value; at most 99 bytes fit. */
  function Print(item: TagValue): Option<string> {
    if |item.value| > 99 then None else Some(Wire(ObjectOf(item)))
  }

  function ObjectOf(item: TagValue): Object
    requires |item.value| <= 99
  {
    Object(item.tag, Pad2(|item.value|), item.value)
  }

  function ObjectsOf(items: seq<TagValue>): (os: seq<Object>)
    requires Fits(items)
    ensures |os| == |items|
  {
    seq(|items|, i requires 0 <= i < |items| => ObjectOf(items[i]))
  }

  function NonEmpty(items: seq<TagValue>): (kept: seq<TagValue>)
    ensures Fits(items) ==> Fits(kept)
  {
    if items == [] then
      []
    else
      var front := NonEmpty(items[..|items| - 1]);
      var last := items[|items| - 1];
      if last.value == [] then front else front + [last]
  }

  /** The nested value `buildTemplate` produces, or its length error. */
  function Template(items: seq<TagValue>): Option<string> {
    if Fits(items) then Some(Concat(ObjectsOf(NonEmpty(items)))) else None
  }

  lemma {:induction false} ConcatLast(os: seq<Object>, o: Object)
    ensures Concat(os + [o]) == Concat(os) + Wire(o)
  {
    if os == [] {
      assert [o][1..] == [];
    } else {
      assert (os + [o])[1..] == os[1..] + [o];
      ConcatLast(os[1..], o);
    }
  }

  /** Printing one more item. */
  lemma PrintLast(items: seq<TagValue>, item: TagValue)
    requires Fits(items) && |item.value| <= 99
    ensures Concat(ObjectsOf(items + [item])) == Concat(ObjectsOf(items)) + Wire(ObjectOf(item))
  {
    assert ObjectsOf(items + [item]) == ObjectsOf(items) + [ObjectOf(item)];
    ConcatLast(ObjectsOf(items), ObjectOf(item));
  }

  method BuildTemplate(items: seq<TagValue>) returns (r: Option<string>)
    ensures r == Template(items)
  {
    var sb := [];
    for i := 0 to |items|
      invariant Template(items[..i]) == Some(sb)
    {
      assert items[..i + 1][..i] == items[..i];
      if items[i].value != [] {
        var s := Print(items[i]);
        if s.None? {
          return None;
        }
        PrintLast(NonEmpty(items[..i]), items[i]);
        sb := sb + s.value;
      }
    }
    assert items[..|items|] == items;
    r := Some(sb);
  }

  // ---------- Splitting what was printed ----------

  predicate DistinctTags(items: seq<TagValue>) {
    && (forall i :: 0 <= i < |items| ==> |items[i].tag| == 2)
    && (forall i, j :: 0 <= i < j < |items| ==> items[i].tag != items[j].tag)
  }

  lemma PrintedComplete(items: seq<TagValue>)
    requires Fits(items) && forall i :: 0 <= i < |items| ==> |items[i].tag| == 2
    ensures AllComplete(ObjectsOf(items))
  {
    forall i | 0 <= i < |items| ensures Complete(ObjectsOf(items)[i]) {
      Pad2Value(|items[i].value|);
    }
  }

  lemma {:induction false} AssignLast(m: map<string, string>, os: seq<Object>, o: Object)
    ensures Assign(m, os + [o]) == Assign(m, os)[o.tag := o.value]
    decreases |os|
  {
    if os == [] {
      assert [o][1..] == [];
    } else {
      assert (os + [o])[1..] == os[1..] + [o];
      AssignLast(m[os[0].tag := os[0].value], os[1..], o);
    }
  }

  /** `m` holds exactly the non-empty items. */
  ghost predicate Holds(m: map<string, string>, items: seq<TagValue>) {
    && (forall i :: 0 <= i < |items| && items[i].value != [] ==> items[i].tag in m && m[items[i].tag] == items[i].value)
    && (forall t :: t in m ==> exists i :: 0 <= i < |items| && items[i].tag == t && items[i].value != [])
  }

  lemma {:induction false} NonEmptyTags(items: seq<TagValue>)
    requires forall i :: 0 <= i < |items| ==> |items[i].tag| == 2
    ensures forall i :: 0 <= i < |NonEmpty(items)| ==> |NonEmpty(items)[i].tag| == 2
  {
    if items != [] {
      NonEmptyTags(items[..|items| - 1]);
    }
  }

  lemma {:induction false} AssignHolds(items: seq<TagValue>)
    requires Fits(items) && DistinctTags(items)
    ensures Holds(Assign(map[], ObjectsOf(NonEmpty(items))), items)
  {
    if items != [] {
      hide Holds, Assign;
      var front, last := items[..|items| - 1], items[|items| - 1];
      assert items == front + [last];
      AssignHolds(front);
      if last.value != [] {
        var kept := NonEmpty(front);
        assert ObjectsOf(kept + [last]) == ObjectsOf(kept) + [ObjectOf(last)];
        AssignLast(map[], ObjectsOf(kept), ObjectOf(last));
      }
      HoldsLast(Assign(map[], ObjectsOf(NonEmpty(front))), front, last);
    }
  }

  lemma HoldsLast(m: map<string, string>, front: seq<TagValue>, last: TagValue)
    requires Holds(m, front) && DistinctTags(front + [last])
    ensures Holds(if last.value == [] then m else m[last.tag := last.value], front + [last])
  {
    var items := front + [last];
    var m' := if last.value == [] then m else m[last.tag := last.value];
    forall t | t in m' ensures exists i :: 0 <= i < |items| && items[i].tag == t && items[i].value != [] {
      if t in m {
        var i :| 0 <= i < |front| && front[i].tag == t && front[i].value != [];
        assert items[i] == front[i];
      } else {
        assert items[|front|] == last;
      }
    }
    forall i | 0 <= i < |items| && items[i].value != []
      ensures items[i].tag in m' && m'[items[i].tag] == items[i].value
    {
      if i < |front| {
        assert items[i] == front[i] && items[i].tag != items[|front|].tag;
      }
    }
  }

  /** Splitting a printed template gives exactly its non-empty items. */
  lemma TemplateRoundTrip(items: seq<TagValue>)
    requires Fits(items) && DistinctTags(items)
    ensures var parsed := Finish(map[], SplitObjects(Template(items).value));
            parsed.Fields? && Holds(parsed.m, items)
  {
    NonEmptyTags(items);
    PrintedComplete(NonEmpty(items));
    SplitExact(Template(items).value, ObjectsOf(NonEmpty(items)));
    AssignHolds(items);
  }

  /** `m[tag]` in Go: the empty string when the tag is absent. */
  function Lookup(m: map<string, string>, tag: string): string {
    if tag in m then m[tag] else []
  }

  lemma LookupItem(m: map<string, string>, items: seq<TagValue>, i: nat)
    requires DistinctTags(items) && Holds(m, items) && i < |items|
    ensures Lookup(m, items[i].tag) == items[i].value
  {
    if items[i].tag in m {
      var j :| 0 <= j < |items| && items[j].tag == items[i].tag && items[j].value != [];
      assert i == j;
    }
  }

  // ---------- What is on the wire ----------

  /**
   One object as it is printed: tag, two digits of length, and value; nothing for an empty value, or one that is
   too long to be printed.
   */
  function Shown(tag: string, value: string): string {
    if value == "" || |value| > 99 then "" else tag + Pad2(|value|) + value
  }

  function AllShown(items: seq<TagValue>): string {
    if items == [] then "" else AllShown(items[..|items| - 1]) + Shown(items[|items| - 1].tag, items[|items| - 1].value)
  }

  lemma {:induction false} AllShownConcat(a: seq<TagValue>, b: seq<TagValue>)
    ensures AllShown(a + b) == AllShown(a) + AllShown(b)
  {
    hide Shown;
    if b == [] {
      assert a + b == a;
    } else {
      AllShownConcat(a, b[..|b| - 1]);
      assert (a + b)[..|a + b| - 1] == a + b[..|b| - 1];
      Associates(AllShown(a), AllShown(b[..|b| - 1]), Shown(b[|b| - 1].tag, b[|b| - 1].value));
    }
  }

  lemma Associates(x: string, y: string, z: string)
    ensures (x + y) + z == x + (y + z)
  {
  }

  lemma ShownOne(x: TagValue)
    ensures AllShown([x]) == Shown(x.tag, x.value)
  {
    assert [x][..0] == [];
    assert AllShown([]) == "";
    hide Shown;
  }

  lemma ShownThree(x: TagValue, y: TagValue, z: TagValue)
    ensures AllShown([x, y, z]) == Shown(x.tag, x.value) + Shown(y.tag, y.value) + Shown(z.tag, z.value)
  {
    ShownOne(x);
    ShownOne(y);
    ShownOne(z);
    hide AllShown, Shown;
    AllShownConcat([x], [y]);
    AllShownConcat([x, y], [z]);
    assert [x] + [y] == [x, y] && [x, y] + [z] == [x, y, z];
  }

  lemma FitsFront(items: seq<TagValue>)
    requires Fits(items) && items != []
    ensures Fits(items[..|items| - 1]) && |items[|items| - 1].value| <= 99
  {
  }

  /** A template that is printed at all is its items in their order, the empty ones left out. */
  lemma {:induction false} TemplateShown(items: seq<TagValue>)
    requires Fits(items)
    ensures Template(items) == Some(AllShown(items))
  {
    hide Shown, Wire, ObjectOf, ObjectsOf, Concat, Fits;
    if items == [] {
      NothingShown();
    } else {
      var front, last := items[..|items| - 1], items[|items| - 1];
      FitsFront(items);
      TemplateShown(front);
      ShownLast(NonEmpty(front), last, AllShown(front));
    }
  }

  lemma NothingShown()
    ensures Concat(ObjectsOf([])) == ""
  {
  }

  /** What one more item adds to a template. */
  lemma ShownLast(kept: seq<TagValue>, last: TagValue, front: string)
    requires Fits(kept) && |last.value| <= 99 && Concat(ObjectsOf(kept)) == front
    ensures var more := if last.value == [] then kept else kept + [last];
      Fits(more) && Concat(ObjectsOf(more)) == front + Shown(last.tag, last.value)
  {
    hide Concat, ObjectsOf, Wire, ObjectOf, Shown;
    ShownIsWire(last);
    if last.value == [] {
      assert front + "" == front;
    } else {
      PrintLast(kept, last);
      FitsMore(kept, last);
    }
  }

  lemma FitsMore(kept: seq<TagValue>, last: TagValue)
    requires Fits(kept) && |last.value| <= 99
    ensures Fits(kept + [last])
  {
  }

  lemma ShownIsWire(x: TagValue)
    requires |x.value| <= 99
    ensures Shown(x.tag, x.value) == if x.value == [] then "" else Wire(ObjectOf(x))
  {
    hide Pad2;
  }

  /** The value of the last object with a tag; empty if there is none. */
  function LastValue(os: seq<Object>, tag: string): string {
    if os == [] then ""
    else if os[|os| - 1].tag == tag then os[|os| - 1].value
    else LastValue(os[..|os| - 1], tag)
  }

  /** The map of tags holds of each tag its last value, and no tag that no object has. */
  lemma {:induction false} AssignedIsLast(os: seq<Object>, tag: string)
    ensures Lookup(Assign(map[], os), tag) == LastValue(os, tag)
  {
    if os != [] {
      var front, last := os[..|os| - 1], os[|os| - 1];
      AssignedIsLast(front, tag);
      AssignLast(map[], front, last);
      assert front + [last] == os;
    }
  }

  lemma NothingComplete(os: seq<Object>)
    requires AllComplete(os)
    ensures Concat(os) == "" <==> os == []
  {
    if os != [] {
      assert Complete(os[0]);
      assert |Concat(os)| >= |Wire(os[0])| >= 4;
    }
  }

  /** Complete objects, one after another, parse to the map of their tags. */
  lemma ParsesTo(s: string, os: seq<Object>)
    requires AllComplete(os) && Concat(os) == s
    ensures Finish(map[], SplitObjects(s)) == Fields(Assign(map[], os))
  {
    SplitExact(s, os);
  }

  /** A string that parses is complete objects, one after another. */
  lemma ParsedFrom(s: string) returns (os: seq<Object>)
    requires Finish(map[], SplitObjects(s)).Fields?
    ensures AllComplete(os) && Concat(os) == s
  {
    os := SplitObjects(s).os;
    SplitExact(s, os);
  }
}
