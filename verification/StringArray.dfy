/** Text arrays as PostgreSQL array literals: a quoting printer and a scanner with three flags. */
module StringArray {
  import opened Wrappers
  import opened Strconv

  // ---------- Printing ----------

  function EscapeChar(c: char): string {
    if c == '\\' then "\\\\" else if c == '"' then "\\\"" else [c]
  }

  /** Backslashes and double quotes each gain a backslash. */
  function Escape(v: string): string {
    if v == "" then "" else Escape(v[..|v| - 1]) + EscapeChar(v[|v| - 1])
  }

  /** An element as it stands in a literal. The program always quotes; the server quotes only where it must. */
  datatype Element = Element(value: string, quoted: bool)

  function Shown(e: Element): string {
    if e.quoted then "\"" + Escape(e.value) + "\"" else e.value
  }

  function Separated(es: seq<Element>): string {
    if es == [] then ""
    else Separated(es[..|es| - 1]) + (if |es| > 1 then "," else "") + Shown(es[|es| - 1])
  }

  function Literal(es: seq<Element>): string { "{" + Separated(es) + "}" }

  function Quote(s: seq<string>): seq<Element> {
    seq(|s|, i requires 0 <= i < |s| => Element(s[i], true))
  }

  lemma SeparatedLast(es: seq<Element>, e: Element)
    ensures Separated(es + [e]) == Separated(es) + (if es == [] then "" else ",") + Shown(e)
  {
    assert (es + [e])[..|es|] == es;
  }

  lemma Assoc(a: string, b: string, c: string)
    ensures a + (b + c) == a + b + c
  {
  }

  /** Appending the pieces of one element to the text so far. */
  lemma WriteElement(before: string, comma: string, v: string, es: seq<Element>)
    requires before == "{" + Separated(es) && comma == if es == [] then "" else ","
    ensures before + comma + "\"" + Escape(v) + "\"" == "{" + Separated(es + [Element(v, true)])
  {
    SeparatedLast(es, Element(v, true));
    hide Separated, Escape;
    Assoc(before + comma, "\"", Escape(v));
    Assoc(before + comma, "\"" + Escape(v), "\"");
    Assoc("{", Separated(es), comma);
    Assoc("{", Separated(es) + comma, "\"" + Escape(v) + "\"");
  }

  method Value(s: seq<string>) returns (text: string)
    ensures text == Literal(Quote(s))
  {
    hide Separated, Escape;
    if |s| == 0 {
      NothingSeparated();
      return "{}";
    }
    NothingSeparated();
    text := "{";
    for i := 0 to |s|
      invariant text == "{" + Separated(Quote(s)[..i])
    {
      assert Quote(s)[..i + 1] == Quote(s)[..i] + [Element(s[i], true)];
      WriteElement(text, if i > 0 then "," else "", s[i], Quote(s)[..i]);
      if i > 0 {
        text := text + ",";
      } else {
        assert text + "" == text;
      }
      text := text + "\"";
      text := text + Escape(s[i]);
      text := text + "\"";
    }
    assert Quote(s)[..|s|] == Quote(s);
    text := text + "}";
  }

  lemma NothingSeparated()
    ensures Separated([]) == ""
  {
  }

  // ---------- Scanning ----------

  datatype Source = Nil | Text(raw: string) | Other

  datatype ScanError = BadType | BadLiteral

  datatype Scanner = Scanner(result: seq<string>, cur: string, inQuote: bool, escaped: bool)

  function Feed(sc: Scanner, ch: char): Scanner {
    if sc.escaped then sc.(cur := sc.cur + [ch], escaped := false)
    else if ch == '\\' then sc.(escaped := true)
    else if ch == '"' then sc.(inQuote := !sc.inQuote)
    else if ch == ',' && !sc.inQuote then sc.(result := sc.result + [sc.cur], cur := "")
    else sc.(cur := sc.cur + [ch])
  }

  function FeedAll(sc: Scanner, text: string): Scanner {
    if text == "" then sc else Feed(FeedAll(sc, text[..|text| - 1]), text[|text| - 1])
  }

  function Scanned(src: Source): Result<seq<string>, ScanError> {
    match src
    case Nil => Ok([])
    case Other => Err(BadType)
    case Text(text) =>
      var raw := TrimSpace(text);
      if !("{" <= raw) || raw == "" || raw[|raw| - 1] != '}' then Err(BadLiteral)
      else
        var inner := raw[1..|raw| - 1];
        if inner == "" then Ok([])
        else
          var sc := FeedAll(Scanner([], "", false, false), inner);
          Ok(sc.result + [sc.cur])
  }

  method Scan(src: Source) returns (r: Result<seq<string>, ScanError>)
    ensures r == Scanned(src)
    ensures src.Nil? ==> r == Ok([])
    ensures src.Other? ==> r == Err(BadType)
  {
    if src.Nil? {
      return Ok([]);
    }
    if src.Other? {
      return Err(BadType);
    }
    var raw := TrimSpace(src.raw);
    if !("{" <= raw) || raw[|raw| - 1] != '}' {
      return Err(BadLiteral);
    }
    var inner := raw[1..|raw| - 1];
    if inner == "" {
      return Ok([]);
    }
    var result, cur, inQuote, escaped := [], "", false, false;
    for i := 0 to |inner|
      invariant Scanner(result, cur, inQuote, escaped) == FeedAll(Scanner([], "", false, false), inner[..i])
    {
      assert inner[..i + 1][..i] == inner[..i];
      var ch := inner[i];
      if escaped {
        cur := cur + [ch];
        escaped := false;
      } else if ch == '\\' {
        escaped := true;
      } else if ch == '"' {
        inQuote := !inQuote;
      } else if ch == ',' && !inQuote {
        result := result + [cur];
        cur := "";
      } else {
        cur := cur + [ch];
      }
    }
    assert inner[..|inner|] == inner;
    r := Ok(result + [cur]);
  }

  // ---------- Scanning what was printed ----------

  lemma {:induction false} FeedConcat(sc: Scanner, a: string, b: string)
    ensures FeedAll(sc, a + b) == FeedAll(FeedAll(sc, a), b)
  {
    if b == "" {
      assert a + b == a;
    } else {
      FeedConcat(sc, a, b[..|b| - 1]);
      assert (a + b)[..|a + b| - 1] == a + b[..|b| - 1];
    }
  }

  lemma FeedChar(sc: Scanner, c: char)
    ensures FeedAll(sc, [c]) == Feed(sc, c)
  {
    assert [c][..0] == "";
  }

  /** Inside quotes, an escaped character reads back as itself. */
  lemma FeedEscapedChar(sc: Scanner, c: char)
    requires sc.inQuote && !sc.escaped
    ensures FeedAll(sc, EscapeChar(c)) == sc.(cur := sc.cur + [c])
  {
    if c == '\\' || c == '"' {
      FeedConcat(sc, "\\", [c]);
      FeedChar(sc, '\\');
      FeedChar(sc.(escaped := true), c);
    } else {
      FeedChar(sc, c);
    }
  }

  lemma {:induction false} FeedEscaped(sc: Scanner, v: string)
    requires sc.inQuote && !sc.escaped
    ensures FeedAll(sc, Escape(v)) == sc.(cur := sc.cur + v)
  {
    if v == "" {
      assert sc.cur + v == sc.cur;
    } else {
      var init, c := v[..|v| - 1], v[|v| - 1];
      FeedEscaped(sc, init);
      assert Escape(v) == Escape(init) + EscapeChar(c);
      hide FeedAll, Escape, EscapeChar;
      FeedConcat(sc, Escape(init), EscapeChar(c));
      FeedEscapedChar(sc.(cur := sc.cur + init), c);
      Assoc(sc.cur, init, [c]);
      assert init + [c] == v;
    }
  }

  /** A value that means the same without quotes. */
  predicate Plain(v: string) {
    forall i :: 0 <= i < |v| ==> v[i] != ',' && v[i] != '"' && v[i] != '\\'
  }

  lemma {:induction false} FeedPlain(sc: Scanner, v: string)
    requires Plain(v) && !sc.inQuote && !sc.escaped
    ensures FeedAll(sc, v) == sc.(cur := sc.cur + v)
  {
    if v == "" {
      assert sc.cur + v == sc.cur;
    } else {
      FeedPlain(sc, v[..|v| - 1]);
      assert sc.cur + v[..|v| - 1] + [v[|v| - 1]] == sc.cur + v;
    }
  }

  lemma FeedShown(sc: Scanner, e: Element)
    requires !sc.inQuote && !sc.escaped && (e.quoted || Plain(e.value))
    ensures FeedAll(sc, Shown(e)) == sc.(cur := sc.cur + e.value)
  {
    if e.quoted {
      var open := sc.(inQuote := true);
      FeedConcat(sc, "\"" + Escape(e.value), "\"");
      FeedConcat(sc, "\"", Escape(e.value));
      FeedChar(sc, '"');
      FeedEscaped(open, e.value);
      FeedChar(open.(cur := sc.cur + e.value), '"');
    } else {
      FeedPlain(sc, e.value);
    }
  }

  ghost predicate Readable(es: seq<Element>) {
    forall i :: 0 <= i < |es| ==> es[i].quoted || Plain(es[i].value)
  }

  function Values(es: seq<Element>): seq<string> {
    seq(|es|, i requires 0 <= i < |es| => es[i].value)
  }

  lemma FeedFirst(e: Element)
    requires e.quoted || Plain(e.value)
    ensures FeedAll(Scanner([], "", false, false), Separated([e])) == Scanner([], e.value, false, false)
  {
    assert [e][..0] == [];
    NothingSeparated();
    assert Separated([e]) == "" + "" + Shown(e);
    assert "" + "" + Shown(e) == Shown(e);
    hide Separated, Shown, FeedAll;
    FeedShown(Scanner([], "", false, false), e);
    assert "" + e.value == e.value;
  }

  /** After a comma, the element being read is finished and the next one begins. */
  lemma FeedNext(sc: Scanner, e: Element)
    requires !sc.inQuote && !sc.escaped && (e.quoted || Plain(e.value))
    ensures FeedAll(sc, "," + Shown(e)) == Scanner(sc.result + [sc.cur], e.value, false, false)
  {
    var after := Scanner(sc.result + [sc.cur], "", false, false);
    FeedConcat(sc, ",", Shown(e));
    FeedChar(sc, ',');
    hide Shown, FeedAll;
    FeedShown(after, e);
    assert "" + e.value == e.value;
  }

  lemma ValuesLast(es: seq<Element>)
    requires es != []
    ensures Values(es) == Values(es[..|es| - 1]) + [es[|es| - 1].value]
  {
  }

  /** After the separated elements, all but the last are in the result and the last is being read. */
  lemma {:induction false} FeedSeparated(es: seq<Element>)
    requires es != [] && Readable(es)
    ensures FeedAll(Scanner([], "", false, false), Separated(es))
         == Scanner(Values(es[..|es| - 1]), es[|es| - 1].value, false, false)
  {
    hide Separated, Shown, FeedAll, Values, Plain;
    var start := Scanner([], "", false, false);
    var init, e := es[..|es| - 1], es[|es| - 1];
    assert es == init + [e];
    if init == [] {
      FeedFirst(e);
      NoValues();
    } else {
      SeparatedLast(init, e);
      FeedSeparated(init);
      Assoc(Separated(init), ",", Shown(e));
      FeedConcat(start, Separated(init), "," + Shown(e));
      ValuesLast(init);
      FeedNext(Scanner(Values(init[..|init| - 1]), init[|init| - 1].value, false, false), e);
    }
  }

  lemma NoValues()
    ensures Values([]) == []
  {
  }

  /**
   Any literal whose elements are quoted where they must be reads back as its elements, except that a
   lone unquoted empty element cannot be told from no element.
   */
  lemma ReadsBack(es: seq<Element>)
    requires Readable(es)
    ensures Scanned(Text(Literal(es))) == if es == [Element("", false)] then Ok([]) else Ok(Values(es))
  {
    var text := Literal(es);
    NoSpaceNoTrim(text);
    hide TrimSpace;
    assert text[1..|text| - 1] == Separated(es);
    NothingSeparated();
    if es != [] {
      SeparatedEmpty(es);
      FeedSeparated(es);
      ValuesLast(es);
    } else {
      NoValues();
    }
    hide Separated, FeedAll, Values, Readable;
  }

  lemma SeparatedEmpty(es: seq<Element>)
    requires es != []
    ensures Separated(es) == "" <==> es == [Element("", false)]
  {
    if |es| == 1 {
      assert Separated(es) == Shown(es[0]);
      assert es == [es[0]];
    }
  }

  /** What `Value` prints, `Scan` reads back, for every array of strings. */
  lemma RoundTrip(s: seq<string>)
    ensures Scanned(Text(Literal(Quote(s)))) == Ok(s)
  {
    ReadsBack(Quote(s));
    assert Values(Quote(s)) == s;
    assert |s| == 1 ==> Quote(s)[0].quoted;
  }

  /** Different arrays are stored as different texts. */
  lemma ValueInjective(s: seq<string>, t: seq<string>)
    requires Literal(Quote(s)) == Literal(Quote(t))
    ensures s == t
  {
    RoundTrip(s);
    RoundTrip(t);
  }

  // ---------- What any literal means ----------

  /** A text is refused exactly if, white space around it aside, it is not enclosed in braces. */
  lemma RefusedIff(text: string)
    ensures var raw := TrimSpace(text);
      Scanned(Text(text)) == Err(BadLiteral) <==> |raw| < 2 || raw[0] != '{' || raw[|raw| - 1] != '}'
    ensures Scanned(Text(text)).Err? ==> Scanned(Text(text)).error == BadLiteral
  {
    hide FeedAll, TrimSpace;
  }

  /** What stands between the braces: an escaped character, a quotation mark, or any other character. */
  datatype Token = Slashed(c: char) | Mark | Bare(c: char)

  predicate Tokens(ts: seq<Token>) {
    forall i :: 0 <= i < |ts| && ts[i].Bare? ==> ts[i].c != '\\' && ts[i].c != '"'
  }

  function Texts(ts: seq<Token>): string {
    if ts == [] then ""
    else
      Texts(ts[..|ts| - 1]) +
      match ts[|ts| - 1]
      case Slashed(c) => "\\" + [c]
      case Mark => "\""
      case Bare(c) => [c]
  }

  /** Whether a text that far ends inside quotes: after an odd number of marks. */
  predicate Inside(ts: seq<Token>) { ts != [] && (Inside(ts[..|ts| - 1]) != ts[|ts| - 1].Mark?) }

  /** The elements: commas outside quotes separate them, marks are dropped, and what is escaped is taken as it is. */
  function Elements(ts: seq<Token>): (es: seq<string>)
    ensures |es| > 0
  {
    if ts == [] then [""]
    else
      var (before, last) := (Elements(ts[..|ts| - 1]), ts[|ts| - 1]);
      if last.Mark? then before
      else if last == Bare(',') && !Inside(ts[..|ts| - 1]) then before + [""]
      else before[|before| - 1 := before[|before| - 1] + [last.c]]
  }

  lemma {:induction false} TokensFeed(ts: seq<Token>)
    requires Tokens(ts)
    ensures var sc := FeedAll(Scanner([], "", false, false), Texts(ts));
      !sc.escaped && sc.inQuote == Inside(ts) && sc.result + [sc.cur] == Elements(ts)
  {
    if ts != [] {
      var before, last := ts[..|ts| - 1], ts[|ts| - 1];
      TokensFeed(before);
      var sc := FeedAll(Scanner([], "", false, false), Texts(before));
      hide Elements, Texts, Inside;
      FeedToken(sc, last);
      TextsLast(before, last);
      assert before + [last] == ts;
      FeedConcat(Scanner([], "", false, false), Texts(before), Texts([last]));
      FedElements(before, last, sc);
    } else {
      assert FeedAll(Scanner([], "", false, false), "") == Scanner([], "", false, false);
    }
  }

  lemma TextsLast(ts: seq<Token>, t: Token)
    ensures Texts(ts + [t]) == Texts(ts) + Texts([t])
  {
    assert (ts + [t])[..|ts|] == ts && [t][..0] == [];
  }

  function FedToken(sc: Scanner, t: Token): Scanner {
    match t
    case Slashed(c) => sc.(cur := sc.cur + [c])
    case Mark => sc.(inQuote := !sc.inQuote)
    case Bare(c) =>
      if c == ',' && !sc.inQuote then sc.(result := sc.result + [sc.cur], cur := "") else sc.(cur := sc.cur + [c])
  }

  lemma FeedToken(sc: Scanner, t: Token)
    requires !sc.escaped && Tokens([t])
    ensures FeedAll(sc, Texts([t])) == FedToken(sc, t)
  {
    assert [t][..0] == [] && [t][0] == t;
    match t
    case Slashed(c) =>
      FeedConcat(sc, "\\", [c]);
      FeedChar(sc, '\\');
      FeedChar(sc.(escaped := true), c);
    case Mark => FeedChar(sc, '"');
    case Bare(c) => FeedChar(sc, c);
  }

  lemma ElementsLast(before: seq<Token>, last: Token)
    ensures Inside(before + [last]) <==> Inside(before) != last.Mark?
    ensures var es := Elements(before);
      Elements(before + [last]) ==
        if last.Mark? then es
        else if last == Bare(',') && !Inside(before) then es + [""]
        else es[|es| - 1 := es[|es| - 1] + [last.c]]
  {
    var ts := before + [last];
    assert ts[..|ts| - 1] == before && ts[|ts| - 1] == last;
  }

  lemma FedElements(before: seq<Token>, last: Token, sc: Scanner)
    requires sc.inQuote == Inside(before) && !sc.escaped && sc.result + [sc.cur] == Elements(before)
    ensures var sc' := FedToken(sc, last);
      sc'.inQuote == Inside(before + [last]) && !sc'.escaped && sc'.result + [sc'.cur] == Elements(before + [last])
  {
    ElementsLast(before, last);
    hide Elements, Inside;
    var es := Elements(before);
    assert es[|es| - 1] == sc.cur && es[..|es| - 1] == sc.result;
  }

  /** A literal in braces scans to the elements of what is between them; nothing there means no element. */
  lemma ScansAs(ts: seq<Token>)
    requires Tokens(ts)
    ensures Scanned(Text("{" + Texts(ts) + "}")) == Ok(if Texts(ts) == "" then [] else Elements(ts))
  {
    TokensFeed(ts);
    hide FeedAll, Texts, Elements;
    var raw := "{" + Texts(ts) + "}";
    NoSpaceNoTrim(raw);
    assert raw[1..|raw| - 1] == Texts(ts);
  }
}
