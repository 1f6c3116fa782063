/**
 * JsonFormatter: writes a log event as a JSON object. Strings are escaped as
 * section 7 of RFC 8259 describes; property values are written by a literal
 * writer chosen by the exact runtime class of the value. Writers are
 * modelled as the text they receive. Date, temporal and floating-point
 * texts come from java.text, java.time and String.format, which are outside
 * this model: they are the functions of a Formats value.
 */
module Json {
  import opened Wrappers
  import opened Chars
  import opened Levels
  import opened Values
  import opened Templates
  import opened Events

  // ------------------------------------------------------------ escape

  /** The characters escape rewrites: controls, the backslash and the quote. */
  predicate NeedsEscape(c: char) {
    c < 32 as char || c == '\\' || c == '"'
  }

  predicate Clean(s: string) {
    forall k :: 0 <= k < |s| ==> !NeedsEscape(s[k])
  }

  function HexDigit(d: nat): (c: char)
    requires d < 16
  {
    if d < 10 then ('0' as int + d) as char else ('A' as int + d - 10) as char
  }

  /** String.format("%04X", n). */
  function Hex4(n: nat): (r: string)
    requires n < 0x1_0000
    ensures |r| == 4
  {
    [HexDigit(n / 4096), HexDigit(n / 256 % 16), HexDigit(n / 16 % 16), HexDigit(n % 16)]
  }

  /** The text one character becomes. */
  function EscapeChar(c: char): (r: string)
    ensures !NeedsEscape(c) ==> r == [c]
    ensures NeedsEscape(c) ==> |r| >= 2 && r[0] == '\\'
  {
    if c == '"' then "\\\""
    else if c == '\\' then "\\\\"
    else if c == '\n' then "\\n"
    else if c == '\r' then "\\r"
    else if c == (12 as char) then "\\f"
    else if c == '\t' then "\\t"
    else if c < 32 as char then "\\u" + Hex4(c as nat)
    else [c]
  }

  /** The escaped text, character by character. */
  function Escaped(s: string): (r: string)
    ensures |r| >= |s|
  {
    if s == [] then [] else EscapeChar(s[0]) + Escaped(s[1..])
  }

  lemma {:induction false} EscapedAppend(a: string, b: string)
    ensures Escaped(a + b) == Escaped(a) + Escaped(b)
  {
    if a != [] {
      var ab := a + b;
      assert ab[0] == a[0] && ab[1..] == a[1..] + b;
      EscapedAppend(a[1..], b);
      calc {
        Escaped(ab);
        EscapeChar(a[0]) + Escaped(a[1..] + b);
        EscapeChar(a[0]) + (Escaped(a[1..]) + Escaped(b));
      }
    } else {
      assert a + b == b;
    }
  }

  /** Escaping leaves a string alone exactly when it has nothing to escape. */
  lemma {:induction false} EscapedUnchanged(s: string)
    ensures Escaped(s) == s <==> Clean(s)
  {
    if s != [] {
      EscapedUnchanged(s[1..]);
      if NeedsEscape(s[0]) {
        assert |Escaped(s)| > |s|;
      } else if Escaped(s) == s {
        assert Escaped(s)[1..] == Escaped(s[1..]);
      }
    }
  }

  lemma EscapedSnoc(s: string, i: nat)
    requires i < |s|
    ensures Escaped(s[..i + 1]) == Escaped(s[..i]) + EscapeChar(s[i])
  {
    EscapedAppend(s[..i], [s[i]]);
    assert s[..i + 1] == s[..i] + [s[i]];
    assert Escaped([s[i]]) == EscapeChar(s[i]) + Escaped([]);
  }

  /**
   * JsonFormatter.escape: a builder is made at the first character that
   * needs escaping; each clean run since the last escape is copied, then
   * the escape; the input itself comes back when nothing needed escaping.
   */
  method Escape(s: Option<string>) returns (r: Option<string>)
    ensures s.None? ==> r.None?
    ensures s.Some? ==> r == Some(Escaped(s.value))
    ensures s.Some? && Clean(s.value) ==> r == s
  {
    if s.None? {
      return None;
    }
    var str := s.value;
    var started, built, cleanSegmentStart := EscapeSegments(str);
    EscapedUnchanged(str);
    if started {
      if cleanSegmentStart != |str| {
        built := built + str[cleanSegmentStart..];
      } else {
        assert str[cleanSegmentStart..] == [];
        assert built + [] == built;
      }
      return Some(built);
    }
    assert str[0..] == str;
    return s;
  }

  /** One character of the loop of escape: a clean one joins the pending run, any other flushes the run and its escape. */
  lemma SegmentStep(str: string, i: nat, start: nat, built: string)
    requires start <= i < |str|
    requires built + str[start..i] == Escaped(str[..i])
    ensures !NeedsEscape(str[i]) ==> built + str[start..i + 1] == Escaped(str[..i + 1])
    ensures NeedsEscape(str[i]) ==> built + str[start..i] + EscapeChar(str[i]) + str[i + 1..i + 1] == Escaped(str[..i + 1])
  {
    assert str[start..i + 1] == str[start..i] + [str[i]] by {
      assert str[start..i + 1][..i - start] == str[start..i];
    }
    assert str[i + 1..i + 1] == [];
    EscapedSnoc(str, i);
  }

  /** The loop of escape: whether a builder was made, its text, and where the last clean run starts. */
  method EscapeSegments(str: string) returns (started: bool, built: string, cleanSegmentStart: nat)
    ensures cleanSegmentStart <= |str|
    ensures !started ==> built == "" && cleanSegmentStart == 0
    ensures built + str[cleanSegmentStart..] == Escaped(str)
  {
    started, built, cleanSegmentStart := false, "", 0;
    for i := 0 to |str|
      invariant cleanSegmentStart <= i
      invariant !started ==> built == "" && cleanSegmentStart == 0
      invariant built + str[cleanSegmentStart..i] == Escaped(str[..i])
    {
      var c := str[i];
      SegmentStep(str, i, cleanSegmentStart, built);
      if NeedsEscape(c) {
        started := true;
        built := built + str[cleanSegmentStart..i];
        cleanSegmentStart := i + 1;
        built := built + EscapeChar(c);
      }
    }
    assert str[..|str|] == str;
    assert str[cleanSegmentStart..|str|] == str[cleanSegmentStart..];
  }

  // ------------------------------------------------------------ RFC 8259 strings

  predicate IsHex(c: char) {
    '0' <= c <= '9' || 'A' <= c <= 'F' || 'a' <= c <= 'f'
  }

  function HexValue(c: char): (r: nat)
    requires IsHex(c)
    ensures r < 16
  {
    if c <= '9' then c as int - '0' as int
    else if c <= 'F' then c as int - 'A' as int + 10
    else c as int - 'a' as int + 10
  }

  /** The characters that may stand for themselves inside a JSON string. */
  predicate Unescaped(c: char) {
    c >= 32 as char && c != '"' && c != '\\'
  }

  /** The body of a JSON string (between the quotes), as the grammar of section 7 of RFC 8259 allows it. */
  predicate StringBody(t: string)
    decreases |t|
  {
    t == []
    || (Unescaped(t[0]) && StringBody(t[1..]))
    || (|t| >= 2 && t[0] == '\\' && t[1] in "\"\\/bfnrt" && StringBody(t[2..]))
    || (|t| >= 6 && t[0] == '\\' && t[1] == 'u'
        && IsHex(t[2]) && IsHex(t[3]) && IsHex(t[4]) && IsHex(t[5]) && StringBody(t[6..]))
  }

  /** The escaped text is a valid JSON string body. */
  lemma {:induction false} EscapedIsStringBody(s: string)
    ensures StringBody(Escaped(s))
  {
    if s != [] {
      EscapedIsStringBody(s[1..]);
      var rest := Escaped(s[1..]);
      var e := EscapeChar(s[0]);
      var t := e + rest;
      if !NeedsEscape(s[0]) {
        assert t[1..] == rest;
      } else if |e| == 2 {
        assert t[2..] == rest;
      } else {
        assert t[6..] == rest;
      }
    }
  }

  /** The character four hex digits stand for (a surrogate, which has no char of its own here, gives U+FFFD). */
  function HexChar(a: char, b: char, c: char, d: char): char
    requires IsHex(a) && IsHex(b) && IsHex(c) && IsHex(d)
  {
    var n := HexValue(a) * 4096 + HexValue(b) * 256 + HexValue(c) * 16 + HexValue(d);
    if 0xD800 <= n < 0xE000 then 0xFFFD as char else n as char
  }

  /** The escape following a backslash, as a JSON parser reads it. */
  function ShortEscape(c: char): char {
    if c == 'b' then 8 as char
    else if c == 'f' then (12 as char)
    else if c == 'n' then '\n'
    else if c == 'r' then '\r'
    else if c == 't' then '\t'
    else c
  }

  /** A JSON parser's reading of a string body. */
  function Unescape(t: string): string
    decreases |t|
  {
    if t == [] then []
    else if |t| >= 6 && t[0] == '\\' && t[1] == 'u' && IsHex(t[2]) && IsHex(t[3]) && IsHex(t[4]) && IsHex(t[5]) then
      [HexChar(t[2], t[3], t[4], t[5])] + Unescape(t[6..])
    else if |t| >= 2 && t[0] == '\\' then [ShortEscape(t[1])] + Unescape(t[2..])
    else [t[0]] + Unescape(t[1..])
  }

  lemma HexDigitValue(d: nat)
    requires d < 16
    ensures IsHex(HexDigit(d)) && HexValue(HexDigit(d)) == d
  {
  }

  lemma Hex4Value(n: nat)
    requires n < 32
    ensures var h := Hex4(n);
      IsHex(h[0]) && IsHex(h[1]) && IsHex(h[2]) && IsHex(h[3])
      && HexValue(h[0]) * 4096 + HexValue(h[1]) * 256 + HexValue(h[2]) * 16 + HexValue(h[3]) == n
  {
    var h := Hex4(n);
    assert n / 4096 == 0 && n / 256 % 16 == 0;
    HexDigitValue(n / 16 % 16);
    HexDigitValue(n % 16);
  }

  /** Reading one escaped character back gives the character. */
  lemma UnescapeChar(c: char, rest: string)
    ensures Unescape(EscapeChar(c) + rest) == [c] + Unescape(rest)
  {
    var t := EscapeChar(c) + rest;
    if !NeedsEscape(c) {
      assert t[1..] == rest;
    } else if |EscapeChar(c)| == 2 {
      assert t[2..] == rest;
    } else {
      Hex4Value(c as nat);
      assert t[2..6] == Hex4(c as nat);
      assert t[6..] == rest;
    }
  }

  /** A JSON parser reads back exactly the string that was escaped. */
  lemma {:induction false} EscapeRoundTrip(s: string)
    ensures Unescape(Escaped(s)) == s
  {
    if s != [] {
      EscapeRoundTrip(s[1..]);
      UnescapeChar(s[0], Escaped(s[1..]));
    }
  }

  // ------------------------------------------------------------ literals

  /**
   * The texts of the date, temporal and floating-point writers, of a Date
   * timestamp, and what Throwable.printStackTrace prints for an exception
   * (given by its text).
   */
  datatype Formats = Formats(date: JValue -> string, float: JValue -> string, timestamp: int -> string,
                             stackTrace: string -> string)

  function Quoted(t: string): string {
    "\"" + t + "\""
  }

  /** writeString: the escaped toString in quotes. */
  function StringLiteral(s: string): string {
    Quoted(Escaped(s))
  }

  /** A written string is a JSON string that a parser reads back as the original. */
  lemma StringLiteralReadsBack(s: string)
    ensures var r := StringLiteral(s);
      |r| >= 2 && r[0] == '"' && r[|r| - 1] == '"' && StringBody(r[1..|r| - 1]) && Unescape(r[1..|r| - 1]) == s
  {
    var r := StringLiteral(s);
    assert r[1..|r| - 1] == Escaped(s);
    EscapedIsStringBody(s);
    EscapeRoundTrip(s);
  }

  /**
   * writeLiteral of a payload: null is `null`; each registered class has its
   * writer; every other class, boxed Boolean included (only the primitive
   * boolean class is registered), falls back to the quoted, escaped toString.
   */
  function WriteJValue(v: JValue, f: Formats): string {
    match v
    case JNull => "null"
    case JStr(s) => StringLiteral(s)
    case JInt(i) => IntToString(i)
    case JBoxed(b, t) =>
      if b == CharacterBox then StringLiteral(t)
      else if b == ByteBox || b == ShortBox || b == LongBox then t
      else if b == FloatBox || b == DoubleBox then f.float(v)
      else if b == DateBox || b == LocalDateBox || b == LocalDateTimeBox || b == ZonedDateTimeBox then Quoted(f.date(v))
      else StringLiteral(t)
    case _ => StringLiteral(ToString(v))
  }

  /** Booleans arrive boxed, so they are written as strings. */
  lemma BooleanQuoted(b: bool, f: Formats)
    ensures WriteJValue(JBool(b), f) == (if b then "\"true\"" else "\"false\"")
  {
    var t := if b then "true" else "false";
    assert ToString(JBool(b)) == t;
    assert Clean(t);
    EscapedUnchanged(t);
  }

  /** writeLiteral of a property value; the `quote` flag never changes what is written. */
  function WriteValue(v: Value, f: Formats): string
    decreases v, 1
  {
    match v
    case Scalar(p) => WriteJValue(p, f)
    case Sequence(es) => "[" + Join(ElementsJson(es, f), ",") + "]"
    case Structure(ps, tag) => "{" + Join(TagJson(tag, f) + MembersJson(ps, f), ",") + "}"
    case Dictionary(es) => "{" + Join(EntriesJson(es, f), ",") + "}"
  }

  function ElementsJson(es: seq<Value>, f: Formats): (r: seq<string>)
    ensures |r| == |es|
    decreases es, 0
  {
    seq(|es|, i requires 0 <= i < |es| => WriteValue(es[i], f))
  }

  /** The "_typeTag" member, present when the tag is neither null nor empty. */
  function TagJson(tag: Option<string>, f: Formats): (r: seq<string>)
    ensures |r| <= 1
  {
    if tag.Some? && tag.value != "" then [StringLiteral("_typeTag") + ":" + StringLiteral(tag.value)] else []
  }

  function MembersJson(ps: seq<Property>, f: Formats): (r: seq<string>)
    ensures |r| == |ps|
    decreases ps, 0
  {
    seq(|ps|, i requires 0 <= i < |ps| => StringLiteral(ps[i].name) + ":" + WriteValue(ps[i].value, f))
  }

  /** Keys go through the same literal writer as values, so an Integer key is written bare. */
  function EntriesJson(es: seq<Entry>, f: Formats): (r: seq<string>)
    ensures |r| == |es|
    decreases es, 0
  {
    seq(|es|, i requires 0 <= i < |es| => EntryJson(es[i], f))
  }

  function EntryJson(e: Entry, f: Formats): string
    decreases e, 0
  {
    WriteJValue(e.key, f) + ":" + WriteValue(e.value, f)
  }

  /** A dictionary with an Integer key is written with the number as its key, which JSON does not allow. */
  lemma IntegerKeyBare(f: Formats)
    ensures WriteValue(Dictionary([Entry(JInt(1), Scalar(JStr("a")))]), f) == "{1:\"a\"}"
  {
    var es := [Entry(JInt(1), Scalar(JStr("a")))];
    assert Clean("a");
    EscapedUnchanged("a");
    assert StringLiteral("a") == "\"a\"";
    assert IntToString(1) == "1";
    assert EntryJson(es[0], f) == "1:\"a\"";
    assert EntriesJson(es, f) == ["1:\"a\""];
  }

  /** The delimiter loop of the writers: each text after "," once one was written. */
  method JoinLoop(texts: seq<string>) returns (out: string)
    ensures out == Join(texts, ",")
  {
    out := "";
    var delim := "";
    for i := 0 to |texts|
      invariant delim == if i == 0 then "" else ","
      invariant out == Join(texts[..i], ",")
    {
      JoinStep(texts, ",", i);
      out := out + delim;
      delim := ",";
      out := out + texts[i];
    }
    assert texts[..|texts|] == texts;
  }

  /** writeSequence. */
  method WriteSequence(es: seq<Value>, f: Formats) returns (out: string)
    ensures out == WriteValue(Sequence(es), f)
    ensures es == [] ==> out == "[]"
  {
    var items := JoinLoop(ElementsJson(es, f));
    out := "[" + items + "]";
  }

  /** writeDictionary, over the map's iteration order `es`. */
  method WriteDictionary(es: seq<Entry>, f: Formats) returns (out: string)
    ensures out == WriteValue(Dictionary(es), f)
    ensures es == [] ==> out == "{}"
  {
    var items := JoinLoop(EntriesJson(es, f));
    out := "{" + items + "}";
  }

  /** writeStructure: the tag member, when there is one, then the properties, "," between. */
  method WriteStructure(ps: seq<Property>, tag: Option<string>, f: Formats) returns (out: string)
    ensures out == WriteValue(Structure(ps, tag), f)
    ensures (tag.None? || tag == Some("")) && ps == [] ==> out == "{}"
  {
    var items := JoinLoop(TagJson(tag, f) + MembersJson(ps, f));
    out := "{" + items + "}";
  }

  /** writeLiteral dispatched on the kind of value. */
  method WriteLiteral(v: Value, f: Formats) returns (out: string)
    ensures out == WriteValue(v, f)
  {
    match v
    case Scalar(p) => out := WriteJValue(p, f);
    case Sequence(es) => out := WriteSequence(es, f);
    case Structure(ps, tag) => out := WriteStructure(ps, tag, f);
    case Dictionary(es) => out := WriteDictionary(es, f);
  }

  // ------------------------------------------------------------ format

  /** writeJsonProperty without the delimiter: the name, written as it is, then the literal. */
  function Member(name: string, text: string): string {
    "\"" + name + "\":" + text
  }

  /** The JsonFormatter's settings. */
  datatype Settings = Settings(omitEnclosingObject: bool, closingDelimiter: Option<string>, renderMessage: bool)

  /** The properties in the map's iteration order: every name once. */
  ghost predicate IsOrder(order: seq<string>, props: map<string, Value>) {
    (forall n :: n in order <==> n in props)
    && forall i, j :: 0 <= i < j < |order| ==> order[i] != order[j]
  }

  /** The Properties object: each property's name as it is, then its value. */
  function PropertiesJson(props: map<string, Value>, order: seq<string>, f: Formats): (r: seq<string>)
    requires forall n :: n in order ==> n in props
    ensures |r| == |order|
  {
    seq(|order|, i requires 0 <= i < |order| => Member(order[i], WriteValue(props[order[i]], f)))
  }

  /**
   * The members of the event object in the order format writes them:
   * Timestamp, Level and MessageTemplate always; Message when the settings
   * ask for it; Exception when there is one; Properties when there are any.
   * Renderings are collected and then cleared, so they never appear.
   */
  function Members(e: EventData, s: Settings, order: seq<string>, f: Formats): (r: seq<(string, string)>)
    requires IsOrder(order, e.properties)
  {
    Fixed(e, f) + MessagePart(e, s) + ExceptionPart(e, f) + PropertiesPart(e, order, f)
  }

  function Fixed(e: EventData, f: Formats): seq<(string, string)> {
    [("Timestamp", Quoted(f.timestamp(e.timestamp))),
     ("Level", StringLiteral(Name(e.level))),
     ("MessageTemplate", StringLiteral(e.template.text))]
  }

  function MessagePart(e: EventData, s: Settings): seq<(string, string)> {
    if s.renderMessage then [("Message", StringLiteral(RenderTokens(e.template.tokens, e.properties)))] else []
  }

  function ExceptionPart(e: EventData, f: Formats): seq<(string, string)> {
    if e.exception.Some? then [("Exception", StringLiteral(f.stackTrace(e.exception.value)))] else []
  }

  function PropertiesPart(e: EventData, order: seq<string>, f: Formats): seq<(string, string)>
    requires IsOrder(order, e.properties)
  {
    if |e.properties| != 0 then [("Properties", "{" + Join(PropertiesJson(e.properties, order, f), ",") + "}")] else []
  }

  function MemberTexts(ms: seq<(string, string)>): (r: seq<string>)
    ensures |r| == |ms|
  {
    seq(|ms|, i requires 0 <= i < |ms| => Member(ms[i].0, ms[i].1))
  }

  function Names(ms: seq<(string, string)>): (r: seq<string>)
    ensures |r| == |ms|
  {
    seq(|ms|, i requires 0 <= i < |ms| => ms[i].0)
  }

  lemma NamesAppend(a: seq<(string, string)>, b: seq<(string, string)>)
    ensures Names(a + b) == Names(a) + Names(b)
  {
  }

  /** The event's members follow the fixed order, each optional one present exactly when its condition holds. */
  lemma MembersOrder(e: EventData, s: Settings, order: seq<string>, f: Formats)
    requires IsOrder(order, e.properties)
    ensures var names := Names(Members(e, s, order, f));
      names == ["Timestamp", "Level", "MessageTemplate"]
        + (if s.renderMessage then ["Message"] else [])
        + (if e.exception.Some? then ["Exception"] else [])
        + (if |e.properties| != 0 then ["Properties"] else [])
  {
    var a, b, c, d := Fixed(e, f), MessagePart(e, s), ExceptionPart(e, f), PropertiesPart(e, order, f);
    NamesAppend(a, b);
    NamesAppend(a + b, c);
    NamesAppend(a + b + c, d);
    assert Names(a) == ["Timestamp", "Level", "MessageTemplate"];
    assert Names(b) == (if s.renderMessage then ["Message"] else []);
    assert Names(c) == (if e.exception.Some? then ["Exception"] else []);
    assert Names(d) == (if |e.properties| != 0 then ["Properties"] else []);
  }

  /** Message, Exception and Properties each appear exactly when their condition holds. */
  lemma OptionalMembers(e: EventData, s: Settings, order: seq<string>, f: Formats)
    requires IsOrder(order, e.properties)
    ensures var names := Names(Members(e, s, order, f));
      names[..3] == ["Timestamp", "Level", "MessageTemplate"]
      && ("Message" in names <==> s.renderMessage)
      && ("Exception" in names <==> e.exception.Some?)
      && ("Properties" in names <==> |e.properties| != 0)
  {
    MembersOrder(e, s, order, f);
  }

  /**
   * With an exception, the "Exception" member holds the printed stack trace
   * as a JSON string that reads back as that text.
   */
  lemma ExceptionMember(e: EventData, s: Settings, order: seq<string>, f: Formats)
    requires IsOrder(order, e.properties)
    requires e.exception.Some?
    ensures var m := StringLiteral(f.stackTrace(e.exception.value));
      ("Exception", m) in Members(e, s, order, f) && |m| >= 2 && Unescape(m[1..|m| - 1]) == f.stackTrace(e.exception.value)
  {
    var a, b, c, d := Fixed(e, f), MessagePart(e, s), ExceptionPart(e, f), PropertiesPart(e, order, f);
    assert Members(e, s, order, f) == a + b + c + d;
    assert (a + b + c + d)[|a| + |b|] == c[0];
    StringLiteralReadsBack(f.stackTrace(e.exception.value));
  }

  /**
   * format: the members joined by ",", inside braces followed by the closing
   * delimiter unless the enclosing object is omitted. A missing closing
   * delimiter throws once the closing brace is written.
   */
  function Format(e: EventData, s: Settings, order: seq<string>, f: Formats): (r: (string, Option<Failure>))
    requires IsOrder(order, e.properties)
    ensures s.omitEnclosingObject ==> r.1.None? && r.0 == Join(MemberTexts(Members(e, s, order, f)), ",")
    ensures !s.omitEnclosingObject && s.closingDelimiter.Some? ==>
      r.1.None? && r.0 == "{" + Join(MemberTexts(Members(e, s, order, f)), ",") + "}" + s.closingDelimiter.value
    ensures !s.omitEnclosingObject && s.closingDelimiter.None? ==>
      r == ("{" + Join(MemberTexts(Members(e, s, order, f)), ",") + "}", Some(NullPointer))
  {
    var body := Join(MemberTexts(Members(e, s, order, f)), ",");
    if s.omitEnclosingObject then (body, None)
    else if s.closingDelimiter.None? then ("{" + body + "}", Some(NullPointer))
    else ("{" + body + "}" + s.closingDelimiter.value, None)
  }

  /** writeProperties: ",\"Properties\":{", then each property, "," between, then "}". */
  method WriteProperties(props: map<string, Value>, order: seq<string>, f: Formats) returns (out: string)
    requires IsOrder(order, props)
    ensures out == "," + Member("Properties", "{" + Join(PropertiesJson(props, order, f), ",") + "}")
  {
    ghost var texts := PropertiesJson(props, order, f);
    out := ",\"Properties\":{";
    ghost var start := out;
    var delim := false;
    for i := 0 to |order|
      invariant delim == (i > 0)
      invariant out == start + Join(texts[..i], ",")
    {
      var literal := WriteValue(props[order[i]], f);
      assert texts[i] == Member(order[i], literal);
      var piece := WriteJsonProperty(order[i], literal, delim);
      AppendPiece(texts, i, start, out, piece);
      out := out + piece;
      delim := true;
    }
    assert texts[..|order|] == texts;
    out := out + "}";
  }

  /** One step of a delimiter loop: the next text, after "," unless it is the first. */
  lemma AppendPiece(texts: seq<string>, i: nat, start: string, out: string, piece: string)
    requires i < |texts| && out == start + Join(texts[..i], ",")
    requires piece == (if i == 0 then "" else ",") + texts[i]
    ensures out + piece == start + Join(texts[..i + 1], ",")
  {
    JoinStep(texts, ",", i);
  }

  /** writeJsonProperty: the delimiter when asked for, the quoted name as it is, ":" and the literal. */
  method WriteJsonProperty(name: string, literal: string, writeDelim: bool) returns (out: string)
    ensures out == (if writeDelim then "," else "") + Member(name, literal)
  {
    out := "";
    if writeDelim {
      out := out + ",";
    }
    out := out + "\"" + name + "\":";
    out := out + literal;
  }

  lemma JoinMembersSnoc(ms: seq<(string, string)>, m: (string, string))
    requires ms != []
    ensures Join(MemberTexts(ms + [m]), ",") == Join(MemberTexts(ms), ",") + "," + Member(m.0, m.1)
  {
    var parts := MemberTexts(ms + [m]);
    assert parts[..|parts| - 1] == MemberTexts(ms);
  }

  /** format: the opening brace, the members, then the closing brace and delimiter. */
  method FormatEvent(e: EventData, s: Settings, order: seq<string>, f: Formats) returns (out: string, failure: Option<Failure>)
    requires IsOrder(order, e.properties)
    ensures (out, failure) == Format(e, s, order, f)
  {
    var members := WriteMembers(e, s, order, f);
    if s.omitEnclosingObject {
      out := members;
    } else {
      out := "{" + members;
    }
    failure := None;
    if !s.omitEnclosingObject {
      out := out + "}";
      if s.closingDelimiter.None? {
        failure := Some(NullPointer);
        return;
      }
      out := out + s.closingDelimiter.value;
    }
  }

  /** Adding an optional member: nothing, or "," and the member. */
  lemma JoinOptional(ms: seq<(string, string)>, part: seq<(string, string)>)
    requires ms != [] && |part| <= 1
    ensures Join(MemberTexts(ms + part), ",") ==
      Join(MemberTexts(ms), ",") + (if part == [] then "" else "," + Member(part[0].0, part[0].1))
  {
    if part == [] {
      assert ms + part == ms;
    } else {
      assert part == [part[0]];
      JoinMembersSnoc(ms, part[0]);
    }
  }

  /** The text writeJsonProperty adds for an optional member. */
  function OptionalText(part: seq<(string, string)>): string
    requires |part| <= 1
  {
    if part == [] then "" else "," + Member(part[0].0, part[0].1)
  }

  /** The members format writes, one writeJsonProperty after another. */
  method WriteMembers(e: EventData, s: Settings, order: seq<string>, f: Formats) returns (out: string)
    requires IsOrder(order, e.properties)
    ensures out == Join(MemberTexts(Members(e, s, order, f)), ",")
  {
    out := WriteFixed(e, f);
    var message := WriteMessage(e, s);
    var exception := WriteException(e, f);
    var properties := "";
    if |e.properties| != 0 {
      properties := WriteProperties(e.properties, order, f);
    }
    out := out + message + exception + properties;
    ghost var a := Fixed(e, f);
    ghost var b := a + MessagePart(e, s);
    ghost var c := b + ExceptionPart(e, f);
    JoinOptional(a, MessagePart(e, s));
    JoinOptional(b, ExceptionPart(e, f));
    JoinOptional(c, PropertiesPart(e, order, f));
  }

  method WriteMessage(e: EventData, s: Settings) returns (out: string)
    ensures out == OptionalText(MessagePart(e, s))
  {
    out := "";
    if s.renderMessage {
      var message := RenderTokens(e.template.tokens, e.properties);
      out := WriteJsonProperty("Message", StringLiteral(message), true);
    }
  }

  method WriteException(e: EventData, f: Formats) returns (out: string)
    ensures out == OptionalText(ExceptionPart(e, f))
  {
    out := "";
    if e.exception.Some? {
      out := WriteJsonProperty("Exception", StringLiteral(f.stackTrace(e.exception.value)), true);
    }
  }

  /** Timestamp, Level and MessageTemplate. */
  method WriteFixed(e: EventData, f: Formats) returns (out: string)
    ensures out == Join(MemberTexts(Fixed(e, f)), ",")
  {
    var timestamp := Quoted(f.timestamp(e.timestamp));
    var level := StringLiteral(Name(e.level));
    var template := StringLiteral(e.template.text);
    ghost var texts := [Member("Timestamp", timestamp), Member("Level", level), Member("MessageTemplate", template)];
    assert MemberTexts(Fixed(e, f)) == texts;
    out := "";
    var piece := WriteJsonProperty("Timestamp", timestamp, false);
    AppendPiece(texts, 0, "", out, piece);
    out := out + piece;
    piece := WriteJsonProperty("Level", level, true);
    AppendPiece(texts, 1, "", out, piece);
    out := out + piece;
    piece := WriteJsonProperty("MessageTemplate", template, true);
    AppendPiece(texts, 2, "", out, piece);
    out := out + piece;
    assert texts[..3] == texts;
  }
}
