/**
 * MessageTemplateParser: a character scanner that splits a template into
 * text and property tokens. Specification functions (TextRun, PropertyAt,
 * TokensFrom) state what each scanning loop computes; the methods are the
 * loops themselves, proved against them.
 */
module Parser {
  import opened Wrappers
  import opened Chars
  import opened Tokens
  import opened Templates
  import Values

  predicate IsPunctuation(c: char) {
    c == ',' || c == '.' || c == '!' || c == '?' || c == ':' || c == ';'
  }
  predicate ValidInDestructuringHint(c: char) { c == '@' || c == '$' }
  predicate ValidInPropertyName(c: char) { IsLetterOrDigit(c) || c == '_' }
  predicate ValidInAlignment(c: char) { IsDigit(c) || c == '-' }
  predicate ValidInFormat(c: char) {
    c != '}' && (IsLetterOrDigit(c) || IsPunctuation(c) || c == ' ' || c == '-')
  }
  predicate ValidInPropertyTag(c: char) {
    ValidInDestructuringHint(c) || ValidInPropertyName(c) || ValidInFormat(c) || c == ':'
  }

  predicate AllValidInName(s: string) { forall k :: 0 <= k < |s| ==> ValidInPropertyName(s[k]) }
  predicate AllValidInFormat(s: string) { forall k :: 0 <= k < |s| ==> ValidInFormat(s[k]) }
  predicate AllValidInAlignment(s: string) { forall k :: 0 <= k < |s| ==> ValidInAlignment(s[k]) }
  predicate AllValidInTag(s: string) { forall k :: 0 <= k < |s| ==> ValidInPropertyTag(s[k]) }

  /** tryGetDestructuringHint. */
  function HintOf(c: char): (h: Hint)
    ensures h == Destructure <==> c == '@'
    ensures h == Stringify <==> c == '$'
  {
    if c == '@' then Destructure else if c == '$' then Stringify else Default
  }

  // ---------------------------------------------------------------- text runs

  /**
   * The text run parseTextToken scans from i: the index where it stops and
   * the text it accumulates. It stops at the end of input or at a '{' that
   * is not followed by another '{'.
   */
  function TextRun(s: string, i: nat): (r: (nat, string))
    requires i <= |s|
    ensures i <= r.0 <= |s|
    ensures r.0 < |s| ==> s[r.0] == '{' && !(r.0 + 1 < |s| && s[r.0 + 1] == '{')
    decreases |s| - i
  {
    if i == |s| then (i, "")
    else if s[i] == '{' then
      if i + 1 < |s| && s[i + 1] == '{' then
        var r := TextRun(s, i + 1); (r.0, "{" + r.1)
      else (i, "")
    else if s[i] == '}' && i + 1 < |s| && s[i + 1] == '}' then
      var r := TextRun(s, i + 2); (r.0, "}" + r.1)
    else
      var r := TextRun(s, i + 1); (r.0, [s[i]] + r.1)
  }

  /** Each "}}" pair, read left to right, becomes one '}'; every other character is kept. */
  function CollapseClosing(t: string): string
    decreases |t|
  {
    if t == [] then ""
    else if |t| >= 2 && t[0] == '}' && t[1] == '}' then "}" + CollapseClosing(t[2..])
    else [t[0]] + CollapseClosing(t[1..])
  }

  /**
   * What a text run keeps: the consumed characters with "}}" collapsed to '}'.
   * Every '{' it consumes is followed by another '{', and that second '{' is
   * consumed on its own (so it is read again, not skipped).
   */
  lemma {:induction false} TextRunKeeps(s: string, i: nat)
    requires i <= |s|
    ensures TextRun(s, i).1 == CollapseClosing(s[i..TextRun(s, i).0])
    ensures forall k :: i <= k < TextRun(s, i).0 && s[k] == '{' ==> k + 1 < |s| && s[k + 1] == '{'
    decreases |s| - i
  {
    var e := TextRun(s, i).0;
    if i == |s| {
    } else if s[i] == '{' {
      if i + 1 < |s| && s[i + 1] == '{' {
        TextRunKeeps(s, i + 1);
        assert s[i..e] == "{" + s[i + 1..e];
        assert CollapseClosing(s[i..e]) == "{" + CollapseClosing(s[i + 1..e]) by {
          assert s[i..e][1..] == s[i + 1..e];
        }
      }
    } else if s[i] == '}' && i + 1 < |s| && s[i + 1] == '}' {
      TextRunKeeps(s, i + 2);
      assert s[i..e][2..] == s[i + 2..e];
    } else {
      TextRunKeeps(s, i + 1);
      assert s[i..e][1..] == s[i + 1..e];
      if e > i + 1 {
        assert s[i..e][1] == s[i + 1];
      }
    }
  }

  /** One character of a text run: it is kept, and a "}}" pair is read as one. */
  lemma TextRunStep(s: string, i: nat)
    requires i < |s| && (s[i] != '{' || (i + 1 < |s| && s[i + 1] == '{'))
    ensures var j := if s[i] == '}' && i + 1 < |s| && s[i + 1] == '}' then i + 2 else i + 1;
      j <= |s| && TextRun(s, i) == (TextRun(s, j).0, [s[i]] + TextRun(s, j).1)
  {
  }

  /** Text gathered so far, then one more character, then the rest of the run. */
  lemma TextRunCarry(s: string, first: nat, from: nat, i: nat, before: string, nc: char)
    requires first <= from <= i <= |s|
    requires TextRun(s, first) == (TextRun(s, from).0, before + TextRun(s, from).1)
    requires TextRun(s, from) == (TextRun(s, i).0, [nc] + TextRun(s, i).1)
    ensures TextRun(s, first) == (TextRun(s, i).0, (before + [nc]) + TextRun(s, i).1)
  {
    assert before + ([nc] + TextRun(s, i).1) == (before + [nc]) + TextRun(s, i).1;
  }

  /** parseTextToken: the do-while loop over startAt, accumulating into `accum`. */
  method ParseTextToken(s: string, startAt: nat) returns (next: nat, token: Token)
    requires startAt < |s|
    ensures next == TextRun(s, startAt).0
    ensures token == TextToken(TextRun(s, startAt).1, startAt)
  {
    var first := startAt;
    var i := startAt;
    var accum := "";
    assert accum + TextRun(s, i).1 == TextRun(s, i).1;
    while true
      invariant first <= i < |s|
      invariant TextRun(s, first) == (TextRun(s, i).0, accum + TextRun(s, i).1)
      decreases |s| - i
    {
      ghost var before := accum;
      ghost var from := i;
      var nc := s[i];
      if nc == '{' {
        if i + 1 < |s| && s[i + 1] == '{' {
          accum := accum + [nc];
        } else {
          break;
        }
      } else {
        accum := accum + [nc];
        if nc == '}' {
          if i + 1 < |s| && s[i + 1] == '}' {
            i := i + 1;
          }
        }
      }
      TextRunStep(s, from);
      i := i + 1;
      TextRunCarry(s, first, from, i, before, nc);
      if !(i < |s|) {
        break;
      }
    }
    next, token := i, TextToken(accum, first);
  }

  // ------------------------------------------------------------ property tags

  /** Where the scan of tag-valid characters starting at i stops. */
  function TagEnd(s: string, i: nat): (e: nat)
    requires i <= |s|
    ensures i <= e <= |s|
    ensures AllValidInTag(s[i..e])
    ensures e == |s| || !ValidInPropertyTag(s[e])
    decreases |s| - i
  {
    if i == |s| || !ValidInPropertyTag(s[i]) then i else TagEnd(s, i + 1)
  }

  /** trySplitTagContent's result when it is valid: the name with its hint, the format and the alignment text. */
  datatype Split = Split(nameAndHint: string, format: Option<string>, alignment: Option<string>)

  /** trySplitTagContent: None where the Java method reports an invalid split. */
  function TrySplitTagContent(c: string): (r: Option<Split>)
    ensures r.Some? ==> |r.value.nameAndHint| <= |c| && c[..|r.value.nameAndHint|] == r.value.nameAndHint
    ensures r.Some? && r.value.alignment.Some? ==>
      r.value.alignment.value != [] && |r.value.nameAndHint| < |c| && c[|r.value.nameAndHint|] == ','
    ensures r.Some? && r.value.format.Some? ==>
      0 < |r.value.format.value| < |c| && c[|c| - |r.value.format.value| - 1] == ':'
      && c[|c| - |r.value.format.value|..] == r.value.format.value
  {
    var fd := IndexOf(c, ':');
    var ad := IndexOf(c, ',');
    if fd == -1 && ad == -1 then Some(Split(c, None, None))
    else if ad == -1 || (fd != -1 && ad > fd) then
      Some(Split(c[..fd], if fd == |c| - 1 then None else Some(c[fd + 1..]), None))
    else if fd == -1 then
      if ad == |c| - 1 then None else Some(Split(c[..ad], None, Some(c[ad + 1..])))
    else if ad == fd - 1 then None
    else Some(Split(c[..ad], if fd == |c| - 1 then None else Some(c[fd + 1..]), Some(c[ad + 1..fd])))
  }

  /**
   * When ':' comes before every ',' (or there is no ','), there is no
   * alignment; the name is what precedes the first ':' and the format is the
   * rest, or null when the rest is empty.
   */
  lemma SplitColonFirst(c: string, fd: nat)
    requires fd < |c| && c[fd] == ':' && forall k :: 0 <= k < fd ==> c[k] != ':' && c[k] != ','
    ensures TrySplitTagContent(c) == Some(Split(c[..fd], if fd == |c| - 1 then None else Some(c[fd + 1..]), None))
  {
    assert IndexOf(c, ':') == fd;
    var ad := IndexOf(c, ',');
    assert ad == -1 || ad > fd;
  }

  /** A ',' that ends the content, with no ':' anywhere, invalidates the tag. */
  lemma SplitTrailingComma(c: string)
    requires |c| > 0 && c[|c| - 1] == ','
    requires forall k :: 0 <= k < |c| ==> c[k] != ':'
    requires forall k :: 0 <= k < |c| - 1 ==> c[k] != ','
    ensures TrySplitTagContent(c) == None
  {
  }

  /** A first ',' immediately before the first ':' invalidates the tag. */
  lemma SplitCommaBeforeColon(c: string, ad: nat)
    requires ad + 1 < |c| && c[ad] == ',' && c[ad + 1] == ':'
    requires forall k :: 0 <= k < ad ==> c[k] != ':' && c[k] != ','
    ensures TrySplitTagContent(c) == None
  {
  }

  datatype AlignmentParse = InvalidAlignment | AlignmentNumberFormat | Aligned(alignment: Alignment)

  /**
   * The alignment checks of parsePropertyToken: only digits and '-', no '-'
   * after index 0, Integer.parseInt of the digits (which throws for "-" alone
   * and past the int range), and a non-zero width.
   */
  function ParseAlignment(al: string): AlignmentParse {
    if !AllValidInAlignment(al) then InvalidAlignment
    else
      var lastDash := LastIndexOf(al, '-');
      if lastDash > 0 then InvalidAlignment
      else match ParseInt32(if lastDash == -1 then al else al[1..])
        case None => AlignmentNumberFormat
        case Some(w) =>
          if w == 0 then InvalidAlignment
          else Aligned(Alignment(if lastDash == -1 then Right else Left, w))
  }

  /**
   * The alignment rules: an accepted alignment is an optional leading '-'
   * (Left; otherwise Right) followed by digits whose value is a non-zero int.
   */
  lemma AlignmentRules(al: string)
    requires al != []
    ensures var digits := if al[0] == '-' then al[1..] else al;
      ParseAlignment(al).Aligned? <==>
        AllDigits(digits) && digits != [] && 0 < DigitsValue(digits) <= IntMax
    ensures ParseAlignment(al).Aligned? ==>
      var digits := if al[0] == '-' then al[1..] else al;
      ParseAlignment(al).alignment ==
        Alignment(if al[0] == '-' then Left else Right, DigitsValue(digits))
  {
    var digits := if al[0] == '-' then al[1..] else al;
    var lastDash := LastIndexOf(al, '-');
    if AllDigits(digits) {
      assert forall k :: 0 <= k < |al| ==> ValidInAlignment(al[k]) by {
        forall k | 0 <= k < |al| ensures ValidInAlignment(al[k]) {
          if al[0] == '-' && k > 0 { assert al[k] == digits[k - 1]; }
        }
      }
      if al[0] == '-' {
        assert lastDash == 0 by {
          forall k | 0 < k < |al| ensures al[k] != '-' { assert al[k] == digits[k - 1]; }
        }
      } else {
        assert lastDash == -1;
      }
    }
    if ParseAlignment(al).Aligned? {
      assert lastDash == 0 <==> al[0] == '-';
      forall k | 0 <= k < |digits| ensures IsDigit(digits[k]) {
        var j := if al[0] == '-' then k + 1 else k;
        assert al[j] == digits[k];
        assert ValidInAlignment(al[j]);
      }
    }
  }

  /**
   * The token parsePropertyToken builds for a closed tag whose raw text is
   * `raw` (braces included), starting at `first`.
   */
  function DecodeTag(raw: string, first: int): (r: Outcome<Token>)
    requires |raw| >= 2
    ensures r.Ok? ==> r.value.startIndex == first
    ensures r.Ok? && r.value.TextToken? ==> r.value.text == raw
    ensures r.Ok? && r.value.PropertyToken? ==> r.value.rawText == raw
    ensures r.Ok? && r.value.PropertyToken? ==>
      (r.value.hint == Destructure <==> raw[1] == '@') && (r.value.hint == Stringify <==> raw[1] == '$')
  {
    var content := raw[1..|raw| - 1];
    var text := Ok(TextToken(raw, first));
    if |content| == 0 || !ValidInPropertyTag(content[0]) then text
    else match TrySplitTagContent(content)
      case None => text
      case Some(sp) =>
        if sp.nameAndHint == [] then Thrown(StringIndexOutOfBounds)
        else
          var hint := HintOf(sp.nameAndHint[0]);
          var name := if hint != Default then sp.nameAndHint[1..] else sp.nameAndHint;
          if name == [] || !ValidInPropertyName(name[0]) then text
          else if !AllValidInName(name) then text
          else if sp.format.Some? && !AllValidInFormat(sp.format.value) then text
          else if sp.alignment.None? then Ok(PropertyToken(name, raw, sp.format, None, hint, first))
          else match ParseAlignment(sp.alignment.value)
            case InvalidAlignment => text
            case AlignmentNumberFormat => Thrown(NumberFormat)
            case Aligned(a) => Ok(PropertyToken(name, raw, sp.format, Some(a), hint, first))
  }

  /**
   * parsePropertyToken's result from a '{' at `first`: the index after the
   * token and the token. An unclosed run becomes a text token of exactly the
   * scanned characters; a closed tag is decoded by DecodeTag.
   */
  function PropertyAt(s: string, first: nat): (r: Outcome<(nat, Token)>)
    requires first < |s|
    ensures r.Ok? ==> first < r.value.0 <= |s| && r.value.1.startIndex == first
    ensures r.Ok? ==> SourceText(r.value.1) == s[first..r.value.0]
  {
    var e := TagEnd(s, first + 1);
    if e == |s| || s[e] != '}' then Ok((e, TextToken(s[first..e], first)))
    else AfterTag(DecodeTag(s[first..e + 1], first), e)
  }

  /** A tag decoded up to its '}' at `e`: the token and the index after the '}', or the failure decoding threw. */
  function AfterTag(d: Outcome<Token>, e: nat): Outcome<(nat, Token)> {
    match d
    case Ok(t) => Ok((e + 1, t))
    case Thrown(f) => Thrown(f)
  }

  /** PropertyAt where the scan stops at `e` on anything but '}': the text read so far. */
  lemma OpenTagAt(s: string, first: nat, e: nat)
    requires first < |s| && e == TagEnd(s, first + 1)
    requires e == |s| || s[e] != '}'
    ensures PropertyAt(s, first) == Ok((e, TextToken(s[first..e], first)))
  {
  }

  /** PropertyAt at a tag closed by the '}' at `e`: the decoded tag, and the index after its '}'. */
  lemma ClosedTagAt(s: string, first: nat, e: nat, d: Outcome<Token>)
    requires first < |s| && e == TagEnd(s, first + 1)
    requires e < |s| && s[e] == '}'
    requires d == DecodeTag(s[first..e + 1], first)
    ensures PropertyAt(s, first) == AfterTag(d, e)
  {
    assert s[first..e + 1] == s[first..TagEnd(s, first + 1) + 1];
  }

  /** The template text a token was read from: its text, or its raw tag text. */
  function SourceText(t: Token): string {
    if t.TextToken? then t.text else t.rawText
  }

  /** A tag whose content is empty is kept as text, braces included. */
  lemma EmptyTagIsText(first: int)
    ensures DecodeTag("{}", first) == Ok(TextToken("{}", first))
  {
  }

  /** A name part that is empty before the hint is removed makes `charAt(0)` throw. */
  lemma EmptyNameThrows()
    ensures DecodeTag("{:x}", 0) == Thrown(StringIndexOutOfBounds)
    ensures DecodeTag("{,5}", 0) == Thrown(StringIndexOutOfBounds)
  {
    EmptyNameBeforeFormat();
    EmptyNameBeforeAlignment();
  }

  /** "{:x}": the name part before ':' is empty. */
  lemma EmptyNameBeforeFormat()
    ensures DecodeTag("{:x}", 0) == Thrown(StringIndexOutOfBounds)
  {
    var raw := "{:x}";
    assert raw[1..|raw| - 1] == ":x";
    SplitColonFirst(":x", 0);
    assert ":x"[..0] == "" && ":x"[1..] == "x";
    EmptyNameSplit(raw, Split("", Some("x"), None));
  }

  /** "{,5}": the name part before ',' is empty. */
  lemma EmptyNameBeforeAlignment()
    ensures DecodeTag("{,5}", 0) == Thrown(StringIndexOutOfBounds)
  {
    var raw := "{,5}";
    assert raw[1..|raw| - 1] == ",5";
    assert IndexOf(",5", ':') == -1 && IndexOf(",5", ',') == 0;
    assert ",5"[..0] == "" && ",5"[1..] == "5";
    EmptyNameSplit(raw, Split("", None, Some("5")));
  }

  /** A tag whose content splits with an empty name part throws. */
  lemma EmptyNameSplit(raw: string, sp: Split)
    requires |raw| >= 3 && ValidInPropertyTag(raw[1])
    requires TrySplitTagContent(raw[1..|raw| - 1]) == Some(sp) && sp.nameAndHint == []
    ensures DecodeTag(raw, 0) == Thrown(StringIndexOutOfBounds)
  {
  }

  /** A name, format or alignment with a character outside its class turns the tag back into text. */
  lemma InvalidPartsAreText(raw: string, first: int)
    requires |raw| >= 2
    requires var content := raw[1..|raw| - 1];
      content != [] && TrySplitTagContent(content).Some? && TrySplitTagContent(content).value.nameAndHint != []
    requires var sp := TrySplitTagContent(raw[1..|raw| - 1]).value;
      var name := if HintOf(sp.nameAndHint[0]) != Default then sp.nameAndHint[1..] else sp.nameAndHint;
      !AllValidInName(name) || (sp.format.Some? && !AllValidInFormat(sp.format.value))
    ensures DecodeTag(raw, first) == Ok(TextToken(raw, first))
  {
  }

  /** parsePropertyToken: the scan loop, then the checks on the tag's parts. */
  method ParsePropertyToken(s: string, startAt: nat) returns (r: Outcome<(nat, Token)>)
    requires startAt < |s|
    ensures r == PropertyAt(s, startAt)
  {
    var first := startAt;
    var i := startAt + 1;
    while i < |s| && ValidInPropertyTag(s[i])
      invariant first + 1 <= i <= |s|
      invariant TagEnd(s, first + 1) == TagEnd(s, i)
      decreases |s| - i
    {
      i := i + 1;
    }
    assert i == TagEnd(s, first + 1);
    if i == |s| || s[i] != '}' {
      OpenTagAt(s, first, i);
      return Ok((i, TextToken(s[first..i], first)));
    }
    var next := i + 1;
    var token := DecodeTagText(s[first..next], first);
    ClosedTagAt(s, first, i, token);
    if token.Thrown? {
      return Thrown(token.failure);
    }
    return Ok((next, token.value));
  }

  /** The checks parsePropertyToken makes on a closed tag's raw text. */
  method DecodeTagText(rawText: string, first: int) returns (r: Outcome<Token>)
    requires |rawText| >= 2
    ensures r == DecodeTag(rawText, first)
  {
    var tagContent := rawText[1..|rawText| - 1];
    var text := Ok(TextToken(rawText, first));
    if |tagContent| == 0 || !ValidInPropertyTag(tagContent[0]) {
      return text;
    }
    var split := TrySplitTagContent(tagContent);
    if split.None? {
      return text;
    }
    var propertyName := split.value.nameAndHint;
    var format := split.value.format;
    var alignment := split.value.alignment;
    if |propertyName| == 0 {
      return Thrown(StringIndexOutOfBounds);
    }
    var destructuring := HintOf(propertyName[0]);
    if destructuring != Default {
      propertyName := propertyName[1..];
    }
    if propertyName == [] || !ValidInPropertyName(propertyName[0]) {
      return text;
    }
    var ok := AllMatch(propertyName, ValidInPropertyName);
    if !ok {
      return text;
    }
    if format.Some? {
      ok := AllMatch(format.value, ValidInFormat);
      if !ok {
        return text;
      }
    }
    if alignment.None? {
      return Ok(PropertyToken(propertyName, rawText, format, None, destructuring, first));
    }
    var parsed := CheckAlignment(alignment.value);
    match parsed
    case InvalidAlignment => return text;
    case AlignmentNumberFormat => return Thrown(NumberFormat);
    case Aligned(a) => return Ok(PropertyToken(propertyName, rawText, format, Some(a), destructuring, first));
  }

  /** The per-character validation loops of parsePropertyToken. */
  method AllMatch(s: string, valid: char -> bool) returns (ok: bool)
    ensures ok <==> forall k :: 0 <= k < |s| ==> valid(s[k])
  {
    for k := 0 to |s|
      invariant forall j :: 0 <= j < k ==> valid(s[j])
    {
      if !valid(s[k]) {
        return false;
      }
    }
    return true;
  }

  /** The alignment branch of parsePropertyToken. */
  method CheckAlignment(al: string) returns (r: AlignmentParse)
    ensures r == ParseAlignment(al)
  {
    var ok := AllMatch(al, ValidInAlignment);
    if !ok {
      return InvalidAlignment;
    }
    var lastDash := LastIndexOf(al, '-');
    if lastDash > 0 {
      return InvalidAlignment;
    }
    var width := ParseInt32(if lastDash == -1 then al else al[1..]);
    if width.None? {
      return AlignmentNumberFormat;
    }
    if width.value == 0 {
      return InvalidAlignment;
    }
    return Aligned(Alignment(if lastDash == -1 then Right else Left, width.value));
  }

  // ------------------------------------------------------------- tokenizing

  /** The tokens `tokenize` appends from index i on: a text run, then a property token, repeated. */
  function TokensFrom(s: string, i: nat): (r: Outcome<seq<Token>>)
    requires i < |s|
    decreases |s| - i
  {
    var run := TextRun(s, i);
    var head := RunHead(s, i);
    if run.0 == |s| then Ok(head)
    else match PropertyAt(s, run.0)
      case Thrown(f) => Thrown(f)
      case Ok(p) =>
        if p.0 == |s| then Ok(head + [p.1])
        else match TokensFrom(s, p.0)
          case Thrown(f) => Thrown(f)
          case Ok(rest) => Ok(head + [p.1] + rest)
  }

  /** The text token tokenize appends for the run at i, when that run is not empty. */
  function RunHead(s: string, i: nat): seq<Token>
    requires i <= |s|
  {
    var run := TextRun(s, i);
    if run.0 > i then [TextToken(run.1, i)] else []
  }

  /** tokenize: the empty template is a single empty text token with start index -1. */
  function Tokenize(s: string): Outcome<seq<Token>> {
    if s == "" then Ok([TextToken("", -1)]) else TokensFrom(s, 0)
  }

  function Prepend(ts: seq<Token>, o: Outcome<seq<Token>>): Outcome<seq<Token>> {
    match o
    case Ok(rest) => Ok(ts + rest)
    case Thrown(f) => Thrown(f)
  }

  // One round of tokenize's loop, stated on the tokens gathered so far, one exit at a time.

  lemma StepAtEnd(s: string, i: nat, tokens: seq<Token>)
    requires i < |s| && TextRun(s, i).0 == |s|
    ensures Prepend(tokens, TokensFrom(s, i)) == Ok(tokens + RunHead(s, i))
  {
  }

  lemma StepThrows(s: string, i: nat, tokens: seq<Token>)
    requires i < |s| && TextRun(s, i).0 < |s| && PropertyAt(s, TextRun(s, i).0).Thrown?
    ensures Prepend(tokens, TokensFrom(s, i)) == Thrown(PropertyAt(s, TextRun(s, i).0).failure)
  {
  }

  lemma StepLastProperty(s: string, i: nat, tokens: seq<Token>)
    requires i < |s| && TextRun(s, i).0 < |s| && PropertyAt(s, TextRun(s, i).0).Ok?
    requires PropertyAt(s, TextRun(s, i).0).value.0 == |s|
    ensures Prepend(tokens, TokensFrom(s, i)) ==
      Ok(tokens + RunHead(s, i) + [PropertyAt(s, TextRun(s, i).0).value.1])
  {
    var p := PropertyAt(s, TextRun(s, i).0).value;
    assert tokens + (RunHead(s, i) + [p.1]) == tokens + RunHead(s, i) + [p.1];
  }

  lemma StepContinues(s: string, i: nat, tokens: seq<Token>)
    requires i < |s| && TextRun(s, i).0 < |s| && PropertyAt(s, TextRun(s, i).0).Ok?
    requires PropertyAt(s, TextRun(s, i).0).value.0 < |s|
    ensures var p := PropertyAt(s, TextRun(s, i).0).value;
      Prepend(tokens, TokensFrom(s, i)) == Prepend(tokens + RunHead(s, i) + [p.1], TokensFrom(s, p.0))
  {
    var p := PropertyAt(s, TextRun(s, i).0).value;
    assert TokensFrom(s, i) == Prepend(RunHead(s, i) + [p.1], TokensFrom(s, p.0));
    PrependTwice(tokens, RunHead(s, i), [p.1], TokensFrom(s, p.0));
  }

  /** Prepending a + b to what is prepended to is prepending ts + a + b. */
  lemma PrependTwice(ts: seq<Token>, a: seq<Token>, b: seq<Token>, o: Outcome<seq<Token>>)
    ensures Prepend(ts, Prepend(a + b, o)) == Prepend(ts + a + b, o)
  {
    if o.Ok? {
      assert ts + (a + b + o.value) == ts + a + b + o.value;
    }
  }

  /** tokenize: alternates parseTextToken and parsePropertyToken until the end of the template. */
  method TokenizeTemplate(s: string) returns (r: Outcome<seq<Token>>)
    ensures r == Tokenize(s)
  {
    if s == "" {
      return Ok([TextToken("", -1)]);
    }
    var tokens: seq<Token> := [];
    var nextIndex := 0;
    assert Tokenize(s) == Prepend(tokens, TokensFrom(s, nextIndex)) by {
      match TokensFrom(s, 0)
      case Ok(ts) => assert [] + ts == ts;
      case Thrown(_) =>
    }
    while true
      invariant 0 <= nextIndex < |s|
      invariant Tokenize(s) == Prepend(tokens, TokensFrom(s, nextIndex))
      decreases |s| - nextIndex
    {
      ghost var before := tokens;
      var start := nextIndex;
      var next, token := ParseTextToken(s, nextIndex);
      if next > nextIndex {
        tokens := tokens + [token];
      }
      assert tokens == before + RunHead(s, start);
      if next == |s| {
        StepAtEnd(s, start, before);
        return Ok(tokens);
      }
      nextIndex := next;
      var result := ParsePropertyToken(s, nextIndex);
      if result.Thrown? {
        StepThrows(s, start, before);
        return Thrown(result.failure);
      }
      tokens := tokens + [result.value.1];
      if result.value.0 == |s| {
        StepLastProperty(s, start, before);
        return Ok(tokens);
      }
      StepContinues(s, start, before);
      nextIndex := result.value.0;
    }
  }

  /** MessageTemplateParser.parse: tokenize, then build the MessageTemplate. */
  function Parse(s: string): Outcome<MessageTemplate> {
    match Tokenize(s)
    case Ok(ts) => Ok(Classified(s, ts))
    case Thrown(f) => Thrown(f)
  }

  method ParseTemplate(s: string) returns (r: Outcome<MessageTemplate>, diagnostic: bool)
    ensures r == Parse(s)
    ensures diagnostic == (r.Ok? && Malformed(r.value.tokens))
  {
    var tokens := TokenizeTemplate(s);
    if tokens.Thrown? {
      return Thrown(tokens.failure), false;
    }
    var mt;
    mt, diagnostic := NewMessageTemplate(s, tokens.value);
    r := Ok(mt);
  }

  // ------------------------------------------------------------- properties

  /** Parsing the empty template yields exactly one empty text token. */
  lemma ParseEmpty()
    ensures Parse("") == Ok(MessageTemplate("", [TextToken("", -1)], Some([]), None))
  {
    NoPropertiesIsPositional("", [TextToken("", -1)]);
  }

  /** "{{" keeps both braces: the second '{' is read again and becomes a text token of its own. */
  lemma DoubledOpenBraces()
    ensures Tokenize("{{") == Ok([TextToken("{", 0), TextToken("{", 1)])
    ensures Tokenize("{{x}") == Ok([TextToken("{", 0), PropertyToken("x", "{x}", None, None, Default, 1)])
  {
    assert TextRun("{{", 1) == (1, "");
    assert "{{"[0] == '{' && "{{"[1] == '{' && "{" + "" == "{";
    assert TextRun("{{", 0) == (1, "{");
    assert PropertyAt("{{", 1) == Ok((2, TextToken("{", 1))) by {
      assert TagEnd("{{", 2) == 2;
      assert "{{"[1..2] == "{";
    }
    assert TokensFrom("{{", 0) == Ok([TextToken("{", 0)] + [TextToken("{", 1)]);
    assert [TextToken("{", 0)] + [TextToken("{", 1)] == [TextToken("{", 0), TextToken("{", 1)];
    OpenBracesThenProperty();
  }

  /** After "{{" the second '{' opens the tag "{x}". */
  lemma OpenBracesThenProperty()
    ensures Tokenize("{{x}") == Ok([TextToken("{", 0), PropertyToken("x", "{x}", None, None, Default, 1)])
  {
    var x := PropertyToken("x", "{x}", None, None, Default, 1);
    assert "{{x}"[0] == '{' && "{{x}"[1] == '{' && "{{x}"[2] == 'x';
    assert TextRun("{{x}", 0) == (1, "{") by {
      assert TextRun("{{x}", 1) == (1, "");
      assert "{" + "" == "{";
    }
    TagAfterOpenBraces();
    assert RunHead("{{x}", 0) == [TextToken("{", 0)];
    assert TokensFrom("{{x}", 0) == Ok([TextToken("{", 0)] + [x]);
    assert [TextToken("{", 0)] + [x] == [TextToken("{", 0), x];
  }

  /** The tag "{x}" at index 1 of "{{x}" is the property x. */
  lemma TagAfterOpenBraces()
    ensures PropertyAt("{{x}", 1) == Ok((4, PropertyToken("x", "{x}", None, None, Default, 1)))
  {
    assert "{{x}"[1] == '{' && "{{x}"[2] == 'x';
    assert TagEnd("{{x}", 2) == 3 by {
      assert TagEnd("{{x}", 3) == 3;
    }
    assert "{{x}"[1..4] == "{x}" && "{x}"[1..2] == "x";
    assert DecodeTag("{x}", 1) == Ok(PropertyToken("x", "{x}", None, None, Default, 1)) by {
      assert IndexOf("x", ':') == -1 && IndexOf("x", ',') == -1;
      assert TrySplitTagContent("x") == Some(Split("x", None, None));
    }
  }

  /** "}}" is one '}' and consumes both characters. */
  lemma DoubledCloseBraces()
    ensures Tokenize("}}") == Ok([TextToken("}", 0)])
    ensures Tokenize("a}}b") == Ok([TextToken("a}b", 0)])
  {
    assert TextRun("}}", 2) == (2, "");
    assert "}}"[0] == '}' && "}}"[1] == '}' && "}" + "" == "}";
    assert TextRun("}}", 0) == (2, "}");
    assert TextRun("a}}b", 4) == (4, "");
    assert "a}}b"[0] == 'a' && "a}}b"[1] == '}' && "a}}b"[2] == '}' && "a}}b"[3] == 'b';
    assert ['b'] + "" == "b" && "}" + "b" == "}b" && ['a'] + "}b" == "a}b";
    assert TextRun("a}}b", 3) == (4, "b");
    assert TextRun("a}}b", 1) == (4, "}b");
    assert TextRun("a}}b", 0) == (4, "a}b");
  }

  /** An unclosed tag keeps exactly the characters scanned after its '{'. */
  lemma UnclosedTagIsText(s: string, first: nat)
    requires first < |s|
    requires var e := TagEnd(s, first + 1); e == |s| || s[e] != '}'
    ensures PropertyAt(s, first) == Ok((TagEnd(s, first + 1), TextToken(s[first..TagEnd(s, first + 1)], first)))
  {
  }

  /** No "}}" anywhere in s. */
  predicate NoDoubleClose(s: string) {
    forall k :: 0 <= k < |s| - 1 ==> !(s[k] == '}' && s[k + 1] == '}')
  }

  lemma {:induction false} CollapseIdentity(t: string)
    requires NoDoubleClose(t)
    ensures CollapseClosing(t) == t
    decreases |t|
  {
    if t != [] {
      assert NoDoubleClose(t[1..]) by {
        forall k | 0 <= k < |t[1..]| - 1 ensures !(t[1..][k] == '}' && t[1..][k + 1] == '}') {
          assert t[1..][k] == t[k + 1] && t[1..][k + 1] == t[k + 2];
        }
      }
      CollapseIdentity(t[1..]);
    }
  }

  lemma SliceSplit(s: string, a: nat, b: nat, c: nat)
    requires a <= b <= c <= |s|
    ensures s[a..c] == s[a..b] + s[b..c]
    ensures c == |s| ==> s[a..] == s[a..b] + s[b..]
  {
  }

  lemma RunRendersItself(s: string, i: nat)
    requires i <= |s| && NoDoubleClose(s)
    ensures RenderTokens(RunHead(s, i), map[]) == s[i..TextRun(s, i).0]
  {
    var e := TextRun(s, i).0;
    TextRunKeeps(s, i);
    assert NoDoubleClose(s[i..e]) by {
      forall k | 0 <= k < |s[i..e]| - 1 ensures !(s[i..e][k] == '}' && s[i..e][k + 1] == '}') {
        assert s[i..e][k] == s[i + k] && s[i..e][k + 1] == s[i + k + 1];
      }
    }
    CollapseIdentity(s[i..e]);
    if e > i {
      assert RunHead(s, i)[..0] == [];
    }
  }

  lemma PropertyRendersItself(s: string, e: nat)
    requires e < |s| && PropertyAt(s, e).Ok?
    ensures var p := PropertyAt(s, e).value; RenderTokens([p.1], map[]) == s[e..p.0]
  {
    var p := PropertyAt(s, e).value;
    assert TokenText(p.1, map[]) == SourceText(p.1);
    assert [p.1][..0] == [];
  }

  /**
   * Nothing is lost in tokenizing a template without "}}": rendered against
   * an empty property map, its tokens give back the template itself.
   */
  lemma {:induction false} RenderWithoutProperties(s: string, i: nat)
    requires i < |s| && NoDoubleClose(s)
    requires TokensFrom(s, i).Ok?
    ensures RenderTokens(TokensFrom(s, i).value, map[]) == s[i..]
    decreases |s| - i
  {
    var e := TextRun(s, i).0;
    if e == |s| {
      RenderRunOnly(s, i);
    } else if PropertyAt(s, e).value.0 == |s| {
      RenderRunAndLast(s, i);
    } else {
      var j := PropertyAt(s, e).value.0;
      StepContinues(s, i, []);
      RenderWithoutProperties(s, j);
      RenderRunAndMore(s, i);
    }
  }

  lemma RenderRunOnly(s: string, i: nat)
    requires i < |s| && NoDoubleClose(s) && TextRun(s, i).0 == |s|
    ensures TokensFrom(s, i).Ok? && RenderTokens(TokensFrom(s, i).value, map[]) == s[i..]
  {
    RunRendersItself(s, i);
    StepAtEnd(s, i, []);
    assert [] + RunHead(s, i) == RunHead(s, i);
  }

  /** A text run and the property that closes the template. */
  lemma RenderRunAndLast(s: string, i: nat)
    requires i < |s| && NoDoubleClose(s)
    requires TextRun(s, i).0 < |s| && PropertyAt(s, TextRun(s, i).0).Ok?
    requires PropertyAt(s, TextRun(s, i).0).value.0 == |s|
    ensures TokensFrom(s, i).Ok? && RenderTokens(TokensFrom(s, i).value, map[]) == s[i..]
  {
    var e := TextRun(s, i).0;
    var head := RunHead(s, i);
    var p := PropertyAt(s, e).value;
    assert TokensFrom(s, i) == Ok(head + [p.1]) by {
      StepLastProperty(s, i, []);
      assert [] + head + [p.1] == head + [p.1];
    }
    assert RenderTokens(head + [p.1], map[]) == s[i..e] + s[e..p.0] by {
      RunRendersItself(s, i);
      PropertyRendersItself(s, e);
      RenderTokensAppend(head, [p.1], map[]);
    }
    assert s[i..e] + s[e..p.0] == s[i..] by {
      SliceSplit(s, i, e, |s|);
      assert s[e..p.0] == s[e..];
    }
  }

  /** A text run, a property, and the rest of the template that renders as itself. */
  lemma RenderRunAndMore(s: string, i: nat)
    requires i < |s| && NoDoubleClose(s)
    requires TextRun(s, i).0 < |s| && PropertyAt(s, TextRun(s, i).0).Ok?
    requires PropertyAt(s, TextRun(s, i).0).value.0 < |s|
    requires TokensFrom(s, PropertyAt(s, TextRun(s, i).0).value.0).Ok?
    requires RenderTokens(TokensFrom(s, PropertyAt(s, TextRun(s, i).0).value.0).value, map[])
             == s[PropertyAt(s, TextRun(s, i).0).value.0..]
    ensures TokensFrom(s, i).Ok? && RenderTokens(TokensFrom(s, i).value, map[]) == s[i..]
  {
    var e := TextRun(s, i).0;
    var head := RunHead(s, i);
    var p := PropertyAt(s, e).value;
    var rest := TokensFrom(s, p.0).value;
    assert TokensFrom(s, i) == Ok(head + [p.1] + rest) by {
      StepContinues(s, i, []);
      assert [] + head + [p.1] + rest == head + [p.1] + rest;
    }
    assert RenderTokens(head + [p.1] + rest, map[]) == s[i..e] + s[e..p.0] + s[p.0..] by {
      RunRendersItself(s, i);
      PropertyRendersItself(s, e);
      RenderTokensAppend(head, [p.1], map[]);
      RenderTokensAppend(head + [p.1], rest, map[]);
    }
    SliceSplit(s, i, e, p.0);
    SliceSplit(s, i, p.0, |s|);
  }

  /** The whole template, rendered with no properties, is itself when it has no "}}". */
  lemma TemplateWithoutProperties(s: string)
    requires s != [] && NoDoubleClose(s) && Tokenize(s).Ok?
    ensures RenderTokens(Tokenize(s).value, map[]) == s
  {
    RenderWithoutProperties(s, 0);
  }
}
