/**
 * Display: the values the plain-text formatter renders beside ordinary
 * property values. Casing applies the "u" and "w" formats; a
 * LiteralStringValue is a string written unquoted; a LogEventLevelValue
 * writes a level's name, shortened and padded to a token's alignment.
 */
module Display {
  import opened Wrappers
  import opened Chars
  import opened Unicode
  import opened Levels
  import opened Tokens
  import opened Padding
  import opened Values
  import opened Templates

  /* ---------------------------------------------------------------- Casing */

  /**
   * Casing.format(value, format): "u" upper-cases, "w" lower-cases, and a
   * missing or any other format leaves the value alone. Upper-casing leaves
   * no lower-case letter and changes each character only in its case.
   */
  function Casing(value: string, format: Option<string>): (r: string)
    ensures |r| == |value|
    ensures format != Some("u") && format != Some("w") ==> r == value
    ensures format == Some("u") ==>
      forall i :: 0 <= i < |r| ==> !IsLower(r[i]) && LowerChar(r[i]) == LowerChar(value[i])
    ensures format == Some("w") ==>
      forall i :: 0 <= i < |r| ==> !IsUpper(r[i]) && UpperChar(r[i]) == UpperChar(value[i])
  {
    if format.None? then value
    else if format.value == "u" then Upper(value)
    else if format.value == "w" then Lower(value)
    else value
  }

  /** Casing.format(value): the one-argument overload, which applies no format. */
  function CasingOf(value: string): (r: string)
    ensures r == value
  {
    Casing(value, None)
  }

  /** Applying a casing twice is applying it once. */
  lemma CasingIdempotent(value: string, format: Option<string>)
    ensures Casing(Casing(value, format), format) == Casing(value, format)
  {
    var once := Casing(value, format);
    var twice := Casing(once, format);
    if format == Some("u") {
      forall i | 0 <= i < |twice| ensures twice[i] == once[i] {
        assert !IsLower(once[i]);
      }
    } else if format == Some("w") {
      forall i | 0 <= i < |twice| ensures twice[i] == once[i] {
        assert !IsUpper(once[i]);
      }
    }
  }

  /* ---------------------------------------------------- LiteralStringValue */

  /** A string that renders without quotes or escapes. */
  datatype LiteralStringValue = LiteralStringValue(value: string)

  /**
   * The property values the text formatter renders: an event property, the
   * rendered message, the level, or a literal string.
   */
  datatype PropertyValue =
    | EventValue(value: Value)
    | MessageValue(template: MessageTemplate, properties: map<string, Value>)
    | LevelValue(level: Level)
    | Literal(literal: LiteralStringValue)

  /** The LiteralStringValue constructor: a null string is refused with IllegalArgumentException("value"). */
  function NewLiteral(value: Option<string>): (r: Outcome<LiteralStringValue>)
    ensures r.Ok? <==> value.Some?
    ensures r.Ok? ==> r.value.value == value.value
    ensures r.Thrown? ==> r.failure == IllegalArgument("value")
  {
    if value.None? then Thrown(IllegalArgument("value")) else Ok(LiteralStringValue(value.value))
  }

  /** LiteralStringValue.render: the string with its casing applied and nothing else. */
  function RenderLiteral(l: LiteralStringValue, format: Option<string>): (r: string)
    ensures |r| == |l.value|
    ensures format != Some("u") && format != Some("w") ==> r == l.value
  {
    Casing(l.value, format)
  }

  /** LiteralStringValue.equals: `obj` is None for null; anything but a literal is unequal. */
  predicate LiteralEquals(l: LiteralStringValue, obj: Option<PropertyValue>) {
    obj.Some? && obj.value.Literal? && l.value == obj.value.literal.value
  }

  /**
   * Java's String.hashCode: u[0]*31^(n-1) + ... + u[n-1] over the string's
   * UTF-16 code units u, in 32-bit two's complement.
   */
  function StringHash(s: string): (r: int)
    ensures IntMin <= r <= IntMax
  {
    HashUnits(Utf16(s))
  }

  /** The polynomial hash of a sequence of code units, wrapped to 32 bits at each step. */
  function HashUnits(u: seq<int>): (r: int)
    ensures IntMin <= r <= IntMax
  {
    if u == [] then 0 else Wrap32(31 * HashUnits(u[..|u| - 1]) + u[|u| - 1])
  }

  /** An int reduced modulo 2^32 into the signed 32-bit range. */
  function Wrap32(x: int): (r: int)
    ensures IntMin <= r <= IntMax
    ensures (r - x) % 0x1_0000_0000 == 0
  {
    var m := x % 0x1_0000_0000;
    if m > IntMax then m - 0x1_0000_0000 else m
  }

  /** LiteralStringValue.hashCode: the string's hash. */
  function LiteralHash(l: LiteralStringValue): (r: int)
    ensures IntMin <= r <= IntMax
  {
    StringHash(l.value)
  }

  /**
   * equals holds exactly between literals of the same string, is an
   * equivalence on literals, and equal literals hash alike.
   */
  lemma LiteralEquality(a: LiteralStringValue, b: LiteralStringValue, c: LiteralStringValue)
    ensures LiteralEquals(a, Some(Literal(b))) <==> a == b
    ensures LiteralEquals(a, Some(Literal(a)))
    ensures LiteralEquals(a, Some(Literal(b))) ==> LiteralEquals(b, Some(Literal(a)))
    ensures LiteralEquals(a, Some(Literal(b))) && LiteralEquals(b, Some(Literal(c))) ==>
      LiteralEquals(a, Some(Literal(c)))
    ensures LiteralEquals(a, Some(Literal(b))) ==> LiteralHash(a) == LiteralHash(b)
    ensures !LiteralEquals(a, None)
  {
  }

  /** A literal is never equal to a value of another kind, even one that renders the same text. */
  lemma LiteralNotScalar(s: string)
    ensures !LiteralEquals(LiteralStringValue(s), Some(EventValue(Scalar(JStr(s)))))
  {
  }

  /** Two different strings can share a hash: equals is finer than hashCode. */
  lemma HashCollision()
    ensures LiteralHash(LiteralStringValue("Aa")) == LiteralHash(LiteralStringValue("BB"))
    ensures !LiteralEquals(LiteralStringValue("Aa"), Some(Literal(LiteralStringValue("BB"))))
  {
    HashOfPair('A', 'a');
    HashOfPair('B', 'B');
    assert "Aa" == ['A', 'a'] && "BB" == ['B', 'B'];
  }

  /** A two-character string below U+10000 hashes to 31 times the first character plus the second. */
  lemma HashOfPair(a: char, b: char)
    requires (a as int) < 0x1_0000 && (b as int) < 0x1_0000
    ensures StringHash([a, b]) == 31 * (a as int) + b as int
  {
    PairUnits(a, b);
    PairHash(a as int, b as int);
  }

  lemma PairUnits(a: char, b: char)
    requires (a as int) < 0x1_0000 && (b as int) < 0x1_0000
    ensures Utf16([a, b]) == [a as int, b as int]
  {
    assert [a, b][..1] == [a] && [a][..0] == [];
  }

  lemma PairHash(x: int, y: int)
    requires 0 <= x < 0x1_0000 && 0 <= y < 0x1_0000
    ensures HashUnits([x, y]) == 31 * x + y
  {
    assert [x, y][..1] == [x] && [x][..0] == [];
    assert HashUnits([x]) == x;
  }

  /** A character beyond U+10000 hashes as its surrogate pair: "\U{1F600}" hashes to 31 * 0xD83D + 0xDE00. */
  lemma SupplementaryHash()
    ensures StringHash("\U{1F600}") == 31 * 0xD83D + 0xDE00
  {
    var s := "\U{1F600}";
    assert s[..0] == [];
    assert Utf16(s) == [0xD83D, 0xDE00];
    assert [0xD83D, 0xDE00][..1] == [0xD83D] && [0xD83D][..0] == [];
  }

  /* ---------------------------------------------------- LogEventLevelValue */

  /** The shortened names for widths 1 to 4, one row per level in ordinal order. */
  const ShortenedLevelMap: seq<seq<string>> := [
    ["V", "Vb", "Vrb", "Verb"],
    ["D", "De", "Dbg", "Dbug"],
    ["I", "In", "Inf", "Info"],
    ["W", "Wn", "Wrn", "Warn"],
    ["E", "Er", "Err", "Eror"],
    ["F", "Fa", "Ftl", "Fatl"]]

  /** Every character of `a` occurs in `b`. */
  predicate LettersFrom(a: string, b: string) {
    forall i :: 0 <= i < |a| ==> a[i] in b
  }

  /** shortLevelFor: the table's entry for the level's ordinal and the width. */
  function ShortLevelFor(l: Level, width: int): (r: string)
    requires 1 <= width <= 4
  {
    ShortenedLevelMap[Ordinal(l)][width - 1]
  }

  /**
   * Every abbreviation is exactly as wide as asked, starts with the level
   * name's initial and uses only letters of the name.
   */
  lemma ShortLevelShape(l: Level, width: int)
    requires 1 <= width <= 4
    ensures |ShortLevelFor(l, width)| == width
    ensures ShortLevelFor(l, width)[0] == Name(l)[0]
    ensures LettersFrom(ShortLevelFor(l, width), Name(l))
  {
    match l
    case Verbose => assert Name(l) == "Verbose";
    case Debug => assert Name(l) == "Debug";
    case Information => assert Name(l) == "Information";
    case Warning => assert Name(l) == "Warning";
    case Error => assert Name(l) == "Error";
    case Fatal => assert Name(l) == "Fatal";
  }

  function Min(a: int, b: int): int { if a <= b then a else b }

  /**
   * alignedValue: the full name without a positive width; the table entry
   * for widths 1 to 4; otherwise the name cut to the width. The text is the
   * name or letters taken from it in order, as wide as the width allows.
   */
  function AlignedValue(l: Level, alignment: Option<Alignment>): (r: string)
    ensures alignment.None? || alignment.value.width <= 0 ==> r == Name(l)
    ensures alignment.Some? && alignment.value.width > 0 ==>
      |r| == Min(alignment.value.width, |Name(l)|)
    ensures LettersFrom(r, Name(l))
    ensures alignment.Some? && alignment.value.width >= 5 ==> r == Name(l)[..|r|]
  {
    var name := Name(l);
    if alignment.None? || alignment.value.width <= 0 then
      name
    else if 0 < alignment.value.width < 5 then
      ShortLevelShape(l, alignment.value.width);
      ShortLevelFor(l, alignment.value.width)
    else if alignment.value.width < |name| then
      assert forall i :: 0 <= i < alignment.value.width ==> name[..alignment.value.width][i] == name[i];
      name[..alignment.value.width]
    else
      name
  }

  /** The plain render(output, format, locale): the level's name, cased, never shortened or padded. */
  function LevelText(l: Level, format: Option<string>): (r: string)
    ensures |r| == |Name(l)|
    ensures format != Some("u") && format != Some("w") ==> r == Name(l)
  {
    Padded(Casing(Name(l), format), None)
  }

  /**
   * render(output, alignment, format): the aligned value, cased, then
   * padded. With a positive width the text is exactly that wide; without
   * one it is the plain render.
   */
  function AlignedLevelText(l: Level, alignment: Option<Alignment>, format: Option<string>): (r: string)
    ensures alignment.Some? && alignment.value.width > 0 ==> |r| == alignment.value.width
    ensures alignment.None? || alignment.value.width <= 0 ==> r == LevelText(l, format)
  {
    var cased := Casing(AlignedValue(l, alignment), format);
    CasedLevelBmp(l, alignment, format);
    if alignment.None? then Padded(cased, alignment)
    else if alignment.value.width <= 0 then
      Utf16LengthBmp(cased);
      WideValueUnchanged(cased, alignment.value);
      Padded(cased, alignment)
    else
      PaddedBmp(cased, alignment.value);
      Padded(cased, alignment)
  }

  /** Level names are plain ASCII letters, so each of their characters is one code unit. */
  lemma NameBmp(l: Level)
    ensures Bmp(Name(l))
  {
    match l
    case Verbose => assert Name(l) == "Verbose";
    case Debug => assert Name(l) == "Debug";
    case Information => assert Name(l) == "Information";
    case Warning => assert Name(l) == "Warning";
    case Error => assert Name(l) == "Error";
    case Fatal => assert Name(l) == "Fatal";
  }

  /** The ASCII case mappings keep text below U+10000. */
  lemma CasingBmp(value: string, format: Option<string>)
    requires Bmp(value)
    ensures Bmp(Casing(value, format))
  {
  }

  lemma CasedLevelBmp(l: Level, alignment: Option<Alignment>, format: Option<string>)
    ensures Bmp(Casing(AlignedValue(l, alignment), format))
  {
    var v := AlignedValue(l, alignment);
    NameBmp(l);
    assert Bmp(v);
    CasingBmp(v, format);
  }

  /** Width 4 takes the table's four-letter abbreviation, cased. */
  lemma AbbreviatedLevel()
    ensures AlignedLevelText(Error, Some(Alignment(Left, 4)), Some("u")) == "EROR"
  {
    assert AlignedValue(Error, Some(Alignment(Left, 4))) == "Eror";
  }

  /** Width 5 cuts a longer name to five letters. */
  lemma TruncatedLevel()
    ensures AlignedLevelText(Information, Some(Alignment(Left, 5)), None) == "Infor"
  {
    assert AlignedValue(Information, Some(Alignment(Left, 5))) == "Infor";
  }

  /** A shorter name is kept whole and padded to the width. */
  lemma PaddedLevel()
    ensures AlignedLevelText(Error, Some(Alignment(Right, 7)), Some("w")) == "  error"
  {
    LowerCasedError(Some(Alignment(Right, 7)));
    RightPaddedError();
  }

  /** An alignment of 7 keeps "Error" whole, and "w" lower-cases it. */
  lemma LowerCasedError(alignment: Option<Alignment>)
    requires alignment == Some(Alignment(Right, 7))
    ensures Casing(AlignedValue(Error, alignment), Some("w")) == "error"
  {
    assert AlignedValue(Error, alignment) == "Error";
  }

  /** "error" right-aligned in 7 columns gets two leading spaces. */
  lemma RightPaddedError()
    ensures Padded("error", Some(Alignment(Right, 7))) == "  error"
  {
    Utf16LengthBmp("error");
    assert Spaces(2) == "  " by {
      assert Spaces(0) == "";
    }
  }
}
