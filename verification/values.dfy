/**
 * Java runtime values as the converter sees them, and the four property
 * value kinds (ScalarValue, SequenceValue, StructureValue, DictionaryValue)
 * with their text rendering.
 */
module Values {
  import opened Wrappers
  import opened Chars

  /** A Java byte. */
  type JByte = b: int | -128 <= b < 128

  datatype Modifiers = Modifiers(isStatic: bool, isPrivate: bool, isProtected: bool)
  datatype FieldDecl = FieldDecl(name: string, mods: Modifiers)
  /**
   * A public method as Class.getMethods reports it; `returnsBoxedVoid` is a
   * declared return type of java.lang.Void (the boxed type, not `void`).
   */
  datatype MethodDecl = MethodDecl(name: string, paramCount: nat, returnsBoxedVoid: bool, isStatic: bool)

  /**
   * A class as reflection sees it: its name, whether the compiler synthesised
   * it, the declared fields of the class and of each superclass below Object
   * (the class itself first), and its public methods.
   */
  datatype ClassDesc = ClassDesc(
    name: string,
    synthetic: bool,
    fieldsByLevel: seq<seq<FieldDecl>>,
    methods: seq<MethodDecl>)

  /** How a reflected property is read: a field declared at a class level, or a getter. */
  datatype Accessor = FieldAt(level: nat, field: string) | Getter(methodName: string)

  /**
   * The built-in scalar classes other than String, Integer and Boolean,
   * which have constructors of their own in JValue.
   */
  datatype BoxClass =
    | CharacterBox | ByteBox | ShortBox | LongBox | FloatBox | DoubleBox | BigDecimalBox
    | LocalDateBox | LocalDateTimeBox | ZonedDateTimeBox | DateBox | UriBox

  function BoxClassName(b: BoxClass): string {
    match b
    case CharacterBox => "java.lang.Character"
    case ByteBox => "java.lang.Byte"
    case ShortBox => "java.lang.Short"
    case LongBox => "java.lang.Long"
    case FloatBox => "java.lang.Float"
    case DoubleBox => "java.lang.Double"
    case BigDecimalBox => "java.math.BigDecimal"
    case LocalDateBox => "java.time.LocalDate"
    case LocalDateTimeBox => "java.time.LocalDateTime"
    case ZonedDateTimeBox => "java.time.ZonedDateTime"
    case DateBox => "java.util.Date"
    case UriBox => "java.net.URI"
  }

  /**
   * A Java runtime value. Composite values carry their own toString() text,
   * since that text is user code. JBoxed holds an instance of one of the
   * built-in scalar classes; an instance of any other class that is not an
   * enum, array, Map or Iterable is a JObject. A member read that throws is
   * an accessor absent from `readings`.
   */
  datatype JValue =
    | JNull
    | JStr(s: string)
    | JInt(i: int)
    | JBool(b: bool)
    | JBoxed(box: BoxClass, text: string)
    | JEnum(cls: string, ordinal: nat, name: string)
    | JBytes(bytes: seq<JByte>)
    | JArray(cls: string, elems: seq<JValue>)
    | JMap(cls: string, entries: seq<MapEntry>, text: string)
    | JCollection(cls: string, items: seq<JValue>, text: string)
    | JIterable(cls: string, text: string)
    | JObject(desc: ClassDesc, readings: seq<Reading>, text: string)

  /** One key/value pair of a Java Map, in the map's iteration order. */
  datatype MapEntry = MapEntry(key: JValue, value: JValue)

  /** The value a member read returned. */
  datatype Reading = Reading(accessor: Accessor, value: JValue)

  const StringClass := "java.lang.String"
  const IntegerClass := "java.lang.Integer"
  const BooleanClass := "java.lang.Boolean"
  const ByteArrayClass := "[B"

  /** getClass().getName() of a non-null value. */
  function ClassName(v: JValue): string
    requires !v.JNull?
  {
    match v
    case JStr(_) => StringClass
    case JInt(_) => IntegerClass
    case JBool(_) => BooleanClass
    case JBoxed(b, _) => BoxClassName(b)
    case JEnum(c, _, _) => c
    case JBytes(_) => ByteArrayClass
    case JArray(c, _) => c
    case JMap(c, _, _) => c
    case JCollection(c, _, _) => c
    case JIterable(c, _) => c
    case JObject(d, _, _) => d.name
  }

  predicate IsArray(v: JValue) { v.JBytes? || v.JArray? }
  /** `instanceof Iterable`: every Collection, and the other Iterables. */
  predicate IsIterable(v: JValue) { v.JCollection? || v.JIterable? }

  /**
   * toString() of a non-null value. Arrays use Object.toString, whose identity
   * hash code is not modelled.
   */
  function ToString(v: JValue): string
    requires !v.JNull?
  {
    match v
    case JStr(s) => s
    case JInt(i) => IntToString(i)
    case JBool(b) => if b then "true" else "false"
    case JBoxed(_, t) => t
    case JEnum(_, _, n) => n
    case JBytes(_) => ByteArrayClass + "@"
    case JArray(c, _) => c + "@"
    case JMap(_, _, t) => t
    case JCollection(_, _, t) => t
    case JIterable(_, t) => t
    case JObject(_, _, t) => t
  }

  /** A log event property value. A Dictionary key is the payload of its ScalarValue key. */
  datatype Value =
    | Scalar(payload: JValue)
    | Sequence(elements: seq<Value>)
    | Structure(properties: seq<Property>, typeTag: Option<string>)
    | Dictionary(entries: seq<Entry>)

  /** LogEventProperty: a name and a value. */
  datatype Property = Property(name: string, value: Value)

  /** A property name is valid when some character is not a space; any other blank, a tab say, counts. */
  predicate ValidName(name: string) {
    exists i :: 0 <= i < |name| && name[i] != ' '
  }

  /** isValidName: scans for the first character that is not ' '. */
  method IsValidName(name: string) returns (valid: bool)
    ensures valid <==> ValidName(name)
  {
    for i := 0 to |name|
      invariant forall k :: 0 <= k < i ==> name[k] == ' '
    {
      if name[i] != ' ' {
        return true;
      }
    }
    return false;
  }

  /** The LogEventProperty constructor: an invalid name is rejected, the getters return the arguments. */
  function NewProperty(name: string, value: Value): (r: Outcome<Property>)
    ensures r.Ok? <==> ValidName(name)
    ensures r.Ok? ==> r.value.name == name && r.value.value == value
    ensures r.Thrown? ==> r.failure == IllegalArgument("Property name is not valid.")
  {
    if ValidName(name) then Ok(Property(name, value)) else Thrown(IllegalArgument("Property name is not valid."))
  }

  /** A dictionary entry: the payload of its ScalarValue key, and its value. */
  datatype Entry = Entry(key: JValue, value: Value)

  const NullScalar := Scalar(JNull)

  /** The parts joined with sep between neighbours. */
  function Join(parts: seq<string>, sep: string): string {
    if |parts| == 0 then ""
    else if |parts| == 1 then parts[0]
    else Join(parts[..|parts| - 1], sep) + sep + parts[|parts| - 1]
  }

  lemma JoinStep(parts: seq<string>, sep: string, i: nat)
    requires i < |parts|
    ensures Join(parts[..i + 1], sep) == Join(parts[..i], sep) + (if i == 0 then "" else sep) + parts[i]
  {
    assert parts[..i + 1][..i] == parts[..i];
  }

  /** String.replace("\"", "\\\""): every quote gets a backslash in front of it. */
  function EscapeQuotes(s: string): (r: string)
    ensures |r| >= |s|
  {
    if s == [] then ""
    else (if s[0] == '"' then "\\\"" else [s[0]]) + EscapeQuotes(s[1..])
  }

  /** Deletes the character written in front of every quote. */
  function UnescapeQuotes(s: string): string
    decreases |s|
  {
    if s == [] then ""
    else if |s| >= 2 && s[1] == '"' then "\"" + UnescapeQuotes(s[2..])
    else [s[0]] + UnescapeQuotes(s[1..])
  }

  /** ScalarValue.render for the null, string and toString branches. */
  function RenderScalar(v: JValue, format: Option<string>): (r: string)
    ensures v.JNull? ==> r == "null"
    ensures v.JStr? && format == Some("l") ==> r == v.s
    ensures v.JStr? && format != Some("l") ==>
      |r| >= 2 && r[0] == '"' && r[|r| - 1] == '"' && UnescapeQuotes(r[1..|r| - 1]) == v.s
  {
    match v
    case JNull => "null"
    case JStr(s) =>
      if format == Some("l") then s
      else
        EscapeQuotesRoundTrip(s);
        var r := "\"" + EscapeQuotes(s) + "\"";
        assert r[1..|r| - 1] == EscapeQuotes(s);
        r
    case _ => ToString(v)
  }

  /** The quoting of a string scalar loses nothing: removing the inserted backslashes restores it. */
  lemma {:induction false} EscapeQuotesRoundTrip(s: string)
    ensures UnescapeQuotes(EscapeQuotes(s)) == s
  {
    if s != [] {
      EscapeQuotesRoundTrip(s[1..]);
      var tail := EscapeQuotes(s[1..]);
      if s[0] == '"' {
        assert EscapeQuotes(s) == "\\\"" + tail;
        assert (("\\\"" + tail)[2..]) == tail;
      } else {
        assert EscapeQuotes(s) == [s[0]] + tail;
        assert ([s[0]] + tail)[1..] == tail;
        if |tail| > 0 {
          assert tail[0] != '"' by {
            if s[1..][0] == '"' { assert tail[0] == '\\'; }
          }
        }
      }
    }
  }

  /** The text of a value: LogEventPropertyValue.render(output, format). */
  function Render(v: Value, format: Option<string>): string
    decreases v, 1
  {
    match v
    case Scalar(p) => RenderScalar(p, format)
    case Sequence(es) => "[" + Join(ElementTexts(es, format), ", ") + "]"
    case Structure(ps, tag) =>
      (if tag.Some? then tag.value + " " else "") + "{ " + Join(PropertyTexts(ps, format), ", ") + " }"
    case Dictionary(es) => "[" + Join(EntryTexts(es), ", ") + "]"
  }

  function ElementTexts(es: seq<Value>, format: Option<string>): (r: seq<string>)
    ensures |r| == |es|
    decreases es, 0
  {
    seq(|es|, i requires 0 <= i < |es| => Render(es[i], format))
  }

  function PropertyTexts(ps: seq<Property>, format: Option<string>): (r: seq<string>)
    ensures |r| == |ps|
    decreases ps, 0
  {
    seq(|ps|, i requires 0 <= i < |ps| => ps[i].name + ": " + Render(ps[i].value, format))
  }

  function EntryTexts(es: seq<Entry>): (r: seq<string>)
    ensures |r| == |es|
    decreases es, 0
  {
    seq(|es|, i requires 0 <= i < |es| => EntryText(es[i]))
  }

  function EntryText(e: Entry): string
    decreases e, 0
  {
    "(" + RenderScalar(e.key, None) + ": " + Render(e.value, None) + ")"
  }

  /** SequenceValue.render: the loop writes '[' then each element after a ", " delimiter. */
  method RenderSequence(es: seq<Value>, format: Option<string>) returns (out: string)
    ensures out == Render(Sequence(es), format)
  {
    var texts := ElementTexts(es, format);
    out := "[";
    var delim := "";
    for i := 0 to |es|
      invariant delim == if i == 0 then "" else ", "
      invariant out == "[" + Join(texts[..i], ", ")
    {
      JoinStep(texts, ", ", i);
      out := out + delim;
      delim := ", ";
      out := out + Render(es[i], format);
    }
    assert texts[..|es|] == texts;
    out := out + "]";
  }

  /** StructureValue.render: optional tag and space, then "{ ", the name: value pairs, " }". */
  method RenderStructure(ps: seq<Property>, tag: Option<string>, format: Option<string>) returns (out: string)
    ensures out == Render(Structure(ps, tag), format)
  {
    out := "";
    if tag.Some? {
      out := out + tag.value;
      out := out + " ";
    }
    var body := RenderStructureBody(ps, format);
    out := out + body;
  }

  /** The braces and the property pairs of StructureValue.render. */
  method RenderStructureBody(ps: seq<Property>, format: Option<string>) returns (out: string)
    ensures out == "{ " + Join(PropertyTexts(ps, format), ", ") + " }"
  {
    out := "{ ";
    var pairs := WriteProperties(ps, format);
    out := out + pairs;
    out := out + " }";
  }

  /** The loop of StructureValue.render: each pair preceded by the delimiter, which becomes ", " after the first. */
  method WriteProperties(ps: seq<Property>, format: Option<string>) returns (out: string)
    ensures out == Join(PropertyTexts(ps, format), ", ")
  {
    ghost var texts := PropertyTexts(ps, format);
    out := "";
    var delim := "";
    for i := 0 to |ps|
      invariant delim == if i == 0 then "" else ", "
      invariant out == Join(texts[..i], ", ")
    {
      var piece := WriteProperty(ps, i, delim, format);
      assert out + piece == Join(texts[..i + 1], ", ") by {
        JoinStep(texts, ", ", i);
      }
      delim := ", ";
      out := out + piece;
    }
    assert texts[..|ps|] == texts;
  }

  /** One pass of the structure loop: the delimiter, the name, ": " and the value. */
  method WriteProperty(ps: seq<Property>, i: nat, delim: string, format: Option<string>) returns (out: string)
    requires i < |ps|
    ensures out == delim + PropertyTexts(ps, format)[i]
  {
    out := delim;
    out := out + ps[i].name;
    out := out + ": ";
    out := out + Render(ps[i].value, format);
  }

  /** DictionaryValue.render over the map's iteration order `es`; the format is never passed on. */
  method RenderDictionary(es: seq<Entry>, format: Option<string>) returns (out: string)
    ensures out == Render(Dictionary(es), format)
  {
    out := "[";
    var pairs := WriteEntries(es);
    out := out + pairs;
    out := out + "]";
  }

  /** The loop of DictionaryValue.render: each "(key: value)" preceded by ", " after the first. */
  method WriteEntries(es: seq<Entry>) returns (out: string)
    ensures out == Join(EntryTexts(es), ", ")
  {
    ghost var texts := EntryTexts(es);
    out := "";
    var delim := "(";
    for i := 0 to |es|
      invariant delim == if i == 0 then "(" else ", ("
      invariant out == Join(texts[..i], ", ")
    {
      var piece := WriteEntry(es[i], delim);
      assert out + piece == Join(texts[..i + 1], ", ") by {
        JoinStep(texts, ", ", i);
        assert texts[i] == EntryText(es[i]);
      }
      delim := ", (";
      out := out + piece;
    }
    assert texts[..|es|] == texts;
  }

  /** One pass of the dictionary loop: the delimiter (which opens the pair), key, ": ", value, ")". */
  method WriteEntry(e: Entry, delim: string) returns (out: string)
    requires delim == "(" || delim == ", ("
    ensures out == (if delim == "(" then "" else ", ") + EntryText(e)
  {
    out := delim;
    out := out + RenderScalar(e.key, None);
    out := out + ": ";
    out := out + Render(e.value, None);
    out := out + ")";
    assert delim == (if delim == "(" then "" else ", ") + "(";
  }

  /** LogEventPropertyValue.render, dispatched on the kind of value. */
  method RenderValue(v: Value, format: Option<string>) returns (out: string)
    ensures out == Render(v, format)
  {
    match v
    case Scalar(p) => out := RenderScalar(p, format);
    case Sequence(es) => out := RenderSequence(es, format);
    case Structure(ps, tag) => out := RenderStructure(ps, tag, format);
    case Dictionary(es) => out := RenderDictionary(es, format);
  }

  /** A dictionary renders the same whatever outer format it is given. */
  lemma DictionaryIgnoresFormat(es: seq<Entry>, f: Option<string>, g: Option<string>)
    ensures Render(Dictionary(es), f) == Render(Dictionary(es), g)
  {
  }

  /** A type tag is written once, followed by one space, in front of the untagged rendering. */
  lemma TaggedStructure(ps: seq<Property>, tag: string, f: Option<string>)
    ensures Render(Structure(ps, Some(tag)), f) == tag + " " + Render(Structure(ps, None), f)
  {
  }

  /** Empty composites render as their delimiters alone. */
  lemma EmptyComposites(f: Option<string>)
    ensures Render(Sequence([]), f) == "[]"
    ensures Render(Structure([], None), f) == "{  }"
    ensures Render(Dictionary([]), f) == "[]"
  {
  }

  /** StructureValue.setTypeTag: replaces the tag and keeps the property list. */
  function SetTypeTag(v: Value, tag: Option<string>): (r: Value)
    requires v.Structure?
    ensures r.Structure? && r.typeTag == tag && r.properties == v.properties
  {
    v.(typeTag := tag)
  }

  /**
   * ScalarValue.equals compares payloads by identity. Every dictionary the
   * model builds holds distinct payload objects, except that all null payloads
   * are the same; so two keys are the same key exactly when both are null.
   */
  predicate SameKey(a: JValue, b: JValue) {
    a.JNull? && b.JNull?
  }

  /** HashMap.put on a dictionary's entries: a present key keeps its slot and takes the new value. */
  function Put(es: seq<Entry>, k: JValue, v: Value): (r: seq<Entry>)
    ensures (exists i :: 0 <= i < |es| && SameKey(es[i].key, k)) ==> |r| == |es|
    ensures (forall i :: 0 <= i < |es| ==> !SameKey(es[i].key, k)) ==> r == es + [Entry(k, v)]
  {
    if es == [] then [Entry(k, v)]
    else if SameKey(es[0].key, k) then [Entry(es[0].key, v)] + es[1..]
    else [es[0]] + Put(es[1..], k, v)
  }

  /** The value stored under key k, if any. */
  function Lookup(es: seq<Entry>, k: JValue): Option<Value> {
    if es == [] then None
    else if SameKey(es[0].key, k) then Some(es[0].value)
    else Lookup(es[1..], k)
  }

  /** The DictionaryValue(Iterable) constructor: entries are put one after another. */
  function FromEntries(pairs: seq<Entry>): (r: Value)
    ensures r.Dictionary?
  {
    Dictionary(PutAll([], pairs))
  }

  function PutAll(es: seq<Entry>, pairs: seq<Entry>): seq<Entry>
    decreases |pairs|
  {
    if pairs == [] then es else PutAll(Put(es, pairs[0].key, pairs[0].value), pairs[1..])
  }

  lemma {:induction false} LookupPut(es: seq<Entry>, k: JValue, v: Value, q: JValue)
    ensures Lookup(Put(es, k, v), q) == if SameKey(k, q) then Some(v) else Lookup(es, q)
  {
    if es != [] && !SameKey(es[0].key, k) {
      LookupPut(es[1..], k, v, q);
    }
  }

  /** After the constructor, a key holds the value of the last pair that carried it. */
  lemma {:induction false} FromEntriesLastWins(es: seq<Entry>, pairs: seq<Entry>, j: nat, q: JValue)
    requires j < |pairs| && SameKey(pairs[j].key, q)
    requires forall m :: j < m < |pairs| ==> !SameKey(pairs[m].key, q)
    ensures Lookup(PutAll(es, pairs), q) == Some(pairs[j].value)
    decreases |pairs|
  {
    LookupPut(es, pairs[0].key, pairs[0].value, q);
    if j == 0 {
      KeepsLookup(Put(es, pairs[0].key, pairs[0].value), pairs[1..], q);
    } else {
      FromEntriesLastWins(Put(es, pairs[0].key, pairs[0].value), pairs[1..], j - 1, q);
    }
  }

  lemma {:induction false} KeepsLookup(es: seq<Entry>, pairs: seq<Entry>, q: JValue)
    requires forall m :: 0 <= m < |pairs| ==> !SameKey(pairs[m].key, q)
    ensures Lookup(PutAll(es, pairs), q) == Lookup(es, q)
    decreases |pairs|
  {
    if pairs != [] {
      LookupPut(es, pairs[0].key, pairs[0].value, q);
      KeepsLookup(Put(es, pairs[0].key, pairs[0].value), pairs[1..], q);
    }
  }
}
