/**
 * PropertyValueConverter: turns a Java value into a property value under a
 * destructuring hint, trying the scalar policies, then the custom
 * destructuring policies, then the Map, Iterable/array and structure cases,
 * with children converted one level deeper through the depth limiter.
 */
module Converter {
  import opened Wrappers
  import opened Tokens
  import opened Values
  import opened Reflection
  import opened Policies

  /** The classes every converter treats as scalars. */
  const BuiltInScalarTypes: set<string> := {
    BooleanClass, BoxClassName(CharacterBox), BoxClassName(ByteBox), BoxClassName(ShortBox),
    IntegerClass, BoxClassName(LongBox), BoxClassName(FloatBox), BoxClassName(DoubleBox),
    BoxClassName(BigDecimalBox), StringClass, BoxClassName(LocalDateBox),
    BoxClassName(LocalDateTimeBox), BoxClassName(ZonedDateTimeBox), BoxClassName(DateBox),
    BoxClassName(UriBox)}

  /**
   * A custom destructuring policy: given a value, a property value or
   * nothing. Policies here do not call back into the converter.
   */
  type DestructuringPolicy = JValue -> Option<Value>

  /** The converter's configuration: the depth limit, the scalar classes and the custom policies. */
  datatype Config = Config(maxDepth: nat, scalarTypes: set<string>, policies: seq<DestructuringPolicy>)

  /** A constructed converter: its scalar classes include the built-in ones. */
  type Converter = c: Config | BuiltInScalarTypes <= c.scalarTypes
    witness Config(0, BuiltInScalarTypes, [])

  /**
   * The constructor: a negative maximum depth is rejected; the scalar classes
   * are the built-in ones and the additional ones; the custom policies are
   * kept in registration order.
   */
  method NewConverter(maxDepth: int, additionalScalarTypes: seq<string>, additionalPolicies: seq<DestructuringPolicy>)
    returns (r: Outcome<Converter>)
    ensures maxDepth < 0 <==> r == Thrown(IllegalArgument("maximumDestructuringDepth"))
    ensures r.Ok? ==> r.value.maxDepth == maxDepth
    ensures r.Ok? ==> r.value.scalarTypes == BuiltInScalarTypes + set t | t in additionalScalarTypes
    ensures r.Ok? ==> r.value.policies == additionalPolicies
  {
    if maxDepth < 0 {
      return Thrown(IllegalArgument("maximumDestructuringDepth"));
    }
    var scalarTypes := BuiltInScalarTypes;
    for i := 0 to |additionalScalarTypes|
      invariant scalarTypes == BuiltInScalarTypes + set t | t in additionalScalarTypes[..i]
    {
      assert additionalScalarTypes[..i + 1] == additionalScalarTypes[..i] + [additionalScalarTypes[i]];
      scalarTypes := scalarTypes + {additionalScalarTypes[i]};
    }
    assert additionalScalarTypes[..|additionalScalarTypes|] == additionalScalarTypes;
    var policies: seq<DestructuringPolicy> := [];
    for i := 0 to |additionalPolicies|
      invariant policies == additionalPolicies[..i]
    {
      policies := policies + [additionalPolicies[i]];
    }
    assert additionalPolicies[..|additionalPolicies|] == additionalPolicies;
    r := Ok(Config(maxDepth, scalarTypes, policies));
  }

  // ------------------------------------------------------------ sizes

  /** The number of value nodes, bytes counted one each; used to bound the recursion. */
  function Size(v: JValue): nat
    decreases v, 1
  {
    match v
    case JBytes(bs) => 1 + |bs|
    case JArray(_, es) => 1 + SizeSeq(es)
    case JCollection(_, items, _) => 1 + SizeSeq(items)
    case JMap(_, ents, _) => 1 + SizeEntries(ents)
    case JObject(_, rs, _) => 1 + SizeReadings(rs)
    case _ => 1
  }

  function SizeSeq(vs: seq<JValue>): nat
    decreases vs, 0
  {
    if vs == [] then 0 else SizeSeq(vs[..|vs| - 1]) + Size(vs[|vs| - 1])
  }

  function SizeEntries(ents: seq<MapEntry>): nat
    decreases ents, 0
  {
    if ents == [] then 0
    else SizeEntries(ents[..|ents| - 1]) + SizeEntry(ents[|ents| - 1])
  }

  function SizeEntry(e: MapEntry): nat
    decreases e, 0
  {
    Size(e.key) + Size(e.value)
  }

  function SizeReadings(rs: seq<Reading>): nat
    decreases rs, 0
  {
    if rs == [] then 0 else SizeReadings(rs[..|rs| - 1]) + SizeReading(rs[|rs| - 1])
  }

  function SizeReading(r: Reading): nat
    decreases r, 0
  {
    Size(r.value)
  }

  lemma {:induction false} SizeSeqAppend(a: seq<JValue>, b: seq<JValue>)
    ensures SizeSeq(a + b) == SizeSeq(a) + SizeSeq(b)
    decreases |b|
  {
    if b != [] {
      assert (a + b)[..|a + b| - 1] == a + b[..|b| - 1];
      SizeSeqAppend(a, b[..|b| - 1]);
    } else {
      assert a + b == a;
    }
  }

  lemma {:induction false} SizeSeqBoxedBytes(bs: seq<JByte>, n: nat)
    requires n <= |bs|
    ensures SizeSeq(BoxedBytes(bs, n)) == n
  {
    if n > 0 {
      var s := BoxedBytes(bs, n);
      assert s[..n - 1] == BoxedBytes(bs, n - 1);
      SizeSeqBoxedBytes(bs, n - 1);
    }
  }

  /**
   * Flattening never grows a value, and strictly shrinks arrays and
   * collections; only a plain Iterable flattens to itself.
   */
  lemma {:induction false} UnifySize(o: JValue)
    ensures SizeSeq(Unify(o)) <= Size(o)
    ensures (o.JArray? || o.JCollection?) ==> SizeSeq(Unify(o)) < Size(o)
    decreases o, 1, 0
  {
    match o
    case JNull =>
    case JBytes(bs) =>
      SizeSeqBoxedBytes(bs, |bs|);
    case JArray(_, es) =>
      UnifyArraySize(o, |es|);
      assert es[..|es|] == es;
    case JCollection(_, items, _) =>
      UnifyCollectionSize(o, |items|);
      assert items[..|items|] == items;
    case _ =>
      assert SizeSeq([o]) == SizeSeq([]) + Size(o);
  }

  lemma {:induction false} UnifyArraySize(o: JValue, n: nat)
    requires o.JArray? && n <= |o.elems|
    ensures SizeSeq(UnifyArray(o, n)) <= SizeSeq(o.elems[..n])
    decreases o, 0, n
  {
    if n > 0 {
      UnifyArraySize(o, n - 1);
      UnifySize(o.elems[n - 1]);
      SizeSeqAppend(UnifyArray(o, n - 1), Unify(o.elems[n - 1]));
      assert o.elems[..n][..n - 1] == o.elems[..n - 1];
    }
  }

  lemma {:induction false} UnifyCollectionSize(o: JValue, n: nat)
    requires o.JCollection? && n <= |o.items|
    ensures SizeSeq(UnifyCollection(o, n)) <= SizeSeq(o.items[..n])
    decreases o, 0, n
  {
    if n > 0 {
      var item := o.items[n - 1];
      UnifyCollectionSize(o, n - 1);
      if IsIterable(item) {
        UnifySize(item);
        SizeSeqAppend(UnifyCollection(o, n - 1), Unify(item));
      } else {
        SizeSeqAppend(UnifyCollection(o, n - 1), [item]);
        assert SizeSeq([item]) == SizeSeq([]) + Size(item);
      }
      assert o.items[..n][..n - 1] == o.items[..n - 1];
    }
  }

  // ------------------------------------------------------------ the policies in order

  /**
   * The scalar policies in their fixed order (simple, enum, byte array,
   * Boolean): the first valid result. The enum policy's memoised instance
   * wraps the same constant, so its value is the value itself here.
   */
  function ScalarPolicies(c: Converter, v: JValue): (r: PolicyResult)
    requires !v.JNull?
    ensures r.isValid <==> ClassName(v) in c.scalarTypes || v.JEnum? || v.JBytes?
    ensures r.isValid ==> r.result.Some? && r.result.value.Scalar?
    ensures ClassName(v) in c.scalarTypes ==> r.result == Some(Scalar(v))
  {
    var simple := TrySimple(c.scalarTypes, v);
    if simple.isValid then simple
    else if v.JEnum? then PolicyResult(true, Some(Scalar(v)))
    else if ByteArrayResult(v).isValid then ByteArrayResult(v)
    else
      // Boolean is a built-in scalar class, so the simple policy took it
      assert !TryBoolean(v).isValid;
      NotConverted
  }

  /** The custom destructuring policies in registration order: the first that answers. */
  function CustomPolicies(ps: seq<DestructuringPolicy>, v: JValue): (r: Option<Value>)
    ensures r.Some? <==> exists k :: 0 <= k < |ps| && ps[k](v).Some?
    ensures r.Some? ==> exists k :: 0 <= k < |ps| && ps[k](v) == r && forall j :: 0 <= j < k ==> ps[j](v).None?
  {
    if ps == [] then None
    else if ps[0](v).Some? then ps[0](v)
    else
      var rest := CustomPolicies(ps[1..], v);
      assert forall k :: 1 <= k < |ps| ==> ps[k] == ps[1..][k - 1];
      rest
  }

  // ------------------------------------------------------------ conversion

  /** The recursion measure's first part for converting at a depth. */
  function ConvertRank(c: Converter, depth: nat): nat
    requires c.maxDepth == 0 || depth <= c.maxDepth
  {
    if c.maxDepth == 0 then 0 else 2 * (c.maxDepth - depth) + 1
  }

  /** The recursion measure's first part for the depth limiter at a depth. */
  function ChildRank(c: Converter, depth: nat): nat
    requires c.maxDepth == 0 || depth <= c.maxDepth
  {
    if c.maxDepth == 0 then 0 else 2 * (c.maxDepth - depth)
  }

  /** A depth the converter can be called at. */
  predicate InRange(c: Converter, depth: nat) {
    depth >= 1 && (c.maxDepth == 0 || depth <= c.maxDepth)
  }

  /** The type tag of a destructured value: the class name, unless it is empty or synthetic. */
  function TypeTag(d: ClassDesc): (r: Option<string>)
    ensures r.None? <==> |d.name| == 0 || d.synthetic
    ensures r.Some? ==> r.value == d.name
  {
    if |d.name| <= 0 || d.synthetic then None else Some(d.name)
  }

  /**
   * createPropertyValue(value, destructuring, depth). A failure the Java code
   * would raise is returned as Thrown: a dictionary key that is not a scalar
   * (ClassCastException), and a plain Iterable under a maximum depth of 0,
   * which converts itself again without end (StackOverflowError).
   */
  function Convert(c: Converter, v: JValue, hint: Hint, depth: nat): Outcome<Value>
    requires InRange(c, depth)
    decreases ConvertRank(c, depth), Size(v), 0, 0
  {
    if v.JNull? then Ok(NullScalar)
    else if hint == Stringify then Ok(Scalar(JStr(ToString(v))))
    else if ScalarPolicies(c, v).isValid then Ok(ScalarPolicies(c, v).result.value)
    else if hint == Destructure && CustomPolicies(c.policies, v).Some? then Ok(CustomPolicies(c.policies, v).value)
    else if v.JMap? then
      match ConvertEntries(c, v.entries, hint, depth)
      case Thrown(f) => Thrown(f)
      case Ok(pairs) => Ok(FromEntries(pairs))
    else if IsIterable(v) || IsArray(v) then
      if v.JIterable? && c.maxDepth == 0 then Thrown(StackOverflow)
      else
        UnifySize(v);
        match ConvertElements(c, Unify(v), hint, depth)
        case Thrown(f) => Thrown(f)
        case Ok(es) => Ok(Sequence(es))
    else if hint == Destructure && v.JObject? then
      match ConvertProperties(c, Descriptor(v.desc), v.readings, depth)
      case Thrown(f) => Thrown(f)
      case Ok(ps) => Ok(Structure(ps, TypeTag(v.desc)))
    else Ok(Scalar(JStr(ToString(v))))
  }

  /** DepthLimiter.createPropertyValue: Scalar(null) at the maximum depth, else one level deeper. */
  function Child(c: Converter, v: JValue, hint: Hint, depth: nat): Outcome<Value>
    requires InRange(c, depth)
    decreases ChildRank(c, depth), Size(v), 1, 0
  {
    if depth == c.maxDepth then Ok(NullScalar) else Convert(c, v, hint, depth + 1)
  }

  /** The Iterable/array branch: each flattened element through the limiter, in order. */
  function ConvertElements(c: Converter, vs: seq<JValue>, hint: Hint, depth: nat): Outcome<seq<Value>>
    requires InRange(c, depth)
    decreases ChildRank(c, depth), SizeSeq(vs), 2, |vs|
  {
    if vs == [] then Ok([])
    else
      match ConvertElements(c, vs[..|vs| - 1], hint, depth)
      case Thrown(f) => Thrown(f)
      case Ok(es) =>
        match Child(c, vs[|vs| - 1], hint, depth)
        case Thrown(f) => Thrown(f)
        case Ok(e) => Ok(es + [e])
  }

  /**
   * The Map branch, over the map's iteration order: each key through the
   * limiter with destructuring off, cast to a scalar, then its value under
   * the current hint.
   */
  function ConvertEntries(c: Converter, ents: seq<MapEntry>, hint: Hint, depth: nat): Outcome<seq<Entry>>
    requires InRange(c, depth)
    decreases ChildRank(c, depth), SizeEntries(ents), 2, |ents|
  {
    if ents == [] then Ok([])
    else
      var k := ents[|ents| - 1].key;
      var x := ents[|ents| - 1].value;
      assert SizeEntries(ents) == SizeEntries(ents[..|ents| - 1]) + Size(k) + Size(x);
      match ConvertEntries(c, ents[..|ents| - 1], hint, depth)
      case Thrown(f) => Thrown(f)
      case Ok(pairs) =>
        match Child(c, k, Default, depth)
        case Thrown(f) => Thrown(f)
        case Ok(key) =>
          if !key.Scalar? then Thrown(ClassCast)
          else
            match Child(c, x, hint, depth)
            case Thrown(f) => Thrown(f)
            case Ok(value) => Ok(pairs + [Entry(key.payload, value)])
  }

  /** The reading of a member, if it did not throw. */
  function ReadingOf(rs: seq<Reading>, a: Accessor): (r: Option<JValue>)
    ensures r.Some? ==> Size(r.value) <= SizeReadings(rs)
    ensures r.Some? <==> exists k :: 0 <= k < |rs| && rs[k].accessor == a
  {
    if rs == [] then None
    else if rs[|rs| - 1].accessor == a then Some(rs[|rs| - 1].value)
    else
      var r := ReadingOf(rs[..|rs| - 1], a);
      assert forall k :: 0 <= k < |rs| - 1 ==> rs[..|rs| - 1][k] == rs[k];
      r
  }

  /**
   * getProperties over the descriptor's entries: each readable member becomes
   * a property converted with destructuring on; a member whose read or
   * conversion raises an Exception is skipped, while an Error propagates.
   */
  function ConvertProperties(c: Converter, d: seq<Reflected>, rs: seq<Reading>, depth: nat): Outcome<seq<Property>>
    requires InRange(c, depth)
    decreases ChildRank(c, depth), SizeReadings(rs), 2, |d|
  {
    if d == [] then Ok([])
    else
      var e := d[|d| - 1];
      match ConvertProperties(c, d[..|d| - 1], rs, depth)
      case Thrown(f) => Thrown(f)
      case Ok(ps) =>
        match ReadingOf(rs, e.accessor)
        case None => Ok(ps)
        case Some(x) =>
          match Child(c, x, Destructure, depth)
          case Thrown(f) => if f.StackOverflow? then Thrown(f) else Ok(ps)
          case Ok(value) => Ok(ps + [Property(e.alias, value)])
  }

  /** createPropertyValue(value, destructuring): a top-level conversion starts at depth 1. */
  function CreatePropertyValue(c: Converter, v: JValue, hint: Hint): Outcome<Value> {
    Convert(c, v, hint, 1)
  }

  /** createProperty(name, value, destructureObjects). */
  function CreateProperty(c: Converter, name: string, v: JValue, destructureObjects: bool): (r: Outcome<Property>)
    ensures r.Ok? <==> CreatePropertyValue(c, v, if destructureObjects then Destructure else Default).Ok? && ValidName(name)
    ensures r.Ok? ==> r.value == Property(name, CreatePropertyValue(c, v, if destructureObjects then Destructure else Default).value)
  {
    match CreatePropertyValue(c, v, if destructureObjects then Destructure else Default)
    case Thrown(f) => Thrown(f)
    case Ok(value) => NewProperty(name, value)
  }

  /**
   * The case order of createPropertyValue: null first, then Stringify, then
   * the scalar classes; a Map is a Dictionary and an object a Structure
   * (under Destructure) or its toString text (otherwise).
   */
  lemma ConversionCases(c: Converter, v: JValue, hint: Hint, depth: nat)
    requires InRange(c, depth)
    ensures v.JNull? ==> Convert(c, v, hint, depth) == Ok(NullScalar)
    ensures !v.JNull? && hint == Stringify ==> Convert(c, v, hint, depth) == Ok(Scalar(JStr(ToString(v))))
    ensures !v.JNull? && hint != Stringify && ClassName(v) in c.scalarTypes ==> Convert(c, v, hint, depth) == Ok(Scalar(v))
    ensures v.JEnum? && hint != Stringify ==> Convert(c, v, hint, depth) == Ok(Scalar(v))
    ensures (v.JMap? && ClassName(v) !in c.scalarTypes && hint != Stringify
             && (hint == Destructure ==> CustomPolicies(c.policies, v).None?)
             && Convert(c, v, hint, depth).Ok?) ==> Convert(c, v, hint, depth).value.Dictionary?
    ensures v.JObject? && ClassName(v) !in c.scalarTypes && hint == Default ==>
              Convert(c, v, hint, depth) == Ok(Scalar(JStr(ToString(v))))
    ensures (v.JObject? && ClassName(v) !in c.scalarTypes && hint == Destructure && CustomPolicies(c.policies, v).None?
             && Convert(c, v, hint, depth).Ok?) ==>
              Convert(c, v, hint, depth).value.Structure? && Convert(c, v, hint, depth).value.typeTag == TypeTag(v.desc)
  {
  }

  // ------------------------------------------------------------ the loops

  /** A failure in a prefix of the elements is the failure of the whole list. */
  lemma {:induction false} ElementsThrown(c: Converter, vs: seq<JValue>, hint: Hint, depth: nat, n: nat)
    requires InRange(c, depth) && n <= |vs|
    requires ConvertElements(c, vs[..n], hint, depth).Thrown?
    ensures ConvertElements(c, vs, hint, depth) == ConvertElements(c, vs[..n], hint, depth)
    decreases |vs| - n
  {
    if n < |vs| {
      assert vs[..n + 1][..n] == vs[..n];
      ElementsThrown(c, vs, hint, depth, n + 1);
    } else {
      assert vs[..n] == vs;
    }
  }

  /** The loop over the flattened list: each element through the limiter, stopping at a failure. */
  method ConvertSequenceLoop(c: Converter, list: seq<JValue>, hint: Hint, depth: nat) returns (r: Outcome<seq<Value>>)
    requires InRange(c, depth)
    ensures r == ConvertElements(c, list, hint, depth)
  {
    var elements: seq<Value> := [];
    for i := 0 to |list|
      invariant ConvertElements(c, list[..i], hint, depth) == Ok(elements)
    {
      assert list[..i + 1][..i] == list[..i];
      var e := Child(c, list[i], hint, depth);
      if e.Thrown? {
        ElementsThrown(c, list, hint, depth, i + 1);
        return Thrown(e.failure);
      }
      elements := elements + [e.value];
    }
    assert list[..|list|] == list;
    r := Ok(elements);
  }

  lemma {:induction false} EntriesThrown(c: Converter, ents: seq<MapEntry>, hint: Hint, depth: nat, n: nat)
    requires InRange(c, depth) && n <= |ents|
    requires ConvertEntries(c, ents[..n], hint, depth).Thrown?
    ensures ConvertEntries(c, ents, hint, depth) == ConvertEntries(c, ents[..n], hint, depth)
    decreases |ents| - n
  {
    if n < |ents| {
      assert ents[..n + 1][..n] == ents[..n];
      EntriesThrown(c, ents, hint, depth, n + 1);
    } else {
      assert ents[..n] == ents;
    }
  }

  /**
   * The forEach over the map: each key converted with destructuring off and
   * cast to a scalar, then its value under the current hint.
   */
  method ConvertMapLoop(c: Converter, ents: seq<MapEntry>, hint: Hint, depth: nat) returns (r: Outcome<seq<Entry>>)
    requires InRange(c, depth)
    ensures r == ConvertEntries(c, ents, hint, depth)
  {
    var pairs: seq<Entry> := [];
    for i := 0 to |ents|
      invariant ConvertEntries(c, ents[..i], hint, depth) == Ok(pairs)
    {
      assert ents[..i + 1][..i] == ents[..i];
      var key := Child(c, ents[i].key, Default, depth);
      if key.Thrown? {
        EntriesThrown(c, ents, hint, depth, i + 1);
        return Thrown(key.failure);
      }
      if !key.value.Scalar? {
        EntriesThrown(c, ents, hint, depth, i + 1);
        return Thrown(ClassCast);
      }
      var value := Child(c, ents[i].value, hint, depth);
      if value.Thrown? {
        EntriesThrown(c, ents, hint, depth, i + 1);
        return Thrown(value.failure);
      }
      pairs := pairs + [Entry(key.value.payload, value.value)];
    }
    assert ents[..|ents|] == ents;
    r := Ok(pairs);
  }

  lemma {:induction false} PropertiesThrown(c: Converter, d: seq<Reflected>, rs: seq<Reading>, depth: nat, n: nat)
    requires InRange(c, depth) && n <= |d|
    requires ConvertProperties(c, d[..n], rs, depth).Thrown?
    ensures ConvertProperties(c, d, rs, depth) == ConvertProperties(c, d[..n], rs, depth)
    decreases |d| - n
  {
    if n < |d| {
      assert d[..n + 1][..n] == d[..n];
      PropertiesThrown(c, d, rs, depth, n + 1);
    } else {
      assert d[..n] == d;
    }
  }

  /**
   * getProperties' loop over the descriptor: a member whose read or
   * conversion raises an Exception is skipped; an Error ends the loop.
   */
  method GetPropertiesLoop(c: Converter, d: seq<Reflected>, rs: seq<Reading>, depth: nat) returns (r: Outcome<seq<Property>>)
    requires InRange(c, depth)
    ensures r == ConvertProperties(c, d, rs, depth)
  {
    var result: seq<Property> := [];
    for i := 0 to |d|
      invariant ConvertProperties(c, d[..i], rs, depth) == Ok(result)
    {
      assert d[..i + 1][..i] == d[..i];
      var reading := ReadingOf(rs, d[i].accessor);
      if reading.None? {
        continue;
      }
      var value := Child(c, reading.value, Destructure, depth);
      if value.Thrown? {
        if value.failure.StackOverflow? {
          PropertiesThrown(c, d, rs, depth, i + 1);
          return Thrown(value.failure);
        }
        continue;
      }
      result := result + [Property(d[i].alias, value.value)];
    }
    assert d[..|d|] == d;
    r := Ok(result);
  }

  // ------------------------------------------------------------ properties

  /** Every flattened element is converted through the limiter, in order, and the list fails only if one fails. */
  lemma {:induction false} ElementsPointwise(c: Converter, vs: seq<JValue>, hint: Hint, depth: nat)
    requires InRange(c, depth)
    ensures ConvertElements(c, vs, hint, depth).Ok? <==> forall i :: 0 <= i < |vs| ==> Child(c, vs[i], hint, depth).Ok?
    ensures ConvertElements(c, vs, hint, depth).Ok? ==>
      |ConvertElements(c, vs, hint, depth).value| == |vs|
      && forall i :: 0 <= i < |vs| ==> Child(c, vs[i], hint, depth) == Ok(ConvertElements(c, vs, hint, depth).value[i])
  {
    if vs != [] {
      var init := vs[..|vs| - 1];
      ElementsPointwise(c, init, hint, depth);
      assert forall i :: 0 <= i < |init| ==> init[i] == vs[i];
    }
  }

  /**
   * Every map entry becomes an entry of the dictionary pairs, in order: the
   * payload of its converted key and its converted value.
   */
  lemma {:induction false} EntriesPointwise(c: Converter, ents: seq<MapEntry>, hint: Hint, depth: nat)
    requires InRange(c, depth)
    ensures ConvertEntries(c, ents, hint, depth).Ok? ==>
      |ConvertEntries(c, ents, hint, depth).value| == |ents|
      && forall i :: 0 <= i < |ents| ==>
           Child(c, ents[i].key, Default, depth) == Ok(Scalar(ConvertEntries(c, ents, hint, depth).value[i].key))
           && Child(c, ents[i].value, hint, depth) == Ok(ConvertEntries(c, ents, hint, depth).value[i].value)
  {
    if ents != [] {
      var init := ents[..|ents| - 1];
      EntriesPointwise(c, init, hint, depth);
      assert forall i :: 0 <= i < |init| ==> init[i] == ents[i];
    }
  }

  /**
   * A structure's properties are named after descriptor aliases, in
   * descriptor order, one per readable member at most.
   */
  lemma {:induction false} PropertiesFromDescriptor(c: Converter, d: seq<Reflected>, rs: seq<Reading>, depth: nat)
    requires InRange(c, depth)
    ensures ConvertProperties(c, d, rs, depth).Ok? ==>
      |ConvertProperties(c, d, rs, depth).value| <= |d|
      && forall k :: 0 <= k < |ConvertProperties(c, d, rs, depth).value| ==>
           exists j :: 0 <= j < |d| && d[j].alias == ConvertProperties(c, d, rs, depth).value[k].name
                       && ReadingOf(rs, d[j].accessor).Some?
  {
    var r := ConvertProperties(c, d, rs, depth);
    if d != [] && r.Ok? {
      var init := d[..|d| - 1];
      PropertiesFromDescriptor(c, init, rs, depth);
      var ps := ConvertProperties(c, init, rs, depth).value;
      forall k | 0 <= k < |r.value|
        ensures exists j :: 0 <= j < |d| && d[j].alias == r.value[k].name && ReadingOf(rs, d[j].accessor).Some?
      {
        if k < |ps| {
          assert r.value[k] == ps[k];
          var j :| 0 <= j < |init| && init[j].alias == ps[k].name && ReadingOf(rs, init[j].accessor).Some?;
          assert d[j] == init[j];
        } else {
          assert r.value[k].name == d[|d| - 1].alias;
        }
      }
    }
  }

  /** Only an Error escapes getProperties: a structure's properties never fail with an Exception. */
  lemma {:induction false} PropertiesOnlyError(c: Converter, d: seq<Reflected>, rs: seq<Reading>, depth: nat)
    requires InRange(c, depth)
    ensures ConvertProperties(c, d, rs, depth).Thrown? ==> ConvertProperties(c, d, rs, depth).failure == StackOverflow
  {
    if d != [] {
      PropertiesOnlyError(c, d[..|d| - 1], rs, depth);
    }
  }

  /** At the maximum depth every child is Scalar(null); a maximum of 0 never cuts the recursion off. */
  lemma ChildAtLimit(c: Converter, v: JValue, hint: Hint, depth: nat)
    requires InRange(c, depth)
    ensures depth == c.maxDepth ==> Child(c, v, hint, depth) == Ok(NullScalar)
    ensures c.maxDepth == 0 ==> Child(c, v, hint, depth) == Convert(c, v, hint, depth + 1)
  {
  }

  /** A Boolean is a built-in scalar: the Boolean policy is never the one that decides. */
  lemma BooleanPolicyNeverDecides(c: Converter, v: JValue)
    requires !v.JNull? && ClassName(v) !in c.scalarTypes
    ensures !TryBoolean(v).isValid
  {
  }

  /** The nesting a plain Iterable produces: k sequences around Scalar(null). */
  function Nest(k: nat): Value {
    if k == 0 then NullScalar else Sequence([Nest(k - 1)])
  }

  /**
   * A plain Iterable flattens to itself, so it is converted again one level
   * deeper until the limiter cuts it off; with a maximum of 0 it never is.
   */
  lemma {:induction false} PlainIterableNests(c: Converter, v: JValue, hint: Hint, depth: nat)
    requires v.JIterable? && ClassName(v) !in c.scalarTypes && hint != Stringify
    requires hint == Destructure ==> CustomPolicies(c.policies, v).None?
    requires InRange(c, depth)
    ensures c.maxDepth == 0 ==> Convert(c, v, hint, depth) == Thrown(StackOverflow)
    ensures c.maxDepth > 0 ==> Convert(c, v, hint, depth) == Ok(Nest(c.maxDepth - depth + 1))
    decreases if c.maxDepth == 0 then 0 else c.maxDepth - depth
  {
    if c.maxDepth > 0 {
      assert Unify(v) == [v];
      if depth < c.maxDepth {
        PlainIterableNests(c, v, hint, depth + 1);
      }
      assert Child(c, v, hint, depth) == Ok(Nest(c.maxDepth - depth));
      var vs := [v];
      assert vs[..|vs| - 1] == [] && vs[|vs| - 1] == v;
      assert ConvertElements(c, [], hint, depth) == Ok([]);
      assert [] + [Nest(c.maxDepth - depth)] == [Nest(c.maxDepth - depth)];
      assert ConvertElements(c, vs, hint, depth) == Ok([Nest(c.maxDepth - depth)]);
    }
  }

  // ------------------------------------------------------------ depth bound

  /** The value nests at most b levels: a scalar is one level, a composite one more than its parts. */
  predicate NestedWithin(v: Value, b: nat)
    decreases v, 1
  {
    b >= 1 &&
    match v
    case Scalar(_) => true
    case Sequence(es) => forall i :: 0 <= i < |es| ==> NestedWithin(es[i], b - 1)
    case Structure(ps, _) => forall i :: 0 <= i < |ps| ==> PropertyWithin(ps[i], b - 1)
    case Dictionary(es) => forall i :: 0 <= i < |es| ==> EntryWithin(es[i], b - 1)
  }

  predicate PropertyWithin(p: Property, b: nat)
    decreases p, 0
  {
    NestedWithin(p.value, b)
  }

  predicate EntryWithin(e: Entry, b: nat)
    decreases e, 0
  {
    NestedWithin(e.value, b)
  }

  lemma {:induction false} PutWithin(es: seq<Entry>, k: JValue, v: Value, b: nat)
    requires forall i :: 0 <= i < |es| ==> EntryWithin(es[i], b)
    requires NestedWithin(v, b)
    ensures forall i :: 0 <= i < |Values.Put(es, k, v)| ==> EntryWithin(Values.Put(es, k, v)[i], b)
  {
    if es != [] && !SameKey(es[0].key, k) {
      PutWithin(es[1..], k, v, b);
      assert Values.Put(es, k, v) == [es[0]] + Values.Put(es[1..], k, v);
    }
  }

  lemma {:induction false} PutAllWithin(es: seq<Entry>, pairs: seq<Entry>, b: nat)
    requires forall i :: 0 <= i < |es| ==> EntryWithin(es[i], b)
    requires forall i :: 0 <= i < |pairs| ==> EntryWithin(pairs[i], b)
    ensures forall i :: 0 <= i < |Values.PutAll(es, pairs)| ==> EntryWithin(Values.PutAll(es, pairs)[i], b)
    decreases |pairs|
  {
    if pairs != [] {
      PutWithin(es, pairs[0].key, pairs[0].value, b);
      PutAllWithin(Values.Put(es, pairs[0].key, pairs[0].value), pairs[1..], b);
    }
  }

  /**
   * With no custom policies, a value converted at a depth nests at most
   * maxDepth - depth + 2 levels: the limiter turns everything below the
   * maximum depth into Scalar(null). From the top (depth 1) that is
   * maxDepth + 1 levels.
   */
  lemma {:induction false} ConvertWithin(c: Converter, v: JValue, hint: Hint, depth: nat)
    requires c.maxDepth > 0 && c.policies == [] && InRange(c, depth)
    ensures Convert(c, v, hint, depth).Ok? ==> NestedWithin(Convert(c, v, hint, depth).value, c.maxDepth - depth + 2)
    decreases ConvertRank(c, depth), Size(v), 0, 0
  {
    var b := c.maxDepth - depth + 2;
    if v.JNull? || hint == Stringify || ScalarPolicies(c, v).isValid {
    } else if hint == Destructure && CustomPolicies(c.policies, v).Some? {
    } else if v.JMap? {
      EntriesWithin(c, v.entries, hint, depth);
      var r := ConvertEntries(c, v.entries, hint, depth);
      if r.Ok? {
        PutAllWithin([], r.value, b - 1);
        assert Convert(c, v, hint, depth) == Ok(Dictionary(Values.PutAll([], r.value)));
      }
    } else if IsIterable(v) || IsArray(v) {
      if !(v.JIterable? && c.maxDepth == 0) {
        ElementsWithin(c, Unify(v), hint, depth);
      }
    } else if hint == Destructure && v.JObject? {
      PropertiesWithin(c, Descriptor(v.desc), v.readings, depth);
    }
  }

  lemma {:induction false} ChildWithin(c: Converter, v: JValue, hint: Hint, depth: nat)
    requires c.maxDepth > 0 && c.policies == [] && InRange(c, depth)
    ensures Child(c, v, hint, depth).Ok? ==> NestedWithin(Child(c, v, hint, depth).value, c.maxDepth - depth + 1)
    decreases ChildRank(c, depth), Size(v), 1, 0
  {
    if depth != c.maxDepth {
      ConvertWithin(c, v, hint, depth + 1);
    }
  }

  lemma {:induction false} ElementsWithin(c: Converter, vs: seq<JValue>, hint: Hint, depth: nat)
    requires c.maxDepth > 0 && c.policies == [] && InRange(c, depth)
    ensures ConvertElements(c, vs, hint, depth).Ok? ==>
      forall i :: 0 <= i < |ConvertElements(c, vs, hint, depth).value| ==>
        NestedWithin(ConvertElements(c, vs, hint, depth).value[i], c.maxDepth - depth + 1)
    decreases ChildRank(c, depth), SizeSeq(vs), 2, |vs|
  {
    if vs != [] {
      ElementsWithin(c, vs[..|vs| - 1], hint, depth);
      ChildWithin(c, vs[|vs| - 1], hint, depth);
    }
  }

  lemma {:induction false} EntriesWithin(c: Converter, ents: seq<MapEntry>, hint: Hint, depth: nat)
    requires c.maxDepth > 0 && c.policies == [] && InRange(c, depth)
    ensures ConvertEntries(c, ents, hint, depth).Ok? ==>
      forall i :: 0 <= i < |ConvertEntries(c, ents, hint, depth).value| ==>
        EntryWithin(ConvertEntries(c, ents, hint, depth).value[i], c.maxDepth - depth + 1)
    decreases ChildRank(c, depth), SizeEntries(ents), 2, |ents|
  {
    if ents != [] {
      assert SizeEntries(ents) == SizeEntries(ents[..|ents| - 1]) + Size(ents[|ents| - 1].key) + Size(ents[|ents| - 1].value);
      EntriesWithin(c, ents[..|ents| - 1], hint, depth);
      ChildWithin(c, ents[|ents| - 1].value, hint, depth);
    }
  }

  lemma {:induction false} PropertiesWithin(c: Converter, d: seq<Reflected>, rs: seq<Reading>, depth: nat)
    requires c.maxDepth > 0 && c.policies == [] && InRange(c, depth)
    ensures ConvertProperties(c, d, rs, depth).Ok? ==>
      forall i :: 0 <= i < |ConvertProperties(c, d, rs, depth).value| ==>
        PropertyWithin(ConvertProperties(c, d, rs, depth).value[i], c.maxDepth - depth + 1)
    decreases ChildRank(c, depth), SizeReadings(rs), 2, |d|
  {
    if d != [] {
      PropertiesWithin(c, d[..|d| - 1], rs, depth);
      var x := ReadingOf(rs, d[|d| - 1].accessor);
      if x.Some? {
        ChildWithin(c, x.value, Destructure, depth);
      }
    }
  }

  // ------------------------------------------------------------ custom policies

  /** Two converters that differ at most in their custom destructuring policies. */
  predicate SameButPolicies(c: Converter, c2: Converter) {
    c.maxDepth == c2.maxDepth && c.scalarTypes == c2.scalarTypes
  }

  /**
   * Custom destructuring policies are consulted only under Destructure:
   * without it, nothing below a value is destructured either, so the
   * policies never change a conversion.
   */
  lemma {:induction false} PoliciesOnlyUnderDestructure(c: Converter, c2: Converter, v: JValue, hint: Hint, depth: nat)
    requires SameButPolicies(c, c2) && hint != Destructure && InRange(c, depth)
    ensures Convert(c, v, hint, depth) == Convert(c2, v, hint, depth)
    decreases ConvertRank(c, depth), Size(v), 0, 0
  {
    if v.JNull? || hint == Stringify || ScalarPolicies(c, v).isValid {
    } else if v.JMap? {
      EntriesIgnorePolicies(c, c2, v.entries, hint, depth);
    } else if IsIterable(v) || IsArray(v) {
      if !(v.JIterable? && c.maxDepth == 0) {
        UnifySize(v);
        ElementsIgnorePolicies(c, c2, Unify(v), hint, depth);
      }
    }
  }

  lemma {:induction false} ChildIgnoresPolicies(c: Converter, c2: Converter, v: JValue, hint: Hint, depth: nat)
    requires SameButPolicies(c, c2) && hint != Destructure && InRange(c, depth)
    ensures Child(c, v, hint, depth) == Child(c2, v, hint, depth)
    decreases ChildRank(c, depth), Size(v), 1, 0
  {
    if depth != c.maxDepth {
      PoliciesOnlyUnderDestructure(c, c2, v, hint, depth + 1);
    }
  }

  lemma {:induction false} ElementsIgnorePolicies(c: Converter, c2: Converter, vs: seq<JValue>, hint: Hint, depth: nat)
    requires SameButPolicies(c, c2) && hint != Destructure && InRange(c, depth)
    ensures ConvertElements(c, vs, hint, depth) == ConvertElements(c2, vs, hint, depth)
    decreases ChildRank(c, depth), SizeSeq(vs), 2, |vs|
  {
    if vs != [] {
      ElementsIgnorePolicies(c, c2, vs[..|vs| - 1], hint, depth);
      ChildIgnoresPolicies(c, c2, vs[|vs| - 1], hint, depth);
    }
  }

  lemma {:induction false} EntriesIgnorePolicies(c: Converter, c2: Converter, ents: seq<MapEntry>, hint: Hint, depth: nat)
    requires SameButPolicies(c, c2) && hint != Destructure && InRange(c, depth)
    ensures ConvertEntries(c, ents, hint, depth) == ConvertEntries(c2, ents, hint, depth)
    decreases ChildRank(c, depth), SizeEntries(ents), 2, |ents|
  {
    if ents != [] {
      var k := ents[|ents| - 1].key;
      var x := ents[|ents| - 1].value;
      assert SizeEntries(ents) == SizeEntries(ents[..|ents| - 1]) + Size(k) + Size(x);
      EntriesIgnorePolicies(c, c2, ents[..|ents| - 1], hint, depth);
      ChildIgnoresPolicies(c, c2, k, Default, depth);
      ChildIgnoresPolicies(c, c2, x, hint, depth);
    }
  }

  /**
   * Under Destructure the first custom policy that answers decides, ahead of
   * the Map, Iterable and structure cases, but after the scalar policies.
   */
  lemma CustomPolicyDecides(c: Converter, v: JValue, depth: nat, k: nat)
    requires InRange(c, depth) && !v.JNull? && !ScalarPolicies(c, v).isValid
    requires k < |c.policies| && c.policies[k](v).Some?
    requires forall j :: 0 <= j < k ==> c.policies[j](v).None?
    ensures Convert(c, v, Destructure, depth) == Ok(c.policies[k](v).value)
  {
    var r := CustomPolicies(c.policies, v);
    var m :| 0 <= m < |c.policies| && c.policies[m](v) == r && forall j :: 0 <= j < m ==> c.policies[j](v).None?;
    assert m == k;
  }
}
