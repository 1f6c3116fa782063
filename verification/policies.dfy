/**
 * The four scalar conversion policies the converter tries in order: the
 * simple (exact class) policy, the enum policy with its per-constant memo,
 * the byte array policy and the Boolean policy.
 */
module Policies {
  import opened Wrappers
  import opened Chars
  import opened Values

  /** ScalarConversionPolicyResult: a validity flag and the value, which may be null. */
  datatype PolicyResult = PolicyResult(isValid: bool, result: Option<Value>)

  /** A fresh result: not valid, no value. */
  const NotConverted := PolicyResult(false, None)

  // ------------------------------------------------------------ simple

  /**
   * SimpleScalarConversionPolicy: valid exactly when the value's own class is
   * one of the scalar types, and then the value itself is wrapped. The
   * isPrimitive test never holds for the class of an object.
   */
  function TrySimple(scalarTypes: set<string>, v: JValue): (r: PolicyResult)
    requires !v.JNull?
    ensures r.isValid <==> ClassName(v) in scalarTypes
    ensures r.isValid ==> r.result == Some(Scalar(v))
    ensures !r.isValid ==> r == NotConverted
  {
    if ClassName(v) in scalarTypes then PolicyResult(true, Some(Scalar(v))) else NotConverted
  }

  // ------------------------------------------------------------ enum

  /** The two values are the same enum constant: same class, same ordinal. */
  predicate SameConstant(a: JValue, b: JValue) {
    a.JEnum? && b.JEnum? && a.cls == b.cls && a.ordinal == b.ordinal
  }

  /** EnumScalarConversionPolicy with its memo of one ScalarValue per enum class and ordinal. */
  class EnumScalarPolicy {
    var values: map<string, map<nat, Value>>

    /** Every memoised value wraps the constant of its class and ordinal. */
    ghost predicate Valid()
      reads this
    {
      forall c | c in values :: forall o | o in values[c] ::
        values[c][o].Scalar? && values[c][o].payload.JEnum?
        && values[c][o].payload.cls == c && values[c][o].payload.ordinal == o
    }

    constructor ()
      ensures Valid() && values == map[]
    {
      values := map[];
    }

    /** The memoised value for the constant's class and ordinal, if any. */
    function Memo(v: JValue): (r: Option<Value>)
      requires v.JEnum?
      reads this
      ensures r.Some? <==> v.cls in values && v.ordinal in values[v.cls]
    {
      if v.cls in values && v.ordinal in values[v.cls] then Some(values[v.cls][v.ordinal]) else None
    }

    /**
     * tryConvertToScalar: a non-enum is not converted and the memo is left
     * alone; an enum constant always converts, to the value memoised for its
     * class and ordinal, which is created on first use and never replaced.
     */
    method TryConvert(v: JValue) returns (r: PolicyResult)
      requires Valid() && !v.JNull?
      modifies this
      ensures Valid()
      ensures !v.JEnum? ==> r == NotConverted && values == old(values)
      ensures v.JEnum? ==> r.isValid && r.result.Some? && r.result.value.Scalar?
                           && SameConstant(r.result.value.payload, v)
      ensures v.JEnum? && old(Memo(v)).Some? ==> r.result == old(Memo(v)) && values == old(values)
      ensures v.JEnum? && old(Memo(v)).None? ==>
        r.result == Some(Scalar(v))
        && values == old(values)[v.cls := (if v.cls in old(values) then old(values)[v.cls] else map[])[v.ordinal := Scalar(v)]]
      ensures forall c | c in old(values) :: c in values && forall o | o in old(values)[c] ::
        o in values[c] && values[c][o] == old(values)[c][o]
    {
      if !v.JEnum? {
        return NotConverted;
      }
      var enumValues: map<nat, Value>;
      if v.cls in values {
        enumValues := values[v.cls];
      } else {
        enumValues := map[];
        values := values[v.cls := enumValues];
      }
      var resultValue: Value;
      if v.ordinal in enumValues {
        resultValue := enumValues[v.ordinal];
      } else {
        resultValue := Scalar(v);
        enumValues := enumValues[v.ordinal := resultValue];
        values := values[v.cls := enumValues];
      }
      r := PolicyResult(true, Some(resultValue));
    }
  }

  // ------------------------------------------------------------ byte arrays

  const MaximumByteArrayLength := 1024

  /** The unsigned value %X prints for a byte: a negative byte has 256 added. */
  function Unsigned(b: JByte): (u: nat)
    ensures u < 256
    ensures u == (if b < 0 then b + 256 else b)
  {
    if b < 0 then b + 256 else b
  }

  /** '0'-'9' and 'A'-'F'. */
  predicate IsHexDigit(c: char) {
    '0' <= c <= '9' || 'A' <= c <= 'F'
  }

  /** The upper-case hexadecimal digit of a value below 16. */
  function HexDigit(d: nat): (c: char)
    requires d < 16
    ensures IsHexDigit(c)
  {
    if d < 10 then ('0' as int + d) as char else ('A' as int + d - 10) as char
  }

  /** String.format("%02X", b): two upper-case hexadecimal digits. */
  function Hex2(b: JByte): (r: string)
    ensures |r| == 2
    ensures IsHexDigit(r[0]) && IsHexDigit(r[1])
  {
    var u := Unsigned(b);
    [HexDigit(u / 16), HexDigit(u % 16)]
  }

  /** The bytes written as two hexadecimal digits each, in order. */
  function HexOf(bs: seq<JByte>): (r: string)
    ensures |r| == 2 * |bs|
  {
    if bs == [] then "" else HexOf(bs[..|bs| - 1]) + Hex2(bs[|bs| - 1])
  }

  /** The description of an array longer than the maximum: its first 16 bytes in hex, then its length. */
  function Preview(bs: seq<JByte>): string
    requires |bs| >= 16
  {
    HexOf(bs[..16]) + "... (" + IntToString(|bs|) + " bytes)"
  }

  /** ByteArrayScalarConversionPolicy as a value: a copy up to 1024 bytes, else the preview string. */
  function ByteArrayResult(v: JValue): PolicyResult {
    if !v.JBytes? then NotConverted
    else if |v.bytes| > MaximumByteArrayLength then PolicyResult(true, Some(Scalar(JStr(Preview(v.bytes)))))
    else PolicyResult(true, Some(Scalar(JBytes(v.bytes))))
  }

  /** tryConvertToScalar: builds the preview or copies the array element by element. */
  method TryConvertBytes(v: JValue) returns (r: PolicyResult)
    ensures r == ByteArrayResult(v)
  {
    r := NotConverted;
    if v.JBytes? {
      var arr := v.bytes;
      if |arr| > MaximumByteArrayLength {
        var description := HexPreview(arr);
        r := PolicyResult(true, Some(Scalar(JStr(description))));
      } else {
        var clone := new JByte[|arr|];
        for i := 0 to |arr|
          invariant clone[..i] == arr[..i]
        {
          clone[i] := arr[i];
        }
        assert clone[..] == arr;
        r := PolicyResult(true, Some(Scalar(JBytes(clone[..]))));
      }
    }
  }

  /** The description loop: sixteen hex pairs, then the length suffix. */
  method HexPreview(arr: seq<JByte>) returns (description: string)
    requires |arr| > MaximumByteArrayLength
    ensures description == Preview(arr)
  {
    description := "";
    for i := 0 to 16
      invariant description == HexOf(arr[..i])
    {
      assert arr[..i + 1][..i] == arr[..i];
      description := description + Hex2(arr[i]);
    }
    description := description + "... (" + IntToString(|arr|) + " bytes)";
  }

  /** The value of an upper-case hexadecimal digit; 0 for any other character. */
  function HexValue(c: char): (d: nat)
    ensures d < 16
  {
    if '0' <= c <= '9' then c as int - '0' as int
    else if 'A' <= c <= 'F' then c as int - 'A' as int + 10
    else 0
  }

  lemma HexDigitValue(d: nat)
    requires d < 16
    ensures HexValue(HexDigit(d)) == d
  {
  }

  /** The signed byte of an unsigned value below 256. */
  function Signed(u: nat): JByte
    requires u < 256
  {
    if u >= 128 then u - 256 else u
  }

  /** The byte a pair of hex digits stands for. */
  function PairValue(hi: char, lo: char): JByte {
    Signed(HexValue(hi) * 16 + HexValue(lo))
  }

  /** Reads hex pairs back as signed bytes, from the end; a lone leading character is ignored. */
  function Unhex(s: string): seq<JByte>
    decreases |s|
  {
    if |s| < 2 then [] else Unhex(s[..|s| - 2]) + [PairValue(s[|s| - 2], s[|s| - 1])]
  }

  /** Every character of a hex rendering is an upper-case hex digit. */
  lemma {:induction false} HexOfDigits(bs: seq<JByte>)
    ensures forall k :: 0 <= k < |HexOf(bs)| ==> IsHexDigit(HexOf(bs)[k])
  {
    if bs != [] {
      HexOfDigits(bs[..|bs| - 1]);
    }
  }

  /** One pair reads back as the byte it was written from. */
  lemma Hex2RoundTrip(b: JByte)
    ensures PairValue(Hex2(b)[0], Hex2(b)[1]) == b
  {
    var u := Unsigned(b);
    HexDigitValue(u / 16);
    HexDigitValue(u % 16);
  }

  /** Appending one pair appends its byte to what is read back. */
  lemma UnhexAppend(a: string, b: JByte)
    ensures Unhex(a + Hex2(b)) == Unhex(a) + [b]
  {
    var s := a + Hex2(b);
    assert s[..|s| - 2] == a;
    assert s[|s| - 2] == Hex2(b)[0] && s[|s| - 1] == Hex2(b)[1];
    Hex2RoundTrip(b);
    assert Unhex(s) == Unhex(a) + [PairValue(Hex2(b)[0], Hex2(b)[1])];
  }

  /** The hex rendering loses nothing: reading it back gives the bytes. */
  lemma {:induction false} HexRoundTrip(bs: seq<JByte>)
    ensures Unhex(HexOf(bs)) == bs
  {
    if bs != [] {
      var init := bs[..|bs| - 1];
      var last := bs[|bs| - 1];
      assert bs == init + [last];
      var h := HexOf(init);
      assert HexOf(bs) == h + Hex2(last);
      HexRoundTrip(init);
      UnhexAppend(h, last);
    }
  }

  /**
   * A long array's preview is exactly 32 hex digits, which read back as its
   * first 16 bytes, followed by "... (N bytes)".
   */
  lemma PreviewShape(bs: seq<JByte>)
    requires |bs| > MaximumByteArrayLength
    ensures |Preview(bs)| == 32 + |"... ("| + |IntToString(|bs|)| + |" bytes)"|
    ensures forall k :: 0 <= k < 32 ==> IsHexDigit(Preview(bs)[k])
    ensures Unhex(Preview(bs)[..32]) == bs[..16]
    ensures Preview(bs)[32..] == "... (" + IntToString(|bs|) + " bytes)"
  {
    HexRoundTrip(bs[..16]);
    HexOfDigits(bs[..16]);
    assert Preview(bs)[..32] == HexOf(bs[..16]);
  }

  /** Arrays up to the maximum are copied whole; only byte arrays are accepted. */
  lemma ByteArrayCopies(v: JValue)
    ensures ByteArrayResult(v).isValid <==> v.JBytes?
    ensures v.JBytes? && |v.bytes| <= MaximumByteArrayLength ==>
      ByteArrayResult(v).result == Some(Scalar(JBytes(v.bytes)))
    ensures v.JBytes? && |v.bytes| > MaximumByteArrayLength ==>
      ByteArrayResult(v).result.Some? && ByteArrayResult(v).result.value.payload.JStr?
  {
  }

  // ------------------------------------------------------------ Boolean

  /**
   * BooleanScalarConversionPolicy: valid exactly for a boxed Boolean, but
   * the chosen constant is only kept in a local, so the result never carries
   * a value.
   */
  function TryBoolean(v: JValue): (r: PolicyResult)
    requires !v.JNull?
    ensures r.isValid <==> v.JBool?
    ensures r.result == None
  {
    PolicyResult(v.JBool?, None)
  }
}
