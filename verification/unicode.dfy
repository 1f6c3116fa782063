/**
 * Java strings as sequences of UTF-16 code units: the encoding of a string,
 * String.length(), and the facts the width and hash computations need.
 */
module Unicode {
  import opened Chars

  /** The UTF-16 code units of a string, as Java stores it. */
  function Utf16(s: string): (u: seq<int>)
    ensures |s| <= |u| <= 2 * |s|
    ensures forall k :: 0 <= k < |u| ==> 0 <= u[k] < 0x1_0000
  {
    if s == [] then [] else Utf16(s[..|s| - 1]) + CharUnits(s[|s| - 1])
  }

  /**
   * One character's UTF-16 code units: itself below U+10000, otherwise a
   * high surrogate and a low surrogate.
   */
  function CharUnits(c: char): (u: seq<int>)
    ensures 1 <= |u| <= 2 && forall k :: 0 <= k < |u| ==> 0 <= u[k] < 0x1_0000
  {
    var v := c as int;
    if v < 0x1_0000 then [v]
    else
      var w := v - 0x1_0000;
      [0xD800 + w / 0x400, 0xDC00 + w % 0x400]
  }

  /**
   * The encoding is lossless: a character below U+10000 is its one unit, and
   * a surrogate pair decodes back to the character it encodes.
   */
  lemma CharUnitsDecode(c: char)
    ensures |CharUnits(c)| == 1 <==> (c as int) < 0x1_0000
    ensures |CharUnits(c)| == 1 ==> CharUnits(c)[0] == c as int
    ensures |CharUnits(c)| == 2 ==>
      0xD800 <= CharUnits(c)[0] < 0xDC00 && 0xDC00 <= CharUnits(c)[1] < 0xE000
      && 0x1_0000 + (CharUnits(c)[0] - 0xD800) * 0x400 + (CharUnits(c)[1] - 0xDC00) == c as int
  {
  }

  /** A string of characters below U+10000 is its own sequence of units. */
  lemma {:induction false} Utf16Bmp(s: string)
    requires forall i :: 0 <= i < |s| ==> (s[i] as int) < 0x1_0000
    ensures |Utf16(s)| == |s| && forall i :: 0 <= i < |s| ==> Utf16(s)[i] == s[i] as int
  {
    if s != [] {
      Utf16Bmp(s[..|s| - 1]);
    }
  }

  /**
   * String.length(): the number of UTF-16 code units, so a character beyond
   * U+FFFF counts twice.
   */
  function Utf16Length(s: string): (n: nat)
    ensures |s| <= n <= 2 * |s|
  {
    |Utf16(s)|
  }

  /** Every character lies in the Basic Multilingual Plane, below U+10000. */
  predicate Bmp(s: string) {
    forall i :: 0 <= i < |s| ==> (s[i] as int) < 0x1_0000
  }

  /** Encoding distributes over concatenation. */
  lemma {:induction false} Utf16Append(a: string, b: string)
    ensures Utf16(a + b) == Utf16(a) + Utf16(b)
    decreases |b|
  {
    if b != [] {
      var b' := b[..|b| - 1];
      assert (a + b)[..|a + b| - 1] == a + b';
      Utf16Append(a, b');
    } else {
      assert a + b == a;
    }
  }

  /** Lengths add up over concatenation. */
  lemma Utf16LengthAppend(a: string, b: string)
    ensures Utf16Length(a + b) == Utf16Length(a) + Utf16Length(b)
  {
    Utf16Append(a, b);
  }

  /** The length in code units is the number of characters exactly when every character is below U+10000. */
  lemma {:induction false} Utf16LengthBmp(s: string)
    ensures Utf16Length(s) == |s| <==> Bmp(s)
  {
    if s != [] {
      var s' := s[..|s| - 1];
      Utf16LengthBmp(s');
      CharUnitsDecode(s[|s| - 1]);
      if Bmp(s) {
        assert Bmp(s');
      } else if Bmp(s') {
        assert (s[|s| - 1] as int) >= 0x1_0000;
      }
    }
  }

  /** A run of spaces is as long in code units as in characters. */
  lemma SpacesLength(n: int)
    ensures Utf16Length(Spaces(n)) == |Spaces(n)|
  {
    Utf16LengthBmp(Spaces(n));
  }
}
