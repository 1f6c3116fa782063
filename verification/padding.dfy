/** Padding.apply: writes a value padded with spaces to an alignment's width. */
module Padding {
  import opened Wrappers
  import opened Chars
  import opened Unicode
  import opened Tokens

  function Max(a: int, b: int): int { if a >= b then a else b }

  /**
   * The text Padding.apply writes: the value with width - value.length()
   * spaces before it (Right) or after it (Left), where the length counts
   * UTF-16 code units.
   */
  function Padded(value: string, alignment: Option<Alignment>): (r: string)
    ensures alignment.None? ==> r == value
    ensures alignment.Some? ==> Utf16Length(r) == Max(alignment.value.width, Utf16Length(value))
    ensures |value| <= |r|
    ensures alignment.Some? && alignment.value.direction == Right ==>
      r[|r| - |value|..] == value && forall k :: 0 <= k < |r| - |value| ==> r[k] == ' '
    ensures alignment.Some? && alignment.value.direction == Left ==>
      r[..|value|] == value && forall k :: |value| <= k < |r| ==> r[k] == ' '
  {
    match alignment
    case None => value
    case Some(a) =>
      var pad := Spaces(a.width - Utf16Length(value));
      SpacesLength(a.width - Utf16Length(value));
      Utf16LengthAppend(pad, value);
      Utf16LengthAppend(value, pad);
      if a.direction == Right then pad + value else value + pad
  }

  /** A value at least as long as the alignment's width is written unchanged. */
  lemma WideValueUnchanged(value: string, a: Alignment)
    requires Utf16Length(value) >= a.width
    ensures Padded(value, Some(a)) == value
  {
  }

  /** Text below U+10000 is padded to the width counted in characters. */
  lemma PaddedBmp(value: string, a: Alignment)
    requires Bmp(value)
    ensures Bmp(Padded(value, Some(a)))
    ensures |Padded(value, Some(a))| == Max(a.width, |value|)
  {
    var r := Padded(value, Some(a));
    Utf16LengthBmp(value);
    if a.direction == Right {
      assert forall k :: |r| - |value| <= k < |r| ==> r[k] == r[|r| - |value|..][k - (|r| - |value|)];
    }
    Utf16LengthBmp(r);
  }

  /**
   * A character beyond U+FFFF takes two of the width's columns: right-aligned
   * to 3, "\U{1F600}" gets one space.
   */
  lemma SupplementaryPadding()
    ensures Padded("\U{1F600}", Some(Alignment(Right, 3))) == " \U{1F600}"
  {
    var s := "\U{1F600}";
    assert s[..0] == [];
    assert Utf16Length(s) == 2;
    assert Spaces(1) == " " by {
      assert Spaces(0) == "";
    }
  }

  /** Padding.apply: spaces are written one at a time before (Right) or after (Left) the value. */
  method Apply(value: string, alignment: Option<Alignment>) returns (out: string)
    ensures out == Padded(value, alignment)
  {
    out := "";
    if alignment.None? {
      out := out + value;
      return;
    }
    var pad := alignment.value.width - Utf16Length(value);
    if alignment.value.direction == Right {
      var i := 0;
      while i < pad
        invariant 0 <= i <= Max(pad, 0)
        invariant out == Spaces(i)
      {
        out := out + " ";
        i := i + 1;
      }
      assert out == Spaces(pad);
    }
    out := out + value;
    if alignment.value.direction == Left {
      var i := 0;
      while i < pad
        invariant 0 <= i <= Max(pad, 0)
        invariant out == value + Spaces(i)
      {
        out := out + " ";
        i := i + 1;
      }
      assert out == value + Spaces(pad);
    }
  }
}
