/** Message template tokens (TextToken, PropertyToken) and the alignment and hint data they carry. */
module Tokens {
  import opened Wrappers
  import opened Chars

  datatype Direction = Left | Right
  datatype Alignment = Alignment(direction: Direction, width: int)
  /** The Destructuring hint of a property tag: none, '$' or '@'. */
  datatype Hint = Default | Stringify | Destructure

  datatype Token =
    | TextToken(text: string, startIndex: int)
    | PropertyToken(
        name: string,
        rawText: string,
        format: Option<string>,
        alignment: Option<Alignment>,
        hint: Hint,
        startIndex: int)

  /**
   * The `position` field the PropertyToken constructor derives: the name
   * parsed by Integer.parseInt, kept only when it is not negative.
   */
  function Position(name: string): (r: Option<nat>)
    ensures r.Some? <==> ParseInt32(name).Some? && ParseInt32(name).value >= 0
    ensures r.Some? ==> r.value == ParseInt32(name).value
  {
    match ParseInt32(name)
    case Some(n) => if n >= 0 then Some(n) else None
    case None => None
  }

  /** getIsPositional. */
  predicate IsPositional(t: Token) {
    t.PropertyToken? && Position(t.name).Some?
  }

  /** getLength: the text of a text token, the raw tag text of a property token. */
  function Length(t: Token): nat {
    match t
    case TextToken(text, _) => |text|
    case PropertyToken(_, raw, _, _, _, _) => |raw|
  }

  /** equals: text tokens compare their text, property tokens their raw text. */
  predicate Equal(a: Token, b: Token) {
    (a.TextToken? && b.TextToken? && a.text == b.text)
    || (a.PropertyToken? && b.PropertyToken? && a.rawText == b.rawText)
  }

  /**
   * For a name made of letters, digits and '_' (the only names the parser
   * produces), the token is positional exactly when the name is all digits and
   * fits in an int; a longer number stays a named property.
   */
  lemma PositionOfParsedName(name: string)
    requires forall i :: 0 <= i < |name| ==> IsLetterOrDigit(name[i]) || name[i] == '_'
    ensures Position(name).Some? <==> name != [] && AllDigits(name) && DigitsValue(name) <= IntMax
    ensures Position(name).Some? ==> Position(name).value == DigitsValue(name)
  {
    if name != [] && !AllDigits(name) {
      assert name[0] != '-' && name[0] != '+';
      assert ParseInt32(name) == None;
    }
  }

  /** A sign is accepted: "-0" is position 0, while "-1" is a named property. */
  lemma SignedNames()
    ensures Position("-0") == Some(0)
    ensures Position("+7") == Some(7)
    ensures Position("-1") == None
  {
    assert ParseInt32("-0") == Some(0) by { assert "-0"[1..] == "0"; }
    assert ParseInt32("+7") == Some(7) by { assert "+7"[1..] == "7"; }
    assert ParseInt32("-1") == Some(-1) by { assert "-1"[1..] == "1"; }
  }

  /** Token equality is an equivalence relation. */
  lemma EqualIsEquivalence(a: Token, b: Token, c: Token)
    ensures Equal(a, a)
    ensures Equal(a, b) ==> Equal(b, a)
    ensures Equal(a, b) && Equal(b, c) ==> Equal(a, c)
  {
  }
}
