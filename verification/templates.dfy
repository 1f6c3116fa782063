/**
 * MessageTemplate: the classification of a token list into positional or
 * named properties, and the rendering of tokens against a property map.
 */
module Templates {
  import opened Wrappers
  import opened Chars
  import opened Unicode
  import opened Tokens
  import opened Padding
  import opened Values

  datatype MessageTemplate = MessageTemplate(
    text: string,
    tokens: seq<Token>,
    positionalTokens: Option<seq<Token>>,
    namedTokens: Option<seq<Token>>)

  /** The property tokens of a token list, in template order. */
  function PropertyTokens(tokens: seq<Token>): (r: seq<Token>)
    ensures |r| <= |tokens|
    ensures forall i :: 0 <= i < |r| ==> r[i].PropertyToken?
  {
    if tokens == [] then []
    else
      var last := tokens[|tokens| - 1];
      PropertyTokens(tokens[..|tokens| - 1]) + (if last.PropertyToken? then [last] else [])
  }

  /** The property tokens are exactly the tokens of the list that are property tokens. */
  lemma {:induction false} PropertyTokensMembers(tokens: seq<Token>)
    ensures forall t :: t in PropertyTokens(tokens) <==> t in tokens && t.PropertyToken?
  {
    if tokens != [] {
      var init := tokens[..|tokens| - 1];
      PropertyTokensMembers(init);
      assert tokens == init + [tokens[|tokens| - 1]];
    }
  }

  lemma {:induction false} PropertyTokensAppend(a: seq<Token>, b: seq<Token>)
    ensures PropertyTokens(a + b) == PropertyTokens(a) + PropertyTokens(b)
    decreases |b|
  {
    if b == [] {
      assert a + b == a;
    } else {
      assert (a + b)[..|a + b| - 1] == a + b[..|b| - 1];
      PropertyTokensAppend(a, b[..|b| - 1]);
    }
  }

  predicate AllPositional(tokens: seq<Token>) {
    forall t :: t in tokens && t.PropertyToken? ==> IsPositional(t)
  }

  predicate AnyPositional(tokens: seq<Token>) {
    exists t :: t in tokens && IsPositional(t)
  }

  /** The fields the MessageTemplate constructor sets. */
  function Classified(text: string, tokens: seq<Token>): (mt: MessageTemplate)
    ensures mt.text == text && mt.tokens == tokens
    ensures mt.positionalTokens.Some? != mt.namedTokens.Some?
    ensures mt.positionalTokens.Some? <==> AllPositional(tokens)
    ensures mt.positionalTokens.Some? ==> mt.positionalTokens.value == PropertyTokens(tokens)
    ensures mt.namedTokens.Some? ==> mt.namedTokens.value == PropertyTokens(tokens)
  {
    var props := PropertyTokens(tokens);
    if AllPositional(tokens) then MessageTemplate(text, tokens, Some(props), None)
    else MessageTemplate(text, tokens, None, Some(props))
  }

  /** The constructor writes a malformed-template diagnostic for a mix of positional and named tokens. */
  predicate Malformed(tokens: seq<Token>) {
    !AllPositional(tokens) && AnyPositional(tokens)
  }

  /**
   * The MessageTemplate constructor: one pass over the tokens collects the
   * property tokens and the anyPositional/allPositional flags. `diagnostic`
   * reports whether the constructor wrote to the diagnostic log.
   */
  method NewMessageTemplate(text: string, tokens: seq<Token>) returns (mt: MessageTemplate, diagnostic: bool)
    ensures mt == Classified(text, tokens)
    ensures diagnostic == Malformed(tokens)
  {
    var propertyTokens: seq<Token> := [];
    var anyPositional := false;
    var allPositional := true;
    for i := 0 to |tokens|
      invariant propertyTokens == PropertyTokens(tokens[..i])
      invariant anyPositional == AnyPositional(tokens[..i])
      invariant allPositional == AllPositional(tokens[..i])
    {
      ScanStep(tokens, i);
      if !tokens[i].PropertyToken? {
        continue;
      }
      propertyTokens := propertyTokens + [tokens[i]];
      if IsPositional(tokens[i]) {
        anyPositional := true;
      } else {
        allPositional := false;
      }
    }
    assert tokens[..|tokens|] == tokens;
    diagnostic := false;
    if allPositional {
      mt := MessageTemplate(text, tokens, Some(propertyTokens), None);
    } else {
      if anyPositional {
        diagnostic := true;
      }
      mt := MessageTemplate(text, tokens, None, Some(propertyTokens));
    }
  }

  /** One more token extends the property tokens, and the flags, by that token alone. */
  lemma ScanStep(tokens: seq<Token>, i: nat)
    requires i < |tokens|
    ensures PropertyTokens(tokens[..i + 1]) ==
      PropertyTokens(tokens[..i]) + (if tokens[i].PropertyToken? then [tokens[i]] else [])
    ensures AnyPositional(tokens[..i + 1]) <==> AnyPositional(tokens[..i]) || IsPositional(tokens[i])
    ensures AllPositional(tokens[..i + 1]) <==>
      AllPositional(tokens[..i]) && (tokens[i].PropertyToken? ==> IsPositional(tokens[i]))
  {
    assert tokens[..i + 1] == tokens[..i] + [tokens[i]];
    assert tokens[..i + 1][..i] == tokens[..i];
  }

  /** A template without property tokens is positional, with an empty list. */
  lemma NoPropertiesIsPositional(text: string, tokens: seq<Token>)
    requires forall t :: t in tokens ==> t.TextToken?
    ensures Classified(text, tokens).positionalTokens == Some([])
    ensures !Malformed(tokens)
  {
    NoPropertyTokens(tokens);
  }

  lemma {:induction false} NoPropertyTokens(tokens: seq<Token>)
    requires forall t :: t in tokens ==> t.TextToken?
    ensures PropertyTokens(tokens) == []
  {
    if tokens != [] {
      var init := tokens[..|tokens| - 1];
      assert forall t :: t in init ==> t in tokens;
      NoPropertyTokens(init);
      assert tokens[|tokens| - 1] in tokens;
    }
  }

  /**
   * PropertyToken.render once the value has been looked up: `rendered` is the
   * value rendered with the token's format, None when the name is absent.
   */
  function RenderedProperty(t: Token, rendered: Option<string>): (r: string)
    requires t.PropertyToken?
    ensures rendered.None? ==> r == t.rawText
    ensures rendered.Some? ==> r == Padded(rendered.value, t.alignment)
  {
    if rendered.None? then t.rawText
    else if t.alignment.None? then rendered.value
    else if Utf16Length(rendered.value) >= t.alignment.value.width then rendered.value
    else Padded(rendered.value, t.alignment)
  }

  /** The text a token writes for a property map. */
  function TokenText(t: Token, props: map<string, Value>): string {
    match t
    case TextToken(text, _) => text
    case PropertyToken(name, _, format, _, _, _) =>
      RenderedProperty(t, if name in props then Some(Values.Render(props[name], format)) else None)
  }

  /** MessageTemplate.render: the tokens' texts in order. */
  function RenderTokens(tokens: seq<Token>, props: map<string, Value>): string {
    if tokens == [] then ""
    else RenderTokens(tokens[..|tokens| - 1], props) + TokenText(tokens[|tokens| - 1], props)
  }

  lemma {:induction false} RenderTokensAppend(a: seq<Token>, b: seq<Token>, props: map<string, Value>)
    ensures RenderTokens(a + b, props) == RenderTokens(a, props) + RenderTokens(b, props)
    decreases |b|
  {
    if b == [] {
      assert a + b == a;
    } else {
      var front := b[..|b| - 1];
      var last := b[|b| - 1];
      calc {
        RenderTokens(a + b, props);
      == { assert (a + b)[..|a + b| - 1] == a + front; assert (a + b)[|a + b| - 1] == last; }
        RenderTokens(a + front, props) + TokenText(last, props);
      == { RenderTokensAppend(a, front, props); }
        RenderTokens(a, props) + RenderTokens(front, props) + TokenText(last, props);
      }
    }
  }

  /** A property token written against a map: absent names write the raw tag, present ones the (padded) value. */
  method RenderToken(t: Token, props: map<string, Value>) returns (out: string)
    ensures out == TokenText(t, props)
  {
    match t
    case TextToken(text, _) =>
      out := text;
    case PropertyToken(name, raw, format, alignment, _, _) =>
      if name !in props {
        out := raw;
        return;
      }
      var value := RenderValue(props[name], format);
      if alignment.None? {
        out := value;
        return;
      }
      if Utf16Length(value) >= alignment.value.width {
        out := value;
        return;
      }
      out := Apply(value, alignment);
  }

  /** MessageTemplate.render: writes every token in order. */
  method RenderTemplate(mt: MessageTemplate, props: map<string, Value>) returns (out: string)
    ensures out == RenderTokens(mt.tokens, props)
  {
    out := "";
    for i := 0 to |mt.tokens|
      invariant out == RenderTokens(mt.tokens[..i], props)
    {
      assert mt.tokens[..i + 1][..i] == mt.tokens[..i];
      var piece := RenderToken(mt.tokens[i], props);
      out := out + piece;
    }
    assert mt.tokens[..|mt.tokens|] == mt.tokens;
  }

  /** Text tokens ignore the property map. */
  lemma TextIgnoresProperties(t: Token, p: map<string, Value>, q: map<string, Value>)
    requires t.TextToken?
    ensures TokenText(t, p) == TokenText(t, q) == t.text
  {
  }
}
