/**
 * PropertyBinder: pairs the property tokens of a template with the
 * arguments of a logging call, by position when the template is positional
 * and by order of appearance otherwise, converting each argument under the
 * hint of its token.
 */
module Binder {
  import opened Wrappers
  import opened Tokens
  import opened Values
  import opened Templates
  import opened Converter

  /**
   * The PropertyValueConverter the binder was built with, as the conversion
   * it performs: createPropertyValue(value, hint).
   */
  type ValueConverter = (JValue, Hint) -> Outcome<Value>

  /** The binder's converter when it is the pipeline's PropertyValueConverter. */
  function ConverterOf(c: Converter): (r: ValueConverter)
    ensures forall v, h :: r(v, h) == CreatePropertyValue(c, v, h)
  {
    (v: JValue, h: Hint) => CreatePropertyValue(c, v, h)
  }

  /** constructProperty: the token's name and the converter's value under the token's hint. */
  function Bind(convert: ValueConverter, t: Token, v: JValue): (r: Outcome<Property>)
    requires t.PropertyToken?
    ensures r.Ok? <==> convert(v, t.hint).Ok? && ValidName(t.name)
    ensures r.Ok? ==> r.value == Property(t.name, convert(v, t.hint).value)
    ensures convert(v, t.hint).Thrown? ==> r.failure == convert(v, t.hint).failure
  {
    match convert(v, t.hint)
    case Ok(value) => NewProperty(t.name, value)
    case Thrown(f) => Thrown(f)
  }

  // ------------------------------------------------------------ positional

  /** The slot a positional token fills among n arguments; None when it is skipped. */
  function Slot(t: Token, n: nat): (r: Option<nat>)
    requires IsPositional(t)
    ensures r.Some? <==> Position(t.name).value < n
    ensures r.Some? ==> r.value == Position(t.name).value
  {
    if Position(t.name).value < n then Some(Position(t.name).value) else None
  }

  /**
   * The slot array after the first loop over the first k tokens: each token
   * whose position is in range overwrites its slot. A token without a
   * position unboxes a null Integer.
   */
  function FillSlots(convert: ValueConverter, tokens: seq<Token>, args: seq<JValue>, k: nat): (r: Outcome<seq<Option<Property>>>)
    requires k <= |tokens|
    requires forall i :: 0 <= i < |tokens| ==> tokens[i].PropertyToken?
    ensures r.Ok? ==> |r.value| == |args|
  {
    if k == 0 then Ok(seq(|args|, _ => None))
    else
      match FillSlots(convert, tokens, args, k - 1)
      case Thrown(f) => Thrown(f)
      case Ok(slots) =>
        var t := tokens[k - 1];
        if !IsPositional(t) then Thrown(NullPointer)
        else if Slot(t, |args|).None? then Ok(slots)
        else
          var p := Slot(t, |args|).value;
          match Bind(convert, t, args[p])
          case Thrown(f) => Thrown(f)
          case Ok(prop) => Ok(slots[p := Some(prop)])
  }

  /** The filled slots, in ascending slot order. */
  function Filled(slots: seq<Option<Property>>): (r: seq<Property>)
    ensures |r| <= |slots|
  {
    if slots == [] then []
    else Filled(slots[..|slots| - 1]) + (if slots[|slots| - 1].Some? then [slots[|slots| - 1].value] else [])
  }

  /** The number of filled slots before slot p: where slot p's property lands in the result. */
  function FilledBefore(slots: seq<Option<Property>>, p: nat): nat
    requires p <= |slots|
  {
    |Filled(slots[..p])|
  }

  /** constructPositionalProperties as a value. */
  function Positional(convert: ValueConverter, tokens: seq<Token>, args: seq<JValue>): Outcome<seq<Property>>
    requires forall i :: 0 <= i < |tokens| ==> tokens[i].PropertyToken?
  {
    match FillSlots(convert, tokens, args, |tokens|)
    case Thrown(f) => Thrown(f)
    case Ok(slots) => Ok(Filled(slots))
  }

  /** The token at index i binds argument p: it is positional with position p in range. */
  predicate Targets(tokens: seq<Token>, i: nat, n: nat, p: nat)
    requires i < |tokens|
  {
    IsPositional(tokens[i]) && Slot(tokens[i], n) == Some(p)
  }

  /** One round of the slot loop. */
  lemma SlotsNext(convert: ValueConverter, tokens: seq<Token>, args: seq<JValue>, k: nat)
    requires k < |tokens|
    requires forall i :: 0 <= i < |tokens| ==> tokens[i].PropertyToken?
    requires FillSlots(convert, tokens, args, k).Ok?
    ensures !IsPositional(tokens[k]) ==> FillSlots(convert, tokens, args, k + 1) == Thrown(NullPointer)
    ensures IsPositional(tokens[k]) && Slot(tokens[k], |args|).None? ==>
      FillSlots(convert, tokens, args, k + 1) == FillSlots(convert, tokens, args, k)
    ensures IsPositional(tokens[k]) && Slot(tokens[k], |args|).Some? ==>
      var p := Slot(tokens[k], |args|).value;
      FillSlots(convert, tokens, args, k + 1) ==
        if Bind(convert, tokens[k], args[p]).Thrown? then Thrown(Bind(convert, tokens[k], args[p]).failure)
        else Ok(FillSlots(convert, tokens, args, k).value[p := Some(Bind(convert, tokens[k], args[p]).value)])
  {
  }

  /** One round of the slot loop, for one slot: overwritten by a token that targets it, else kept. */
  lemma SlotStep(convert: ValueConverter, tokens: seq<Token>, args: seq<JValue>, k: nat, p: nat)
    requires 0 < k <= |tokens| && p < |args|
    requires forall i :: 0 <= i < |tokens| ==> tokens[i].PropertyToken?
    requires FillSlots(convert, tokens, args, k).Ok?
    ensures FillSlots(convert, tokens, args, k - 1).Ok?
    ensures Targets(tokens, k - 1, |args|, p) ==>
      Bind(convert, tokens[k - 1], args[p]) == Ok(FillSlots(convert, tokens, args, k).value[p].value)
      && FillSlots(convert, tokens, args, k).value[p].Some?
    ensures !Targets(tokens, k - 1, |args|, p) ==>
      FillSlots(convert, tokens, args, k).value[p] == FillSlots(convert, tokens, args, k - 1).value[p]
  {
  }

  /** A slot is filled exactly when some token targets it. */
  lemma {:induction false} SlotsFilled(convert: ValueConverter, tokens: seq<Token>, args: seq<JValue>, k: nat, p: nat)
    requires k <= |tokens| && p < |args|
    requires forall i :: 0 <= i < |tokens| ==> tokens[i].PropertyToken?
    requires FillSlots(convert, tokens, args, k).Ok?
    ensures FillSlots(convert, tokens, args, k).value[p].Some? <==> exists i :: 0 <= i < k && Targets(tokens, i, |args|, p)
  {
    if k > 0 {
      SlotFilledStep(convert, tokens, args, k, p);
      SlotsFilled(convert, tokens, args, k - 1, p);
      TargetsBefore(tokens, k, |args|, p);
    }
  }

  /** One round of the slot loop fills slot p when its token targets p, and otherwise leaves p as it was. */
  lemma SlotFilledStep(convert: ValueConverter, tokens: seq<Token>, args: seq<JValue>, k: nat, p: nat)
    requires 0 < k <= |tokens| && p < |args|
    requires forall i :: 0 <= i < |tokens| ==> tokens[i].PropertyToken?
    requires FillSlots(convert, tokens, args, k).Ok?
    ensures FillSlots(convert, tokens, args, k - 1).Ok?
    ensures FillSlots(convert, tokens, args, k).value[p].Some? <==>
      Targets(tokens, k - 1, |args|, p) || FillSlots(convert, tokens, args, k - 1).value[p].Some?
  {
    SlotStep(convert, tokens, args, k, p);
  }

  /** Some token before k targets p exactly when token k - 1 does or one before it does. */
  lemma TargetsBefore(tokens: seq<Token>, k: nat, n: nat, p: nat)
    requires 0 < k <= |tokens|
    ensures (exists i :: 0 <= i < k && Targets(tokens, i, n, p)) <==>
      Targets(tokens, k - 1, n, p) || exists i :: 0 <= i < k - 1 && Targets(tokens, i, n, p)
  {
    if !Targets(tokens, k - 1, n, p) && exists i :: 0 <= i < k && Targets(tokens, i, n, p) {
      var i :| 0 <= i < k && Targets(tokens, i, n, p);
      assert i < k - 1;
    }
  }

  /** A filled slot holds what the last token that targets it binds: the later token wins. */
  lemma {:induction false} SlotsHoldLastToken(convert: ValueConverter, tokens: seq<Token>, args: seq<JValue>, k: nat, p: nat)
    requires k <= |tokens| && p < |args|
    requires forall i :: 0 <= i < |tokens| ==> tokens[i].PropertyToken?
    requires FillSlots(convert, tokens, args, k).Ok? && FillSlots(convert, tokens, args, k).value[p].Some?
    ensures exists i :: (0 <= i < k && Targets(tokens, i, |args|, p)
        && Bind(convert, tokens[i], args[p]) == Ok(FillSlots(convert, tokens, args, k).value[p].value)
        && forall j :: i < j < k ==> !Targets(tokens, j, |args|, p))
  {
    if k > 0 {
      SlotStep(convert, tokens, args, k, p);
      if !Targets(tokens, k - 1, |args|, p) {
        SlotsHoldLastToken(convert, tokens, args, k - 1, p);
        var slots := FillSlots(convert, tokens, args, k - 1).value;
        var i :| 0 <= i < k - 1 && Targets(tokens, i, |args|, p)
          && Bind(convert, tokens[i], args[p]) == Ok(slots[p].value)
          && forall j :: i < j < k - 1 ==> !Targets(tokens, j, |args|, p);
        assert forall j :: i < j < k ==> !Targets(tokens, j, |args|, p);
      }
    }
  }

  /** The token at index i stops the slot loop: it has no position, or its in-range binding throws. */
  predicate Stops(convert: ValueConverter, tokens: seq<Token>, args: seq<JValue>, i: nat)
    requires i < |tokens| && tokens[i].PropertyToken?
  {
    !IsPositional(tokens[i])
    || (Slot(tokens[i], |args|).Some? && Bind(convert, tokens[i], args[Slot(tokens[i], |args|).value]).Thrown?)
  }

  /** The slot loop throws exactly when some token stops it. */
  lemma {:induction false} SlotsThrow(convert: ValueConverter, tokens: seq<Token>, args: seq<JValue>, k: nat)
    requires k <= |tokens|
    requires forall i :: 0 <= i < |tokens| ==> tokens[i].PropertyToken?
    ensures FillSlots(convert, tokens, args, k).Thrown? <==> exists i :: 0 <= i < k && Stops(convert, tokens, args, i)
  {
    if k > 0 {
      SlotsThrow(convert, tokens, args, k - 1);
      if FillSlots(convert, tokens, args, k - 1).Ok? {
        SlotsNext(convert, tokens, args, k - 1);
        if FillSlots(convert, tokens, args, k).Thrown? {
          assert Stops(convert, tokens, args, k - 1);
        }
        if exists i :: 0 <= i < k && Stops(convert, tokens, args, i) {
          var i :| 0 <= i < k && Stops(convert, tokens, args, i);
          assert i == k - 1;
        }
      } else {
        var i :| 0 <= i < k - 1 && Stops(convert, tokens, args, i);
      }
    }
  }

  /** Once the slot loop has thrown, the rest of the tokens are not looked at. */
  lemma {:induction false} SlotsThrownStays(convert: ValueConverter, tokens: seq<Token>, args: seq<JValue>, k: nat, m: nat)
    requires k <= m <= |tokens|
    requires forall i :: 0 <= i < |tokens| ==> tokens[i].PropertyToken?
    requires FillSlots(convert, tokens, args, k).Thrown?
    ensures FillSlots(convert, tokens, args, m) == FillSlots(convert, tokens, args, k)
    decreases m
  {
    if m > k {
      SlotsThrownStays(convert, tokens, args, k, m - 1);
    }
  }

  lemma {:induction false} FilledAppend(a: seq<Option<Property>>, b: seq<Option<Property>>)
    ensures Filled(a + b) == Filled(a) + Filled(b)
    decreases |b|
  {
    if b == [] {
      assert a + b == a;
    } else {
      assert (a + b)[..|a + b| - 1] == a + b[..|b| - 1];
      FilledAppend(a, b[..|b| - 1]);
    }
  }

  /**
   * The filled slots appear in ascending slot order: slot p's property sits
   * at index FilledBefore(slots, p), and a later filled slot sits further on.
   */
  lemma FilledInOrder(slots: seq<Option<Property>>, p: nat, q: nat)
    requires p < q < |slots| && slots[p].Some?
    ensures FilledBefore(slots, p) < FilledBefore(slots, q) <= |Filled(slots)|
    ensures Filled(slots)[FilledBefore(slots, p)] == slots[p].value
  {
    FilledSnoc(slots, p);
    assert slots[..q] == slots[..p + 1] + slots[p + 1..q];
    FilledAppend(slots[..p + 1], slots[p + 1..q]);
    assert slots == slots[..q] + slots[q..];
    FilledAppend(slots[..q], slots[q..]);
    assert slots == slots[..p + 1] + slots[p + 1..];
    FilledAppend(slots[..p + 1], slots[p + 1..]);
  }

  /** A filled slot adds its property after those of the slots before it. */
  lemma FilledSnoc(slots: seq<Option<Property>>, p: nat)
    requires p < |slots| && slots[p].Some?
    ensures Filled(slots[..p + 1]) == Filled(slots[..p]) + [slots[p].value]
  {
    assert slots[..p + 1][..p] == slots[..p];
  }

  /** The filled slots, counted: one property per filled slot, so never more than the arguments. */
  lemma {:induction false} FilledHasEverySlot(slots: seq<Option<Property>>, x: Property)
    ensures x in Filled(slots) <==> Some(x) in slots
  {
    if slots != [] {
      FilledHasEverySlot(slots[..|slots| - 1], x);
      assert slots == slots[..|slots| - 1] + [slots[|slots| - 1]];
    }
  }

  /**
   * constructPositionalProperties: a slot array as long as the arguments,
   * filled token by token, then read back in slot order. `mismatch` is the
   * count diagnostic.
   */
  method ConstructPositionalProperties(convert: ValueConverter, tokens: seq<Token>, args: seq<JValue>)
    returns (r: Outcome<seq<Property>>, mismatch: bool)
    requires forall i :: 0 <= i < |tokens| ==> tokens[i].PropertyToken?
    ensures r == Positional(convert, tokens, args)
    ensures mismatch <==> |tokens| != |args|
  {
    mismatch := |tokens| != |args|;
    var arr := new Option<Property>[|args|](_ => None);
    assert arr[..] == FillSlots(convert, tokens, args, 0).value;
    for k := 0 to |tokens|
      invariant FillSlots(convert, tokens, args, k).Ok?
      invariant arr[..] == FillSlots(convert, tokens, args, k).value
    {
      var t := tokens[k];
      SlotsNext(convert, tokens, args, k);
      if !IsPositional(t) {
        SlotsThrownStays(convert, tokens, args, k + 1, |tokens|);
        return Thrown(NullPointer), mismatch;
      }
      var position := Position(t.name).value;
      if position < arr.Length {
        var bound := Bind(convert, t, args[position]);
        if bound.Thrown? {
          SlotsThrownStays(convert, tokens, args, k + 1, |tokens|);
          return Thrown(bound.failure), mismatch;
        }
        arr[position] := Some(bound.value);
      }
    }
    var result := ReadSlots(arr);
    r := Ok(result);
  }

  /** The second loop of constructPositionalProperties: the non-null slots, in order. */
  method ReadSlots(arr: array<Option<Property>>) returns (result: seq<Property>)
    ensures result == Filled(arr[..])
  {
    result := [];
    for i := 0 to arr.Length
      invariant result == Filled(arr[..i])
    {
      assert arr[..i + 1][..i] == arr[..i];
      if arr[i].Some? {
        result := result + [arr[i].value];
      }
    }
    assert arr[..arr.Length] == arr[..];
  }

  // ------------------------------------------------------------ named

  /** constructNamedProperties over the first n pairs: token i binds argument i. */
  function NamedPrefix(convert: ValueConverter, tokens: seq<Token>, args: seq<JValue>, n: nat): (r: Outcome<seq<Property>>)
    requires n <= |tokens| && n <= |args|
    requires forall i :: 0 <= i < |tokens| ==> tokens[i].PropertyToken?
  {
    if n == 0 then Ok([])
    else
      match NamedPrefix(convert, tokens, args, n - 1)
      case Thrown(f) => Thrown(f)
      case Ok(ps) =>
        match Bind(convert, tokens[n - 1], args[n - 1])
        case Thrown(f) => Thrown(f)
        case Ok(p) => Ok(ps + [p])
  }

  function Min(a: nat, b: nat): nat {
    if a <= b then a else b
  }

  /** The matched run: the shorter of the token list and the arguments. */
  function Named(convert: ValueConverter, tokens: seq<Token>, args: seq<JValue>): Outcome<seq<Property>>
    requires forall i :: 0 <= i < |tokens| ==> tokens[i].PropertyToken?
  {
    NamedPrefix(convert, tokens, args, Min(|tokens|, |args|))
  }

  /**
   * Named binding succeeds exactly when every pair in the run converts, and
   * then binds token i to argument i for each i in the run, and nothing else.
   */
  lemma {:induction false} NamedPairs(convert: ValueConverter, tokens: seq<Token>, args: seq<JValue>, n: nat)
    requires n <= |tokens| && n <= |args|
    requires forall i :: 0 <= i < |tokens| ==> tokens[i].PropertyToken?
    ensures NamedPrefix(convert, tokens, args, n).Ok? <==> forall i :: 0 <= i < n ==> Bind(convert, tokens[i], args[i]).Ok?
    ensures NamedPrefix(convert, tokens, args, n).Ok? ==>
      |NamedPrefix(convert, tokens, args, n).value| == n
      && forall i :: 0 <= i < n ==> NamedPrefix(convert, tokens, args, n).value[i] == Bind(convert, tokens[i], args[i]).value
  {
    if n > 0 {
      NamedPairs(convert, tokens, args, n - 1);
    }
  }

  /** The first pair that fails to convert is the one whose failure escapes. */
  lemma {:induction false} NamedFirstFailure(convert: ValueConverter, tokens: seq<Token>, args: seq<JValue>, n: nat, k: nat)
    requires k < n <= |tokens| && n <= |args|
    requires forall i :: 0 <= i < |tokens| ==> tokens[i].PropertyToken?
    requires Bind(convert, tokens[k], args[k]).Thrown?
    requires forall i :: 0 <= i < k ==> Bind(convert, tokens[i], args[i]).Ok?
    ensures NamedPrefix(convert, tokens, args, n) == Thrown(Bind(convert, tokens[k], args[k]).failure)
  {
    NamedPairs(convert, tokens, args, k);
    if n > k + 1 {
      NamedFirstFailure(convert, tokens, args, n - 1, k);
    }
  }

  /** Once named binding has thrown, the later pairs are not looked at. */
  lemma {:induction false} NamedThrownStays(convert: ValueConverter, tokens: seq<Token>, args: seq<JValue>, k: nat, m: nat)
    requires k <= m <= |tokens| && m <= |args|
    requires forall i :: 0 <= i < |tokens| ==> tokens[i].PropertyToken?
    requires NamedPrefix(convert, tokens, args, k).Thrown?
    ensures NamedPrefix(convert, tokens, args, m) == NamedPrefix(convert, tokens, args, k)
    decreases m
  {
    if m > k {
      NamedThrownStays(convert, tokens, args, k, m - 1);
    }
  }

  /** constructNamedProperties: binds the matched run in order. `mismatch` is the count diagnostic. */
  method ConstructNamedProperties(convert: ValueConverter, tokens: seq<Token>, args: seq<JValue>)
    returns (r: Outcome<seq<Property>>, mismatch: bool)
    requires forall i :: 0 <= i < |tokens| ==> tokens[i].PropertyToken?
    ensures r == Named(convert, tokens, args)
    ensures mismatch <==> |tokens| != |args|
  {
    var matchedRun := |tokens|;
    mismatch := false;
    if |tokens| != |args| {
      matchedRun := Min(|tokens|, |args|);
      mismatch := true;
    }
    var result: seq<Property> := [];
    for i := 0 to matchedRun
      invariant NamedPrefix(convert, tokens, args, i) == Ok(result)
    {
      var bound := Bind(convert, tokens[i], args[i]);
      if bound.Thrown? {
        NamedThrownStays(convert, tokens, args, i + 1, matchedRun);
        return Thrown(bound.failure), mismatch;
      }
      result := result + [bound.value];
    }
    r := Ok(result);
  }

  // ------------------------------------------------------------ constructProperties

  /** Every token in the template's property lists is a property token. */
  predicate WellFormed(mt: MessageTemplate) {
    (mt.positionalTokens.Some? ==> forall i :: 0 <= i < |mt.positionalTokens.value| ==> mt.positionalTokens.value[i].PropertyToken?)
    && (mt.namedTokens.Some? ==> forall i :: 0 <= i < |mt.namedTokens.value| ==> mt.namedTokens.value[i].PropertyToken?)
  }

  /** The "Required properties not provided" condition: a named list, or a non-empty positional one. */
  predicate HasPropertyTokens(mt: MessageTemplate) {
    mt.namedTokens.Some? || (mt.positionalTokens.Some? && mt.positionalTokens.value != [])
  }

  /** constructProperties as a value: nothing without arguments, else by position or by name. */
  function Properties(convert: ValueConverter, mt: MessageTemplate, args: seq<JValue>): Outcome<seq<Property>>
    requires WellFormed(mt)
  {
    if args == [] then Ok([])
    else if mt.positionalTokens.Some? then Positional(convert, mt.positionalTokens.value, args)
    else if mt.namedTokens.None? then Ok([])
    else Named(convert, mt.namedTokens.value, args)
  }

  /**
   * constructProperties. A null argument array is the empty one. `missing`
   * is the diagnostic for a template with properties but no arguments,
   * `mismatch` the count diagnostic of the binding used.
   */
  method ConstructProperties(convert: ValueConverter, mt: MessageTemplate, args: seq<JValue>)
    returns (r: Outcome<seq<Property>>, missing: bool, mismatch: bool)
    requires WellFormed(mt)
    ensures r == Properties(convert, mt, args)
    ensures missing <==> args == [] && HasPropertyTokens(mt)
    ensures !mismatch || args != []
  {
    missing, mismatch := false, false;
    if args == [] {
      missing := HasPropertyTokens(mt);
      return Ok([]), missing, mismatch;
    }
    if mt.positionalTokens.Some? {
      r, mismatch := ConstructPositionalProperties(convert, mt.positionalTokens.value, args);
    } else if mt.namedTokens.None? {
      r := Ok([]);
    } else {
      r, mismatch := ConstructNamedProperties(convert, mt.namedTokens.value, args);
    }
  }

  /** A classified template is well formed, and has property tokens exactly when its text has a tag. */
  lemma ClassifiedBinds(text: string, tokens: seq<Token>)
    ensures WellFormed(Classified(text, tokens))
    ensures HasPropertyTokens(Classified(text, tokens)) <==> PropertyTokens(tokens) != []
  {
  }

  /** Positional binding yields at most one property per argument, each from a slot the tokens filled. */
  lemma PositionalBounds(convert: ValueConverter, tokens: seq<Token>, args: seq<JValue>)
    requires forall i :: 0 <= i < |tokens| ==> tokens[i].PropertyToken?
    requires Positional(convert, tokens, args).Ok?
    ensures |Positional(convert, tokens, args).value| <= |args|
    ensures forall x :: x in Positional(convert, tokens, args).value ==>
      exists i :: 0 <= i < |tokens| && x.name == tokens[i].name
  {
    var slots := FillSlots(convert, tokens, args, |tokens|).value;
    forall x | x in Positional(convert, tokens, args).value
      ensures exists i :: 0 <= i < |tokens| && x.name == tokens[i].name
    {
      FilledHasEverySlot(slots, x);
      var p :| 0 <= p < |slots| && slots[p] == Some(x);
      SlotsHoldLastToken(convert, tokens, args, |tokens|, p);
      var i :| 0 <= i < |tokens| && Targets(tokens, i, |args|, p)
        && Bind(convert, tokens[i], args[p]) == Ok(x)
        && forall j :: i < j < |tokens| ==> !Targets(tokens, j, |args|, p);
      assert x.name == tokens[i].name;
    }
  }
}
