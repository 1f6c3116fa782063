/**
 * SeqApi: reading the minimum level a Seq server accepts out of its reply
 * to a batch, without a JSON parser. The marker is found ignoring ASCII
 * case, the first occurrence wins, and the level name runs to the next
 * double quote and must be a level's exact name.
 */
module SeqApi {
  import opened Wrappers
  import opened Chars
  import opened Levels

  const LevelMarker := "\"MinimumLevelAccepted\":\""

  /** The text after the first case-insensitive marker up to the next '"', if there is such a quote. */
  function MarkerValue(s: string): Option<string> {
    var startProp := Find(Lower(s), Lower(LevelMarker));
    if startProp == -1 then None else ValueFrom(s, startProp + |LevelMarker|)
  }

  /** The text from `startValue` up to the next '"': none when it starts past the end or no quote follows. */
  function ValueFrom(s: string, startValue: int): (r: Option<string>)
    requires startValue >= 0
    ensures r.Some? ==>
      startValue + |r.value| < |s| && s[startValue..startValue + |r.value| + 1] == r.value + "\"" && '"' !in r.value
    ensures r.None? <==> startValue >= |s| || '"' !in s[startValue..]
  {
    if startValue >= |s| then None
    else
      var k := IndexOf(s[startValue..], '"');
      if k == -1 then None
      else
        ValueBeforeQuote(s, startValue, k);
        Some(s[startValue..startValue + k])
  }

  /**
   * A value read is the text right after the first occurrence of the marker
   * (ignoring case), holds no quote and is followed by one.
   */
  lemma MarkerValueFound(s: string)
    ensures var r := MarkerValue(s);
      r.Some? ==> exists start ::
        FirstMarkerAt(s, start) && start + |LevelMarker| + |r.value| < |s|
        && s[start + |LevelMarker|..start + |LevelMarker| + |r.value| + 1] == r.value + "\""
        && '"' !in r.value
  {
    var startProp := Find(Lower(s), Lower(LevelMarker));
    if startProp != -1 {
      FindIsFirst(Lower(s), Lower(LevelMarker));
      assert FirstMarkerAt(s, startProp);
    }
  }

  /** The text from `a` up to the first quote at or after it, and that quote. */
  lemma ValueBeforeQuote(s: string, a: nat, k: nat)
    requires a + k < |s| && s[a + k] == '"'
    requires forall j :: 0 <= j < k ==> s[a..][j] != '"'
    ensures s[a..a + k + 1] == s[a..a + k] + "\"" && '"' !in s[a..a + k]
  {
    var v := s[a..a + k];
    forall j | 0 <= j < k ensures v[j] != '"' {
      assert v[j] == s[a..][j];
    }
  }

  /** The marker occurs at `start` ignoring case, and nowhere before. */
  predicate FirstMarkerAt(s: string, start: int) {
    FirstOccurrence(Lower(s), Lower(LevelMarker), start)
  }

  /** `sub` occurs in `t` at `start` and nowhere before. */
  predicate FirstOccurrence(t: string, sub: string, start: int) {
    OccursAt(t, sub, start) && forall k :: 0 <= k < start ==> !OccursAt(t, sub, k)
  }

  /** indexOf, when it finds something, finds the first occurrence. */
  lemma FindIsFirst(t: string, sub: string)
    requires Find(t, sub) != -1
    ensures FirstOccurrence(t, sub, Find(t, sub))
  {
  }

  /**
   * readEventInputResult: the level named after the marker. A missing reply,
   * a missing marker, a marker at the very end, a name without a closing
   * quote and a name that is not exactly a level's all give None.
   */
  function ReadEventInputResult(response: Option<string>): (r: Option<Level>)
    ensures r.Some? ==> response.Some? && MarkerValue(response.value) == Some(Name(r.value))
    ensures response.Some? && MarkerValue(response.value).Some? && r.None? ==>
      forall l: Level :: Name(l) != MarkerValue(response.value).value
  {
    if response.None? then None
    else
      match MarkerValue(response.value)
      case None => None
      case Some(value) => ValueOf(value)
  }

  /** A reply without the marker, in any case, names no level. */
  lemma NoMarkerNoLevel(s: string)
    requires !Contains(Lower(s), Lower(LevelMarker))
    ensures ReadEventInputResult(Some(s)) == None
  {
  }

  /** No occurrence of the marker can start inside text free of double quotes. */
  lemma {:induction false} NoMarkerWithoutQuote(s: string, p: string, k: int)
    requires |p| <= |s| && s[..|p|] == p && '"' !in p
    requires 0 <= k < |p|
    ensures !OccursAt(Lower(s), Lower(LevelMarker), k)
  {
    assert Lower(LevelMarker)[0] == '"';
    assert Lower(s)[k] != '"' by {
      assert s[k] == p[k];
    }
    if k + |LevelMarker| <= |s| {
      assert Lower(s)[k..k + |LevelMarker|][0] == Lower(s)[k];
    }
  }

  /**
   * Whatever precedes the marker, as long as it holds no double quote, and
   * whatever the marker's case, the value read is the text up to the next quote.
   */
  lemma ReadsValue(p: string, marker: string, v: string, q: string)
    requires '"' !in p && '"' !in v
    requires Lower(marker) == Lower(LevelMarker)
    ensures MarkerValue(p + marker + v + "\"" + q) == Some(v)
  {
    var rest := v + "\"" + q;
    var s := p + marker + rest;
    assert p + marker + v + "\"" + q == s;
    MarkerFirstAfter(p, marker, rest);
    assert |marker| == |Lower(marker)| == |LevelMarker|;
    var startValue := |p| + |LevelMarker|;
    assert s[startValue..] == rest;
    ValueFromQuoted(s, startValue, v, q);
  }

  /** The value from a position where a quote-free text and a quote follow is that text. */
  lemma ValueFromQuoted(s: string, a: nat, v: string, q: string)
    requires '"' !in v && a <= |s| && s[a..] == v + "\"" + q
    ensures ValueFrom(s, a) == Some(v)
  {
    QuoteEnds(v, q);
    assert s[a..a + |v|] == s[a..][..|v|] == v;
  }


  /** A marker, in any case, after text free of quotes is the first occurrence. */
  lemma MarkerFirstAfter(p: string, marker: string, rest: string)
    requires '"' !in p && Lower(marker) == Lower(LevelMarker)
    ensures Find(Lower(p + marker + rest), Lower(LevelMarker)) == |p|
  {
    var s := p + marker + rest;
    var start := |p|;
    assert s[..|p|] == p;
    forall k | 0 <= k < start ensures !OccursAt(Lower(s), Lower(LevelMarker), k) {
      NoMarkerWithoutQuote(s, p, k);
    }
    assert s[start..start + |LevelMarker|] == marker;
    assert Lower(s)[start..start + |LevelMarker|] == Lower(marker);
    FindFirst(Lower(s), Lower(LevelMarker), start);
  }

  /** Find returns an occurrence that has none before it. */
  lemma FindFirst(s: string, sub: string, start: int)
    requires OccursAt(s, sub, start)
    requires forall k :: 0 <= k < start ==> !OccursAt(s, sub, k)
    ensures Find(s, sub) == start
  {
  }

  /** The first quote of a text free of quotes followed by one is that one. */
  lemma QuoteEnds(v: string, q: string)
    requires '"' !in v
    ensures IndexOf(v + "\"" + q, '"') == |v|
  {
    var rest := v + "\"" + q;
    assert rest[|v|] == '"';
    forall i | 0 <= i < |v| ensures rest[i] != '"' {
      assert rest[i] == v[i];
    }
  }

  /**
   * The reply Seq sends, `{"MinimumLevelAccepted":"<name>"...}`, yields the
   * level named, whatever the case of the marker.
   */
  lemma ReadsLevel(p: string, marker: string, l: Level, q: string)
    requires '"' !in p && Lower(marker) == Lower(LevelMarker)
    ensures ReadEventInputResult(Some(p + marker + Name(l) + "\"" + q)) == Some(l)
  {
    ReadsValue(p, marker, Name(l), q);
    ValueOfName(l);
  }

  /** The level name is case-sensitive. */
  lemma NameIsCaseSensitive()
    ensures ReadEventInputResult(Some(LevelMarker + "warning\"")) == None
  {
    var reply := LevelMarker + "warning\"";
    assert reply == "" + LevelMarker + "warning" + "\"" + "";
    ReadsValue("", LevelMarker, "warning", "");
    assert MarkerValue(reply) == Some("warning");
    assert ValueOf("warning") == None by {
      assert "warning"[0] == 'w';
    }
  }
}
