/**
 * Reflection: flattening of arrays and collections (unifyListOrArray) and
 * the property descriptors of a class, built from its fields and getters.
 * A class is given by a ClassDesc; Java's HashMaps of descriptors become
 * association lists kept in insertion order.
 */
module Reflection {
  import opened Wrappers
  import opened Chars
  import opened Values

  // ------------------------------------------------------------ flattening

  /** Array.get on a byte[] element: the byte boxed as a Byte. */
  function BoxedByte(b: JByte): JValue {
    JBoxed(ByteBox, IntToString(b))
  }

  /** The first n bytes, each boxed. */
  function BoxedBytes(bs: seq<JByte>, n: nat): (r: seq<JValue>)
    requires n <= |bs|
    ensures |r| == n && forall i :: 0 <= i < n ==> r[i] == BoxedByte(bs[i])
  {
    if n == 0 then [] else BoxedBytes(bs, n - 1) + [BoxedByte(bs[n - 1])]
  }

  /** What unifyListOrArray(o, list) appends to a non-null list. */
  function Unify(o: JValue): seq<JValue>
    decreases o, 1, 0
  {
    match o
    case JNull => []
    case JBytes(bs) => BoxedBytes(bs, |bs|)
    case JArray(_, es) => UnifyArray(o, |es|)
    case JCollection(_, items, _) => UnifyCollection(o, |items|)
    case _ => [o]
  }

  /**
   * The array loop over the first n elements. Its test reads the class of
   * the outer array, so every element is unified again.
   */
  function UnifyArray(o: JValue, n: nat): seq<JValue>
    requires o.JArray? && n <= |o.elems|
    decreases o, 0, n
  {
    if n == 0 then [] else UnifyArray(o, n - 1) + Unify(o.elems[n - 1])
  }

  /** The collection loop over the first n items: Iterable items are unified, others appended. */
  function UnifyCollection(o: JValue, n: nat): seq<JValue>
    requires o.JCollection? && n <= |o.items|
    decreases o, 0, n
  {
    if n == 0 then []
    else
      var item := o.items[n - 1];
      UnifyCollection(o, n - 1) + (if IsIterable(item) then Unify(item) else [item])
  }

  /** unifyListOrArray with a non-null list: the list with the flattened value appended. */
  method UnifyListOrArray(o: JValue, list: seq<JValue>) returns (out: seq<JValue>)
    ensures out == list + Unify(o)
    decreases o
  {
    if o.JNull? {
      return list;
    }
    out := list;
    if o.JBytes? {
      // each element is unified again: a boxed Byte is appended as it is
      for index := 0 to |o.bytes|
        invariant out == list + BoxedBytes(o.bytes, index)
      {
        out := out + [BoxedByte(o.bytes[index])];
      }
    } else if o.JArray? {
      for index := 0 to |o.elems|
        invariant out == list + UnifyArray(o, index)
      {
        out := UnifyListOrArray(o.elems[index], out);
      }
    } else if o.JCollection? {
      for index := 0 to |o.items|
        invariant out == list + UnifyCollection(o, index)
      {
        var item := o.items[index];
        if IsIterable(item) {
          out := UnifyListOrArray(item, out);
        } else {
          out := out + [item];
        }
      }
    } else {
      out := out + [o];
    }
  }

  /** The non-null elements of es, in order. */
  function NonNull(es: seq<JValue>): (r: seq<JValue>)
    ensures |r| <= |es|
  {
    if es == [] then []
    else NonNull(es[..|es| - 1]) + (if es[|es| - 1].JNull? then [] else [es[|es| - 1]])
  }

  /** Flattening an array with no nested array or collection keeps its elements in order and drops the nulls. */
  lemma {:induction false} ArrayDropsNulls(o: JValue, n: nat)
    requires o.JArray? && n <= |o.elems|
    requires forall k :: 0 <= k < |o.elems| ==> !IsArray(o.elems[k]) && !o.elems[k].JCollection?
    ensures UnifyArray(o, n) == NonNull(o.elems[..n])
  {
    if n > 0 {
      ArrayDropsNulls(o, n - 1);
      assert o.elems[..n][..n - 1] == o.elems[..n - 1];
    }
  }

  /** Any value that is neither null, nor an array, nor a Collection is appended as a single element. */
  lemma SingleElement(o: JValue)
    requires !o.JNull? && !IsArray(o) && !o.JCollection?
    ensures Unify(o) == [o]
  {
  }

  /**
   * Flattening a collection none of whose items is itself a Collection
   * appends every item as it is, nulls, arrays and plain Iterables included.
   */
  lemma {:induction false} CollectionKeepsItems(o: JValue, n: nat)
    requires o.JCollection? && n <= |o.items|
    requires forall k :: 0 <= k < |o.items| ==> !o.items[k].JCollection?
    ensures UnifyCollection(o, n) == o.items[..n]
  {
    if n > 0 {
      CollectionKeepsItems(o, n - 1);
      assert o.items[..n] == o.items[..n - 1] + [o.items[n - 1]];
    }
  }

  /** Nested arrays and collections inside an array are spliced in place. */
  lemma NestedArraySpliced(c: string, inner: seq<JValue>, d: string, rest: seq<JValue>)
    ensures Unify(JArray(c, [JArray(d, inner)] + rest)) == Unify(JArray(d, inner)) + Unify(JArray(c, rest))
  {
    var o := JArray(c, [JArray(d, inner)] + rest);
    var r := JArray(c, rest);
    assert forall n :: 0 <= n <= |rest| ==> UnifyArray(o, n + 1) == Unify(JArray(d, inner)) + UnifyArray(r, n) by {
      forall n | 0 <= n <= |rest| ensures UnifyArray(o, n + 1) == Unify(JArray(d, inner)) + UnifyArray(r, n) {
        SplicePrefix(o, r, JArray(d, inner), n);
      }
    }
    assert Unify(o) == UnifyArray(o, |rest| + 1);
  }

  lemma {:induction false} SplicePrefix(o: JValue, r: JValue, head: JValue, n: nat)
    requires o.JArray? && r.JArray? && o.elems == [head] + r.elems && n <= |r.elems|
    ensures UnifyArray(o, n + 1) == Unify(head) + UnifyArray(r, n)
  {
    if n == 0 {
      assert UnifyArray(o, 1) == UnifyArray(o, 0) + Unify(o.elems[0]);
    } else {
      var u, a, b := Unify(head), UnifyArray(r, n - 1), Unify(r.elems[n - 1]);
      assert (u + a) + b == u + (a + b);
      SplicePrefix(o, r, head, n - 1);
      assert o.elems[n] == r.elems[n - 1];
      assert UnifyArray(o, n + 1) == (u + a) + b;
      assert UnifyArray(r, n) == a + b;
    }
  }

  // ------------------------------------------------------------ descriptors

  /** A descriptor entry: a property alias and how the property is read. */
  datatype Reflected = Reflected(alias: string, accessor: Accessor)

  /** Map.get on a descriptor: the first entry under the alias. */
  function Lookup(d: seq<Reflected>, alias: string): (r: Option<Accessor>)
    ensures r.Some? <==> exists k :: 0 <= k < |d| && d[k].alias == alias
  {
    if d == [] then None
    else if d[0].alias == alias then Some(d[0].accessor)
    else Lookup(d[1..], alias)
  }

  /** Map.put: replaces the entry under the alias in place, or appends one. */
  function Put(d: seq<Reflected>, e: Reflected): seq<Reflected> {
    if d == [] then [e]
    else if d[0].alias == e.alias then [e] + d[1..]
    else [d[0]] + Put(d[1..], e)
  }

  /** The get-then-skip idiom: adds the entry only when the alias is absent. */
  function PutIfAbsent(d: seq<Reflected>, e: Reflected): seq<Reflected> {
    if Lookup(d, e.alias).Some? then d else d + [e]
  }

  /** The entries put one after another, overwriting or keeping earlier ones. */
  function PutAll(d: seq<Reflected>, es: seq<Reflected>, overwrite: bool): seq<Reflected>
    decreases |es|
  {
    if es == [] then d
    else PutAll(if overwrite then Put(d, es[0]) else PutIfAbsent(d, es[0]), es[1..], overwrite)
  }

  lemma {:induction false} LookupPut(d: seq<Reflected>, e: Reflected, a: string)
    ensures Lookup(Put(d, e), a) == if a == e.alias then Some(e.accessor) else Lookup(d, a)
    decreases |d|
  {
    if d != [] && d[0].alias != e.alias {
      LookupPut(d[1..], e, a);
      assert Put(d, e)[1..] == Put(d[1..], e);
    } else if d != [] {
      assert ([e] + d[1..])[1..] == d[1..];
    }
  }

  lemma {:induction false} LookupAppend(d: seq<Reflected>, e: Reflected, a: string)
    ensures Lookup(d + [e], a) == if Lookup(d, a).Some? then Lookup(d, a) else if a == e.alias then Some(e.accessor) else None
    decreases |d|
  {
    if d != [] {
      assert (d + [e])[1..] == d[1..] + [e];
      LookupAppend(d[1..], e, a);
    }
  }

  /** The last entry under the alias, if any. */
  function LookupLast(es: seq<Reflected>, a: string): Option<Accessor> {
    if es == [] then None
    else if es[|es| - 1].alias == a then Some(es[|es| - 1].accessor)
    else LookupLast(es[..|es| - 1], a)
  }

  /** Putting without overwriting keeps what was there and otherwise takes the first new entry. */
  lemma {:induction false} LookupPutAllKeeping(d: seq<Reflected>, es: seq<Reflected>, a: string)
    ensures Lookup(PutAll(d, es, false), a) == if Lookup(d, a).Some? then Lookup(d, a) else Lookup(es, a)
    decreases |es|
  {
    if es != [] {
      var d' := PutIfAbsent(d, es[0]);
      LookupPutAllKeeping(d', es[1..], a);
      if Lookup(d, es[0].alias).None? {
        LookupAppend(d, es[0], a);
      }
    }
  }

  /** Putting with overwriting leaves the last new entry under the alias, or what was there. */
  lemma {:induction false} LookupPutAllOverwriting(d: seq<Reflected>, es: seq<Reflected>, a: string)
    ensures Lookup(PutAll(d, es, true), a) == if LookupLast(es, a).Some? then LookupLast(es, a) else Lookup(d, a)
    decreases |es|
  {
    if es != [] {
      LookupPutAllOverwriting(Put(d, es[0]), es[1..], a);
      LookupPut(d, es[0], a);
      LookupLastSplit(es, a);
    }
  }

  lemma {:induction false} LookupLastSplit(es: seq<Reflected>, a: string)
    requires es != []
    ensures LookupLast(es, a) ==
      if LookupLast(es[1..], a).Some? then LookupLast(es[1..], a)
      else if es[0].alias == a then Some(es[0].accessor) else None
    decreases |es|
  {
    if |es| > 1 && es[|es| - 1].alias != a {
      LookupLastSplit(es[..|es| - 1], a);
      assert es[..|es| - 1][1..] == es[1..][..|es[1..]| - 1];
    }
  }

  /** getFieldProperties excludes static, private and protected fields and names containing '$'. */
  predicate Visible(f: FieldDecl) {
    !f.mods.isStatic && !f.mods.isPrivate && !f.mods.isProtected && IndexOf(f.name, '$') == -1
  }

  /** getFieldProperties: the visible fields declared at one class level, in declaration order. */
  function FieldProperties(level: nat, decls: seq<FieldDecl>): seq<Reflected> {
    if decls == [] then []
    else
      var f := decls[|decls| - 1];
      FieldProperties(level, decls[..|decls| - 1]) + (if Visible(f) then [Reflected(f.name, FieldAt(level, f.name))] else [])
  }

  /** A name is found at a level exactly when a visible field of that name is declared there. */
  lemma {:induction false} FieldPropertiesHas(level: nat, decls: seq<FieldDecl>, a: string)
    ensures Lookup(FieldProperties(level, decls), a).Some? <==>
      exists k :: 0 <= k < |decls| && decls[k].name == a && Visible(decls[k])
    decreases |decls|
  {
    if decls != [] {
      var init := decls[..|decls| - 1];
      var f := decls[|decls| - 1];
      var fpInit := FieldProperties(level, init);
      var last: seq<Reflected> := if Visible(f) then [Reflected(f.name, FieldAt(level, f.name))] else [];
      assert FieldProperties(level, decls) == fpInit + last;
      FieldPropertiesHas(level, init, a);
      LookupConcat(fpInit, last, a);
      DeclaredSplit(decls, a);
    }
  }

  /** An alias is in a concatenation exactly when it is in one of the parts. */
  lemma LookupConcat(x: seq<Reflected>, y: seq<Reflected>, a: string)
    ensures Lookup(x + y, a).Some? <==> Lookup(x, a).Some? || Lookup(y, a).Some?
  {
    if Lookup(x, a).Some? {
      var k :| 0 <= k < |x| && x[k].alias == a;
      assert (x + y)[k] == x[k];
    }
    if Lookup(y, a).Some? {
      var k :| 0 <= k < |y| && y[k].alias == a;
      assert (x + y)[|x| + k] == y[k];
    }
    if Lookup(x + y, a).Some? {
      var k :| 0 <= k < |x + y| && (x + y)[k].alias == a;
      if k < |x| { assert x[k] == (x + y)[k]; } else { assert y[k - |x|] == (x + y)[k]; }
    }
  }

  /** A visible field named `a` is among the declarations. */
  predicate DeclaresField(decls: seq<FieldDecl>, a: string) {
    exists k :: 0 <= k < |decls| && decls[k].name == a && Visible(decls[k])
  }

  /** A visible field named `a` is among the declarations exactly when it is among all but the last, or is the last. */
  lemma DeclaredSplit(decls: seq<FieldDecl>, a: string)
    requires decls != []
    ensures DeclaresField(decls, a) <==>
      DeclaresField(decls[..|decls| - 1], a) || (decls[|decls| - 1].name == a && Visible(decls[|decls| - 1]))
  {
    var init := decls[..|decls| - 1];
    if DeclaresField(decls, a) {
      var k :| 0 <= k < |decls| && decls[k].name == a && Visible(decls[k]);
      if k < |decls| - 1 { assert init[k] == decls[k]; }
    }
    if DeclaresField(init, a) {
      var k :| 0 <= k < |init| && init[k].name == a && Visible(init[k]);
      assert decls[k] == init[k];
    }
  }

  /** What a level lists under a name is read from that level, and its first and last entries agree. */
  lemma {:induction false} FieldPropertiesValue(level: nat, decls: seq<FieldDecl>, a: string)
    ensures Lookup(FieldProperties(level, decls), a).Some? ==> Lookup(FieldProperties(level, decls), a) == Some(FieldAt(level, a))
    ensures LookupLast(FieldProperties(level, decls), a) == Lookup(FieldProperties(level, decls), a)
    decreases |decls|
  {
    if decls != [] {
      var f := decls[|decls| - 1];
      var fpInit := FieldProperties(level, decls[..|decls| - 1]);
      var fp := FieldProperties(level, decls);
      FieldPropertiesValue(level, decls[..|decls| - 1], a);
      if Visible(f) {
        var e := Reflected(f.name, FieldAt(level, f.name));
        assert fp == fpInit + [e];
        LookupAppend(fpInit, e, a);
        assert fp[..|fp| - 1] == fpInit;
      } else {
        assert fp == fpInit;
      }
    }
  }

  lemma FieldPropertiesFind(level: nat, decls: seq<FieldDecl>, a: string)
    ensures Lookup(FieldProperties(level, decls), a).Some? <==>
      exists k :: 0 <= k < |decls| && decls[k].name == a && Visible(decls[k])
    ensures Lookup(FieldProperties(level, decls), a).Some? ==> Lookup(FieldProperties(level, decls), a) == Some(FieldAt(level, a))
    ensures LookupLast(FieldProperties(level, decls), a) == Lookup(FieldProperties(level, decls), a)
  {
    FieldPropertiesHas(level, decls, a);
    FieldPropertiesValue(level, decls, a);
  }

  /**
   * getAllFieldProperties over the first n levels: the class's own fields
   * are put, then each superclass adds only names not yet present.
   */
  function FieldLevels(c: ClassDesc, n: nat): seq<Reflected>
    requires n <= |c.fieldsByLevel|
  {
    if n == 0 then []
    else if n == 1 then PutAll([], FieldProperties(0, c.fieldsByLevel[0]), true)
    else PutAll(FieldLevels(c, n - 1), FieldProperties(n - 1, c.fieldsByLevel[n - 1]), false)
  }

  function FieldDescriptor(c: ClassDesc): seq<Reflected> {
    FieldLevels(c, |c.fieldsByLevel|)
  }

  /** A visible field declared at `level`. */
  predicate DeclaresVisible(c: ClassDesc, level: nat, a: string)
    requires level < |c.fieldsByLevel|
  {
    exists k :: 0 <= k < |c.fieldsByLevel[level]| && c.fieldsByLevel[level][k].name == a
      && Visible(c.fieldsByLevel[level][k])
  }

  /** A name is in the field descriptor exactly when some level declares a visible field of that name. */
  lemma {:induction false} FieldLevelsFind(c: ClassDesc, n: nat, a: string)
    requires n <= |c.fieldsByLevel|
    ensures Lookup(FieldLevels(c, n), a).Some? <==> exists l :: 0 <= l < n && DeclaresVisible(c, l, a)
  {
    if n == 1 {
      LookupPutAllOverwriting([], FieldProperties(0, c.fieldsByLevel[0]), a);
      FieldPropertiesFind(0, c.fieldsByLevel[0], a);
      assert (exists l :: 0 <= l < 1 && DeclaresVisible(c, l, a)) <==> DeclaresVisible(c, 0, a);
    } else if n > 1 {
      FieldLevelsFind(c, n - 1, a);
      LookupPutAllKeeping(FieldLevels(c, n - 1), FieldProperties(n - 1, c.fieldsByLevel[n - 1]), a);
      FieldPropertiesFind(n - 1, c.fieldsByLevel[n - 1], a);
      assert (exists l :: 0 <= l < n && DeclaresVisible(c, l, a)) <==>
        (exists l :: 0 <= l < n - 1 && DeclaresVisible(c, l, a)) || DeclaresVisible(c, n - 1, a);
    }
  }

  /**
   * A subclass field shadows a superclass field of the same name: the
   * descriptor reads a name from the lowest class level that declares a
   * visible field of that name.
   */
  lemma {:induction false} FieldShadowing(c: ClassDesc, n: nat, a: string, l: nat)
    requires l < n <= |c.fieldsByLevel|
    requires DeclaresVisible(c, l, a) && forall j :: 0 <= j < l ==> !DeclaresVisible(c, j, a)
    ensures Lookup(FieldLevels(c, n), a) == Some(FieldAt(l, a))
  {
    if n == 1 {
      LookupPutAllOverwriting([], FieldProperties(0, c.fieldsByLevel[0]), a);
      FieldPropertiesFind(0, c.fieldsByLevel[0], a);
    } else if l == n - 1 {
      var props := FieldProperties(l, c.fieldsByLevel[l]);
      assert Lookup(FieldLevels(c, l), a).None? by {
        FieldLevelsFind(c, l, a);
      }
      assert Lookup(props, a) == Some(FieldAt(l, a)) by {
        FieldPropertiesFind(l, c.fieldsByLevel[l], a);
      }
      LookupPutAllKeeping(FieldLevels(c, l), props, a);
    } else {
      FieldShadowing(c, n - 1, a, l);
      LookupPutAllKeeping(FieldLevels(c, n - 1), FieldProperties(n - 1, c.fieldsByLevel[n - 1]), a);
    }
  }

  /** The first letter of an alias lower-cased, the rest kept. */
  function Decapitalize(alias: string): (r: string)
    requires alias != []
    ensures |r| == |alias| && r[0] == LowerChar(alias[0]) && r[1..] == alias[1..]
  {
    [LowerChar(alias[0])] + alias[1..]
  }

  predicate StartsWith(s: string, prefix: string) {
    |prefix| <= |s| && s[..|prefix|] == prefix
  }

  /** getAllMethodProperties's test of one public method: the alias it is exposed under, if any. */
  function GetterAlias(m: MethodDecl): (r: Option<string>)
    ensures r.Some? ==>
      m.paramCount == 0 && !m.returnsBoxedVoid && !m.isStatic && m.name != "getClass" && m.name != "is" && m.name != "get"
    ensures r.Some? ==>
      |r.value| >= 1
      && exists p :: (p == "is" || p == "get") && |m.name| == |p| + |r.value| && StartsWith(m.name, p)
                     && LowerChar(m.name[|p|]) == r.value[0] && m.name[|p| + 1..] == r.value[1..]
    ensures (m.paramCount == 0 && !m.returnsBoxedVoid && !m.isStatic && m.name != "getClass" && m.name != "is" && m.name != "get"
             && (StartsWith(m.name, "is") || StartsWith(m.name, "get"))) ==> r.Some?
  {
    if m.paramCount > 0 || m.returnsBoxedVoid || m.isStatic then None
    else if m.name == "getClass" || m.name == "is" || m.name == "get" then None
    else if StartsWith(m.name, "is") then Some(Decapitalize(m.name[2..]))
    else if StartsWith(m.name, "get") then Some(Decapitalize(m.name[3..]))
    else None
  }

  /** The accepted getters in getMethods order. */
  function MethodProperties(ms: seq<MethodDecl>): seq<Reflected> {
    if ms == [] then []
    else
      var m := ms[|ms| - 1];
      MethodProperties(ms[..|ms| - 1])
        + (match GetterAlias(m) case Some(a) => [Reflected(a, Getter(m.name))] case None => [])
  }

  /** The last getter listed under an alias is a method accepted under that alias. */
  lemma {:induction false} MethodPropertiesSound(ms: seq<MethodDecl>, a: string, name: string)
    requires LookupLast(MethodProperties(ms), a) == Some(Getter(name))
    ensures exists k :: 0 <= k < |ms| && ms[k].name == name && GetterAlias(ms[k]) == Some(a)
    decreases |ms|
  {
    var init := ms[..|ms| - 1];
    var m := ms[|ms| - 1];
    var mpInit := MethodProperties(init);
    var mp := MethodProperties(ms);
    match GetterAlias(m)
    case Some(b) =>
      var e := Reflected(b, Getter(m.name));
      assert mp == mpInit + [e];
      if b == a {
        assert ms[|ms| - 1].name == name;
      } else {
        assert mp[..|mp| - 1] == mpInit;
        MethodPropertiesSound(init, a, name);
        var k :| 0 <= k < |init| && init[k].name == name && GetterAlias(init[k]) == Some(a);
        assert ms[k] == init[k];
      }
    case None =>
      assert mp == mpInit;
      MethodPropertiesSound(init, a, name);
      var k :| 0 <= k < |init| && init[k].name == name && GetterAlias(init[k]) == Some(a);
      assert ms[k] == init[k];
  }

  /** getAllMethodProperties: later getters overwrite earlier ones under the same alias. */
  function MethodDescriptor(c: ClassDesc): seq<Reflected> {
    PutAll([], MethodProperties(c.methods), true)
  }

  /** getProperties: the field descriptor, then each getter whose alias no field took. */
  function Descriptor(c: ClassDesc): seq<Reflected> {
    PutAll(FieldDescriptor(c), MethodDescriptor(c), false)
  }

  /** A field shadows a getter with the same alias; a getter is used only where no field has the alias. */
  lemma FieldShadowsGetter(c: ClassDesc, a: string)
    ensures Lookup(FieldDescriptor(c), a).Some? ==> Lookup(Descriptor(c), a) == Lookup(FieldDescriptor(c), a)
    ensures Lookup(FieldDescriptor(c), a).None? ==> Lookup(Descriptor(c), a) == Lookup(MethodDescriptor(c), a)
  {
    LookupPutAllKeeping(FieldDescriptor(c), MethodDescriptor(c), a);
  }

  /**
   * Every getter entry of the descriptor comes from a public zero-argument
   * non-static isX/getX method whose alias it carries, and no field of that
   * alias is visible at any level.
   */
  lemma GetterEntriesSound(c: ClassDesc, a: string, name: string)
    requires Lookup(Descriptor(c), a) == Some(Getter(name))
    ensures exists k :: 0 <= k < |c.methods| && c.methods[k].name == name && GetterAlias(c.methods[k]) == Some(a)
    ensures forall l :: 0 <= l < |c.fieldsByLevel| ==> !DeclaresVisible(c, l, a)
  {
    FieldShadowsGetter(c, a);
    FieldLevelsFind(c, |c.fieldsByLevel|, a);
    if Lookup(FieldDescriptor(c), a).Some? {
      LevelsHoldFields(c, |c.fieldsByLevel|, a);
    }
    LookupPutAllOverwriting([], MethodProperties(c.methods), a);
    MethodPropertiesSound(c.methods, a, name);
  }

  /** The field descriptor holds only field accessors named by their alias. */
  lemma {:induction false} LevelsHoldFields(c: ClassDesc, n: nat, a: string)
    requires n <= |c.fieldsByLevel|
    ensures Lookup(FieldLevels(c, n), a).Some? ==> exists l :: 0 <= l < n && Lookup(FieldLevels(c, n), a) == Some(FieldAt(l, a))
  {
    if n == 1 {
      LookupPutAllOverwriting([], FieldProperties(0, c.fieldsByLevel[0]), a);
      FieldPropertiesFind(0, c.fieldsByLevel[0], a);
    } else if n > 1 {
      LevelsHoldFields(c, n - 1, a);
      LookupPutAllKeeping(FieldLevels(c, n - 1), FieldProperties(n - 1, c.fieldsByLevel[n - 1]), a);
      FieldPropertiesFind(n - 1, c.fieldsByLevel[n - 1], a);
    }
  }

  // ------------------------------------------------------------ the loops

  /** getFieldProperties. */
  method GetFieldProperties(level: nat, decls: seq<FieldDecl>) returns (fields: seq<Reflected>)
    ensures fields == FieldProperties(level, decls)
  {
    fields := [];
    for k := 0 to |decls|
      invariant fields == FieldProperties(level, decls[..k])
    {
      assert decls[..k + 1][..k] == decls[..k];
      var field := decls[k];
      if !Visible(field) {
        continue;
      }
      fields := fields + [Reflected(field.name, FieldAt(level, field.name))];
    }
    assert decls[..|decls|] == decls;
  }

  /** getAllFieldProperties: the class's own fields, then each superclass level in turn. */
  method GetAllFieldProperties(c: ClassDesc) returns (fields: seq<Reflected>)
    ensures fields == FieldDescriptor(c)
  {
    if |c.fieldsByLevel| == 0 {
      return [];
    }
    var own := GetFieldProperties(0, c.fieldsByLevel[0]);
    fields := PutEach([], own, true);
    var level := 1;
    while level < |c.fieldsByLevel|
      invariant 1 <= level <= |c.fieldsByLevel|
      invariant fields == FieldLevels(c, level)
    {
      var inherited := GetFieldProperties(level, c.fieldsByLevel[level]);
      fields := PutEach(fields, inherited, false);
      level := level + 1;
    }
  }

  /** The put loop over entries, overwriting or skipping names already present. */
  method PutEach(d: seq<Reflected>, es: seq<Reflected>, overwrite: bool) returns (r: seq<Reflected>)
    ensures r == PutAll(d, es, overwrite)
  {
    r := d;
    for k := 0 to |es|
      invariant PutAll(r, es[k..], overwrite) == PutAll(d, es, overwrite)
    {
      assert es[k..][1..] == es[k + 1..];
      if overwrite {
        r := Put(r, es[k]);
      } else if Lookup(r, es[k].alias).None? {
        r := r + [es[k]];
      }
    }
  }

  /** getAllMethodProperties: every public method is tested and accepted getters are put by alias. */
  method GetAllMethodProperties(c: ClassDesc) returns (methods: seq<Reflected>)
    ensures methods == MethodDescriptor(c)
  {
    var accepted: seq<Reflected> := [];
    for k := 0 to |c.methods|
      invariant accepted == MethodProperties(c.methods[..k])
    {
      assert c.methods[..k + 1][..k] == c.methods[..k];
      var alias := GetterAlias(c.methods[k]);
      if alias.None? {
        continue;
      }
      accepted := accepted + [Reflected(alias.value, Getter(c.methods[k].name))];
    }
    assert c.methods[..|c.methods|] == c.methods;
    methods := PutEach([], accepted, true);
  }

  /** The per-class descriptor cache of getProperties. */
  class DescriptorCache {
    var cache: map<ClassDesc, seq<Reflected>>

    ghost predicate Valid()
      reads this
    {
      forall c :: c in cache ==> cache[c] == Descriptor(c)
    }

    constructor ()
      ensures Valid() && cache == map[]
    {
      cache := map[];
    }

    /** getProperties: a cached descriptor is reused; otherwise it is built and stored. */
    method GetProperties(c: ClassDesc) returns (d: seq<Reflected>)
      requires Valid()
      modifies this
      ensures Valid()
      ensures d == Descriptor(c)
      ensures cache == old(cache)[c := d]
    {
      if c in cache {
        return cache[c];
      }
      var fields := GetAllFieldProperties(c);
      var methods := GetAllMethodProperties(c);
      d := PutEach(fields, methods, false);
      cache := cache[c := d];
    }
  }
}
