/**
 * LogContext: the per-thread stack of pushed properties. Each push makes an
 * item holding a PropertyEnricher; closing an item removes it; the
 * enrichers handed to a logger keep only the most recent item of each name.
 * The thread-local stack is one LogContext object here.
 */
module Context {
  import opened Wrappers
  import opened Values
  import opened Enrichers

  /** LogContextItem: the handle pushProperty returns; closing it pops it. */
  class LogContextItem {
    const enricher: Enricher

    constructor (enricher: Enricher)
      ensures this.enricher == enricher
    {
      this.enricher := enricher;
    }
  }

  /** The enrichers of the items, bottom of the stack first. */
  function EnrichersOf(items: seq<LogContextItem>): (r: seq<Enricher>)
    ensures |r| == |items|
    ensures forall i :: 0 <= i < |items| ==> r[i] == items[i].enricher
  {
    if items == [] then [] else [items[0].enricher] + EnrichersOf(items[1..])
  }

  /** ArrayList.remove(item): the first occurrence goes, the rest keep their order. */
  function Without(items: seq<LogContextItem>, item: LogContextItem): (r: seq<LogContextItem>)
    ensures item !in items ==> r == items
    ensures item in items ==> |r| == |items| - 1
  {
    if items == [] then []
    else if items[0] == item then items[1..]
    else [items[0]] + Without(items[1..], item)
  }

  /** The names of a list of enrichers, in order. */
  function Names(es: seq<Enricher>): (r: seq<string>)
    ensures |r| == |es|
    ensures forall i :: 0 <= i < |es| ==> r[i] == Name(es[i])
  {
    if es == [] then [] else [Name(es[0])] + Names(es[1..])
  }

  /**
   * getEnrichers as a value: the items visited from the top of the stack
   * down, each kept unless a more recent one of the same name was kept.
   */
  function Recent(es: seq<Enricher>): seq<Enricher>
  {
    if es == [] then []
    else
      var r := Recent(es[1..]);
      if Name(es[0]) in Names(r) then r else r + [es[0]]
  }

  class LogContext {
    var items: seq<LogContextItem>

    /** No item is on the stack twice. */
    ghost predicate Valid()
      reads this
    {
      forall i, j :: 0 <= i < j < |items| ==> items[i] != items[j]
    }

    constructor ()
      ensures Valid() && items == []
    {
      items := [];
    }

    /**
     * pushProperty: a name that is not valid throws before the stack
     * changes; otherwise exactly one new item goes on top.
     */
    method PushProperty(name: string, value: JValue, destructureObjects: bool) returns (r: Outcome<LogContextItem>)
      requires Valid()
      modifies this
      ensures Valid()
      ensures r.Thrown? <==> !ValidName(name)
      ensures r.Thrown? ==> r.failure == IllegalArgument("name") && items == old(items)
      ensures r.Ok? ==>
        fresh(r.value) && items == old(items) + [r.value] && r.value.enricher == PropertyEnricher(name, value, destructureObjects)
    {
      var enricher := NewPropertyEnricher(name, value, destructureObjects);
      if enricher.Thrown? {
        return Thrown(enricher.failure);
      }
      var item := new LogContextItem(enricher.value);
      items := items + [item];
      r := Ok(item);
    }

    /** LogContextItem.close, through popProperty: that item leaves the stack, the others keep their order. */
    method Close(item: LogContextItem)
      requires Valid()
      modifies this
      ensures Valid()
      ensures items == Without(old(items), item)
    {
      WithoutKeepsDistinct(items, item);
      items := Without(items, item);
    }

    /** getEnrichers: one reverse pass, skipping names already seen. */
    method GetEnrichers() returns (es: seq<Enricher>)
      ensures es == Recent(EnrichersOf(items))
    {
      var all := EnrichersOf(items);
      es := [];
      var seen: set<string> := {};
      var i := |all|;
      while i > 0
        invariant 0 <= i <= |all|
        invariant es == Recent(all[i..])
        invariant seen == set n | n in Names(es)
        decreases i
      {
        i := i - 1;
        assert all[i..][1..] == all[i + 1..];
        var name := Name(all[i]);
        if name in seen {
          continue;
        }
        NamesAppend(es, all[i]);
        es := es + [all[i]];
        seen := seen + {name};
      }
    }
  }

  lemma {:induction false} NamesAppend(es: seq<Enricher>, e: Enricher)
    ensures Names(es + [e]) == Names(es) + [Name(e)]
  {
  }

  /** Removing an item from a list without repeats leaves a list without repeats, holding the others. */
  lemma {:induction false} WithoutKeepsDistinct(items: seq<LogContextItem>, item: LogContextItem)
    requires forall i, j :: 0 <= i < j < |items| ==> items[i] != items[j]
    ensures forall i, j :: 0 <= i < j < |Without(items, item)| ==> Without(items, item)[i] != Without(items, item)[j]
    ensures forall x :: x in Without(items, item) <==> x in items && x != item
  {
    if items != [] && items[0] != item {
      WithoutKeepsDistinct(items[1..], item);
      var r := Without(items[1..], item);
      assert Without(items, item) == [items[0]] + r;
      assert items[0] !in items[1..];
    }
  }

  /** Closing an item that was pushed and not yet closed removes it and only it. */
  lemma CloseRemovesExactly(items: seq<LogContextItem>, item: LogContextItem)
    requires forall i, j :: 0 <= i < j < |items| ==> items[i] != items[j]
    requires item in items
    ensures item !in Without(items, item)
    ensures |Without(items, item)| == |items| - 1
    ensures forall x :: x in items && x != item ==> x in Without(items, item)
  {
    WithoutKeepsDistinct(items, item);
  }

  /** Closing keeps the remaining items in their order: the result is the list with that one index cut out. */
  lemma {:induction false} WithoutCutsIndex(items: seq<LogContextItem>, k: nat)
    requires k < |items| && forall i :: 0 <= i < k ==> items[i] != items[k]
    ensures Without(items, items[k]) == items[..k] + items[k + 1..]
  {
    if k > 0 {
      WithoutCutsIndex(items[1..], k - 1);
      assert items[1..][..k - 1] + items[1..][k..] == items[1..k] + items[k + 1..];
      assert items[..k] == [items[0]] + items[1..k];
    }
  }

  /** getEnrichers keeps at most one enricher per name. */
  lemma {:induction false} RecentDistinctNames(es: seq<Enricher>)
    ensures forall i, j :: 0 <= i < j < |Recent(es)| ==> Name(Recent(es)[i]) != Name(Recent(es)[j])
  {
    if es != [] {
      RecentDistinctNames(es[1..]);
      var r := Recent(es[1..]);
      if Name(es[0]) !in Names(r) {
        forall i | 0 <= i < |r| ensures Name(r[i]) != Name(es[0]) {
          assert Names(r)[i] == Name(r[i]);
        }
      }
    }
  }

  /**
   * Every name on the stack is represented, by the most recently pushed
   * enricher of that name, and only enrichers from the stack appear.
   */
  lemma RecentKeepsLatest(es: seq<Enricher>, n: string)
    ensures (exists x :: x in Recent(es) && Name(x) == n) <==> exists i :: 0 <= i < |es| && Name(es[i]) == n
    ensures forall x :: x in Recent(es) && Name(x) == n ==>
      exists i :: 0 <= i < |es| && x == es[i] && forall j :: i < j < |es| ==> Name(es[j]) != n
    ensures forall x :: x in Recent(es) ==> x in es
  {
    RecentFindsNames(es, n);
    RecentIsLatest(es, n);
    RecentFromStack(es);
  }

  /** The enricher getEnrichers keeps for a name is the one pushed last under that name. */
  lemma {:induction false} RecentIsLatest(es: seq<Enricher>, n: string)
    ensures forall x :: x in Recent(es) && Name(x) == n ==>
      exists i :: 0 <= i < |es| && x == es[i] && forall j :: i < j < |es| ==> Name(es[j]) != n
    decreases |es|
  {
    if es != [] {
      var r := Recent(es[1..]);
      RecentIsLatest(es[1..], n);
      forall x | x in Recent(es) && Name(x) == n
        ensures exists i :: 0 <= i < |es| && x == es[i] && forall j :: i < j < |es| ==> Name(es[j]) != n
      {
        if x in r {
          var i :| 0 <= i < |es[1..]| && x == es[1..][i] && forall j :: i < j < |es[1..]| ==> Name(es[1..][j]) != n;
          assert forall j :: i + 1 < j < |es| ==> Name(es[j]) != n by {
            forall j | i + 1 < j < |es| ensures Name(es[j]) != n {
              assert es[j] == es[1..][j - 1];
            }
          }
          assert x == es[i + 1];
        } else {
          assert x == es[0] && n !in Names(r);
          forall j | 0 < j < |es| ensures Name(es[j]) != n {
            if Name(es[j]) == n {
              assert Name(es[1..][j - 1]) == n;
              RecentFindsNames(es[1..], n);
            }
          }
        }
      }
    }
  }

  /** A name has an enricher in getEnrichers exactly when some enricher on the stack has that name. */
  lemma {:induction false} RecentFindsNames(es: seq<Enricher>, n: string)
    ensures (exists x :: x in Recent(es) && Name(x) == n) <==> exists i :: 0 <= i < |es| && Name(es[i]) == n
    decreases |es|
  {
    if es != [] {
      var r := Recent(es[1..]);
      RecentFindsNames(es[1..], n);
      RecentFromStack(es[1..]);
      if exists i :: 0 <= i < |es| && Name(es[i]) == n {
        var i :| 0 <= i < |es| && Name(es[i]) == n;
        if i > 0 {
          assert Name(es[1..][i - 1]) == n;
        } else if Name(es[0]) in Names(r) {
          var k :| 0 <= k < |Names(r)| && Names(r)[k] == Name(es[0]);
          assert r[k] in r;
        }
      }
    }
  }

  /** getEnrichers only returns enrichers from the stack. */
  lemma {:induction false} RecentFromStack(es: seq<Enricher>)
    ensures forall x :: x in Recent(es) ==> x in es
    decreases |es|
  {
    if es != [] {
      var r := Recent(es[1..]);
      RecentFromStack(es[1..]);
      forall x | x in Recent(es) ensures x in es {
        if x in r {
          assert x in es[1..];
        }
      }
    }
  }
}
