/**
 * CollectionTypeSource: a type source over a fixed collection of types.  Its
 * identifier lists the type names in name order, so two sources over the same
 * types, in whatever order, identify alike.
 */
module TypeSources {
  import opened TypeGraphs

  /** Ordinal order on names: character by character, a proper prefix first. */
  predicate NameLe(a: string, b: string)
    decreases |a|
  {
    a == [] || (b != [] && (a[0] < b[0] || (a[0] == b[0] && NameLe(a[1..], b[1..]))))
  }

  lemma {:induction false} NameLeTotal(a: string, b: string)
    ensures NameLe(a, b) || NameLe(b, a)
    decreases |a|
  {
    if a != [] && b != [] && a[0] == b[0] {
      NameLeTotal(a[1..], b[1..]);
    }
  }

  lemma {:induction false} NameLeAntisymmetric(a: string, b: string)
    requires NameLe(a, b) && NameLe(b, a)
    ensures a == b
    decreases |a|
  {
    if a != [] {
      NameLeAntisymmetric(a[1..], b[1..]);
      assert a == [a[0]] + a[1..] && b == [b[0]] + b[1..];
    }
  }

  lemma {:induction false} NameLeTransitive(a: string, b: string, c: string)
    requires NameLe(a, b) && NameLe(b, c)
    ensures NameLe(a, c)
    decreases |a|
  {
    if a != [] && a[0] == b[0] && b[0] == c[0] {
      NameLeTransitive(a[1..], b[1..], c[1..]);
    }
  }

  predicate SortedNames(xs: seq<string>)
  {
    forall i, j :: 0 <= i < j < |xs| ==> NameLe(xs[i], xs[j])
  }

  /** Inserts a name into a sorted list before the first name it does not follow. */
  function Insert(x: string, s: seq<string>): (r: seq<string>)
    requires SortedNames(s)
    ensures multiset(r) == multiset(s) + multiset{x}
    ensures SortedNames(r)
  {
    if s == [] then [x]
    else if NameLe(x, s[0]) then
      SortedBefore(x, s);
      [x] + s
    else
      var rest := Insert(x, s[1..]);
      NameLeTotal(x, s[0]);
      SortedAfterHead(x, s, rest);
      [s[0]] + rest
  }

  /** A name no greater than the head of a sorted list may go before it. */
  lemma SortedBefore(x: string, s: seq<string>)
    requires SortedNames(s) && s != [] && NameLe(x, s[0])
    ensures SortedNames([x] + s)
  {
    forall j | 0 < j < |s| ensures NameLe(x, s[j]) { NameLeTransitive(x, s[0], s[j]); }
  }

  /** The head of a sorted list may go before the rest with x inserted, when x follows it. */
  lemma SortedAfterHead(x: string, s: seq<string>, rest: seq<string>)
    requires SortedNames(s) && s != [] && NameLe(s[0], x)
    requires multiset(rest) == multiset(s[1..]) + multiset{x} && SortedNames(rest)
    ensures SortedNames([s[0]] + rest)
    ensures multiset([s[0]] + rest) == multiset(s) + multiset{x}
  {
    assert s == [s[0]] + s[1..];
    forall j | 0 <= j < |rest| ensures NameLe(s[0], rest[j]) {
      var y := rest[j];
      assert y in multiset(rest);
      if y != x {
        assert y in multiset(s[1..]);
        var k :| 0 <= k < |s[1..]| && s[1..][k] == y;
        assert s[k + 1] == y;
      }
    }
  }

  /** `OrderBy(name)`: the names sorted ordinally. */
  function SortNames(xs: seq<string>): (r: seq<string>)
    ensures multiset(r) == multiset(xs) && SortedNames(r)
  {
    if xs == [] then []
    else
      assert xs == [xs[0]] + xs[1..];
      Insert(xs[0], SortNames(xs[1..]))
  }

  /** Removing the element at position k removes one copy of it. */
  lemma MultisetRemove<T>(xs: seq<T>, k: nat)
    requires k < |xs|
    ensures multiset(xs[..k] + xs[k + 1..]) == multiset(xs) - multiset{xs[k]}
  {
    assert xs == xs[..k] + [xs[k]] + xs[k + 1..];
    assert multiset(xs) == multiset(xs[..k]) + multiset{xs[k]} + multiset(xs[k + 1..]);
  }

  lemma MultisetTail<T>(xs: seq<T>)
    requires xs != []
    ensures multiset(xs[1..]) == multiset(xs) - multiset{xs[0]}
  {
    assert xs == [xs[0]] + xs[1..];
  }

  lemma SortedTail(a: seq<string>)
    requires SortedNames(a) && a != []
    ensures SortedNames(a[1..])
  {
  }

  /** The first of a sorted list precedes every element. */
  lemma SortedHeadIsLeast(a: seq<string>, y: string)
    requires SortedNames(a) && a != [] && y in multiset(a)
    ensures NameLe(a[0], y)
  {
    var i :| 0 <= i < |a| && a[i] == y;
    if i == 0 { NameLeTotal(y, y); }
  }

  /** A sorted list is fixed by its elements: two sorted lists with the same elements are equal. */
  lemma {:induction false} SortedIsUnique(a: seq<string>, b: seq<string>)
    requires SortedNames(a) && SortedNames(b) && multiset(a) == multiset(b)
    ensures a == b
    decreases |a|
  {
    if a == [] {
      assert |multiset(b)| == 0;
    } else {
      assert b != [] by { assert |multiset(a)| == |multiset(b)|; }
      assert a[0] in multiset(b) && b[0] in multiset(a);
      SortedHeadIsLeast(a, b[0]);
      SortedHeadIsLeast(b, a[0]);
      NameLeAntisymmetric(a[0], b[0]);
      SameHeadSameTail(a, b);
      SortedTail(a);
      SortedTail(b);
      SortedIsUnique(a[1..], b[1..]);
      assert a == [a[0]] + a[1..] && b == [b[0]] + b[1..];
    }
  }

  /** Lists with the same elements and the same head have tails with the same elements. */
  lemma SameHeadSameTail<T>(a: seq<T>, b: seq<T>)
    requires multiset(a) == multiset(b) && a != [] && b != [] && a[0] == b[0]
    ensures multiset(a[1..]) == multiset(b[1..])
  {
    MultisetTail(a);
    MultisetTail(b);
  }

  /** `string.Join(sep, xs)` */
  function Join(xs: seq<string>, sep: string): string
  {
    if xs == [] then "" else if |xs| == 1 then xs[0] else xs[0] + sep + Join(xs[1..], sep)
  }

  /** CollectionTypeSource: the constructor takes a copy of the types, so later changes to the caller's list are not seen. */
  datatype CollectionTypeSource = CollectionTypeSource(types: seq<TypeId>)

  /** `GetTypes()`: the copied types, in their original order. */
  function GetTypes(s: CollectionTypeSource): (r: seq<TypeId>)
    ensures r == s.types
  {
    s.types
  }

  /** `Select(x => x.Name)` */
  function Names(ts: seq<TypeId>, nameOf: TypeId -> string): (r: seq<string>)
    ensures |r| == |ts|
  {
    if ts == [] then [] else [nameOf(ts[0])] + Names(ts[1..], nameOf)
  }

  /** `GetIdentifier()`: "Collection[" + the type names in name order, comma-separated + "]". */
  function GetIdentifier(s: CollectionTypeSource, nameOf: TypeId -> string): (r: string)
    ensures |r| >= 12 && r[..11] == "Collection[" && r[|r| - 1] == ']'
  {
    "Collection[" + Join(SortNames(Names(s.types, nameOf)), ", ") + "]"
  }

  lemma {:induction false} NamesAppend(ts: seq<TypeId>, us: seq<TypeId>, nameOf: TypeId -> string)
    ensures multiset(Names(ts + us, nameOf)) == multiset(Names(ts, nameOf)) + multiset(Names(us, nameOf))
  {
    if ts == [] {
      assert ts + us == us;
    } else {
      assert (ts + us)[0] == ts[0] && (ts + us)[1..] == ts[1..] + us;
      NamesAppend(ts[1..], us, nameOf);
    }
  }

  lemma SplitAt<T>(xs: seq<T>, k: nat)
    requires k < |xs|
    ensures xs == xs[..k] + ([xs[k]] + xs[k + 1..])
  {
  }

  lemma {:induction false} NamesOfPermutation(ts: seq<TypeId>, us: seq<TypeId>, nameOf: TypeId -> string)
    requires multiset(ts) == multiset(us)
    ensures multiset(Names(ts, nameOf)) == multiset(Names(us, nameOf))
    decreases |ts|
  {
    if ts == [] {
      assert us == [] by { assert |multiset(us)| == 0; }
    } else {
      var t := ts[0];
      assert t in multiset(us);
      var k :| 0 <= k < |us| && us[k] == t;
      var pre, post := us[..k], us[k + 1..];
      MultisetTail(ts);
      MultisetRemove(us, k);
      NamesOfPermutation(ts[1..], pre + post, nameOf);
      SplitAt(us, k);
      NamesAppend(pre, [t] + post, nameOf);
      NamesAppend([t], post, nameOf);
      NamesAppend(pre, post, nameOf);
    }
  }

  /** Two sources over the same types, in any order, have the same identifier. */
  lemma IdentifierIgnoresOrder(s1: CollectionTypeSource, s2: CollectionTypeSource, nameOf: TypeId -> string)
    requires multiset(s1.types) == multiset(s2.types)
    ensures GetIdentifier(s1, nameOf) == GetIdentifier(s2, nameOf)
  {
    NamesOfPermutation(s1.types, s2.types, nameOf);
    SortedIsUnique(SortNames(Names(s1.types, nameOf)), SortNames(Names(s2.types, nameOf)));
  }

  /** The diagnostic logger, as far as sources are concerned: the sources it was told were loaded. */
  class DiagnosticLogger {
    var loadedSources: seq<CollectionTypeSource>

    constructor ()
      ensures loadedSources == []
    {
      loadedSources := [];
    }

    method LoadedFluentMappingsFromSource(s: CollectionTypeSource)
      modifies this
      ensures loadedSources == old(loadedSources) + [s]
    {
      loadedSources := loadedSources + [s];
    }
  }

  /** `LogSource(logger)`: reports this source to the logger, once. */
  method LogSource(s: CollectionTypeSource, logger: DiagnosticLogger)
    modifies logger
    ensures logger.loadedSources == old(logger.loadedSources) + [s]
  {
    logger.LoadedFluentMappingsFromSource(s);
  }
}
