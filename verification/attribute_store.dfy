/**
 * The layered attribute store behind every mapping-model node and every
 * fluent builder: each attribute name owns a map from integer layer to value,
 * and a read sees the value at the numerically greatest layer present.
 */
module AttributeStores {
  import opened Wrappers

  /** attribute name -> (layer -> value) */
  type Layered<V> = map<string, map<int, V>>

  /** The layers recorded for `attr`; an attribute never written reads as no layers. */
  function LayersOf<V>(m: Layered<V>, attr: string): map<int, V>
  {
    if attr in m then m[attr] else map[]
  }

  /** The value held in one slot (attribute, layer), if any. */
  function Slot<V>(m: Layered<V>, attr: string, layer: int): Option<V>
  {
    var layers := LayersOf(m, attr);
    if layer in layers then Some(layers[layer]) else None
  }

  lemma {:induction false} TopLayerExists(layers: set<int>)
    requires layers != {}
    ensures exists top :: top in layers && forall l :: l in layers ==> l <= top
  {
    if forall y :: y !in layers {
      assert false;
    }
    var x :| x in layers;
    if layers != {x} {
      var rest := layers - {x};
      TopLayerExists(rest);
      var t :| t in rest && forall l :: l in rest ==> l <= t;
      var top := if t < x then x else t;
      forall l | l in layers
        ensures l <= top
      {
        if l != x {
          assert l in rest;
        }
      }
    }
  }

  /** The numerically greatest layer of a non-empty set of layers. */
  function TopLayer(layers: set<int>): (top: int)
    requires layers != {}
    ensures top in layers
    ensures forall l :: l in layers ==> l <= top
  {
    TopLayerExists(layers);
    var top :| top in layers && forall l :: l in layers ==> l <= top;
    top
  }

  /** The store's read: the value at the greatest layer, or nothing when no layer is recorded. */
  function Lookup<V>(m: Layered<V>, attr: string): (r: Option<V>)
    ensures r.None? <==> LayersOf(m, attr) == map[]
    ensures r.Some? ==> exists top :: top in LayersOf(m, attr) && LayersOf(m, attr)[top] == r.value
                                        && forall l :: l in LayersOf(m, attr) ==> l <= top
  {
    var layers := LayersOf(m, attr);
    if layers == map[] then None
    else
      var top := TopLayer(layers.Keys);
      Some(layers[top])
  }

  /** The store's write: one slot (attr, layer) receives `value`. */
  function Put<V>(m: Layered<V>, attr: string, layer: int, value: V): (r: Layered<V>)
    ensures Slot(r, attr, layer) == Some(value)
    ensures forall b, k :: (b != attr || k != layer) ==> Slot(r, b, k) == Slot(m, b, k)
    ensures r.Keys == m.Keys + {attr}
  {
    m[attr := LayersOf(m, attr)[layer := value]]
  }

  /** An attribute is specified when the store has an entry for it, even one with no layers. */
  predicate Specified<V>(m: Layered<V>, attr: string)
  {
    attr in m
  }

  /** An attribute has a value when it has an entry holding at least one layer. */
  predicate HasValue<V>(m: Layered<V>, attr: string)
  {
    attr in m && m[attr] != map[]
  }

  /** Copying one store into another: every slot of `source` overwrites the same slot of `target`. */
  function CopyInto<V>(source: Layered<V>, target: Layered<V>): (r: Layered<V>)
    ensures r.Keys == source.Keys + target.Keys
    ensures forall a, k :: Slot(r, a, k) == if Slot(source, a, k).Some? then Slot(source, a, k) else Slot(target, a, k)
  {
    map a | a in source.Keys + target.Keys :: LayersOf(target, a) + LayersOf(source, a)
  }

  /** A read after a write: the new value wins iff its layer is at or above every layer already recorded. */
  lemma {:induction false} LookupAfterPut<V>(m: Layered<V>, attr: string, layer: int, value: V)
    ensures Lookup(Put(m, attr, layer, value), attr) ==
      if forall k :: k in LayersOf(m, attr) ==> k <= layer then Some(value) else Lookup(m, attr)
    ensures forall b :: b != attr ==> Lookup(Put(m, attr, layer, value), b) == Lookup(m, b)
  {
    var m' := Put(m, attr, layer, value);
    var before := LayersOf(m, attr);
    var after := LayersOf(m', attr);
    assert after == before[layer := value];
    var top' := TopLayer(after.Keys);
    if forall k :: k in before ==> k <= layer {
      assert top' == layer;
    } else {
      var k :| k in before && k > layer;
      var top := TopLayer(before.Keys);
      assert top > layer;
      assert top in after.Keys;
      assert top' in before.Keys || top' == layer;
      assert top' == top;
      assert after[top'] == before[top];
    }
    forall b | b != attr
      ensures Lookup(m', b) == Lookup(m, b)
    {
      assert LayersOf(m', b) == LayersOf(m, b);
    }
  }

  /** Defaults lose to user-supplied values: a write below an existing higher layer is invisible to reads. */
  lemma HigherLayerWins<V>(m: Layered<V>, attr: string, hi: int, lo: int, v1: V, v2: V)
    requires lo < hi
    requires forall k :: k in LayersOf(m, attr) ==> k <= hi
    ensures Lookup(Put(Put(m, attr, hi, v1), attr, lo, v2), attr) == Some(v1)
  {
    LookupAfterPut(m, attr, hi, v1);
    var m1 := Put(m, attr, hi, v1);
    assert hi in LayersOf(m1, attr);
    LookupAfterPut(m1, attr, lo, v2);
  }

  /** A second write to the same slot replaces the first. */
  lemma {:induction false} SameLayerReplaces<V>(m: Layered<V>, attr: string, layer: int, v1: V, v2: V)
    ensures Put(Put(m, attr, layer, v1), attr, layer, v2) == Put(m, attr, layer, v2)
  {
    assert LayersOf(Put(m, attr, layer, v1), attr)[layer := v2] == LayersOf(m, attr)[layer := v2];
  }

  /** Having a value is the stronger of the two presence tests, and reads agree with it. */
  lemma HasValueIsSpecifiedWithRead<V>(m: Layered<V>, attr: string)
    ensures HasValue(m, attr) ==> Specified(m, attr)
    ensures HasValue(m, attr) <==> Lookup(m, attr).Some?
  {
  }

  /** Copying into an empty store reproduces the source exactly. */
  lemma {:induction false} CopyIntoEmpty<V>(source: Layered<V>)
    ensures CopyInto(source, map[]) == source
  {
    var r := CopyInto(source, map[]);
    forall a | a in source
      ensures r[a] == source[a]
    {
      var empty: Layered<V> := map[];
      assert LayersOf(empty, a) == map[];
      assert LayersOf(empty, a) + LayersOf(source, a) == source[a];
    }
  }

  /**
   * AttributeStore: the untyped store.  `Get` answers with the top layer,
   * `Set` writes one slot, `CopyTo` copies slot by slot, `Clone` copies into
   * a fresh store and `Equals` compares contents.
   */
  class AttributeStore<V(==)> {
    var values: Layered<V>

    constructor ()
      ensures values == map[]
    {
      values := map[];
    }

    function Get(attr: string): Option<V>
      reads this
    {
      Lookup(values, attr)
    }

    method Set(attr: string, layer: int, value: V)
      modifies this
      ensures values == Put(old(values), attr, layer, value)
      ensures Get(attr) == if forall k :: k in LayersOf(old(values), attr) ==> k <= layer
                           then Some(value) else old(Get(attr))
      ensures forall b :: b != attr ==> Get(b) == old(Get(b))
    {
      LookupAfterPut(values, attr, layer, value);
      values := Put(values, attr, layer, value);
    }

    predicate IsSpecified(attr: string)
      reads this
    {
      Specified(values, attr)
    }

    predicate HasAnyValue(attr: string)
      reads this
    {
      HasValue(values, attr)
    }

    method CopyTo(theirs: AttributeStore<V>)
      modifies theirs
      ensures theirs.values == CopyInto(old(values), old(theirs.values))
    {
      theirs.values := CopyInto(values, theirs.values);
    }

    method Clone() returns (cloned: AttributeStore<V>)
      ensures fresh(cloned)
      ensures cloned.values == values
      ensures forall a :: cloned.Get(a) == Get(a) && cloned.HasAnyValue(a) == HasAnyValue(a)
    {
      cloned := new AttributeStore();
      CopyTo(cloned);
      CopyIntoEmpty(values);
    }

    predicate Equals(other: AttributeStore?<V>)
      reads this, other
    {
      other != null && other.values == values
    }
  }

  /** The selector of a typed read or write: the member an expression names. */
  datatype MemberExpression = MemberExpression(declaringType: nat, name: string)

  /** The typed view keys every attribute by the selected member's name. */
  function AttributeName(e: MemberExpression): string
  {
    e.name
  }

  /** A typed read: the store's value, or the type's default when the store has none. */
  function TypedRead<V>(m: Layered<V>, e: MemberExpression, default: V): (r: V)
    ensures Lookup(m, e.name).None? ==> r == default
    ensures Lookup(m, e.name).Some? ==> r == Lookup(m, e.name).value
  {
    match Lookup(m, AttributeName(e))
    case None => default
    case Some(v) => v
  }

  /** Two selectors naming the same member share one slot, whatever their declaring type. */
  lemma SameMemberSharesSlot<V>(m: Layered<V>, e1: MemberExpression, e2: MemberExpression, layer: int, v: V, d: V)
    requires e1.name == e2.name
    requires forall k :: k in LayersOf(m, e1.name) ==> k <= layer
    ensures TypedRead(Put(m, AttributeName(e1), layer, v), e2, d) == v
  {
    LookupAfterPut(m, e1.name, layer, v);
  }

  /**
   * AttributeStore<T>: a typed view over an untyped store, keyed by member name.
   */
  class TypedAttributeStore<V(==)> {
    const store: AttributeStore<V>

    constructor ()
      ensures fresh(store) && store.values == map[]
    {
      store := new AttributeStore();
    }

    constructor Wrap(underlying: AttributeStore<V>)
      ensures store == underlying
    {
      store := underlying;
    }

    function Get(e: MemberExpression, default: V): V
      reads store
    {
      TypedRead(store.values, e, default)
    }

    method Set(e: MemberExpression, layer: int, value: V)
      modifies store
      ensures store.values == Put(old(store.values), e.name, layer, value)
    {
      store.Set(AttributeName(e), layer, value);
    }

    predicate IsSpecified(e: MemberExpression)
      reads store
    {
      store.IsSpecified(AttributeName(e))
    }

    predicate HasAnyValue(e: MemberExpression)
      reads store
    {
      store.HasAnyValue(AttributeName(e))
    }

    method Clone() returns (cloned: TypedAttributeStore<V>)
      ensures fresh(cloned) && fresh(cloned.store)
      ensures cloned.store.values == store.values
    {
      cloned := new TypedAttributeStore();
      store.CopyTo(cloned.store);
      CopyIntoEmpty(store.values);
    }

    method CloneInner() returns (cloned: AttributeStore<V>)
      ensures fresh(cloned)
      ensures cloned.values == store.values
    {
      cloned := store.Clone();
    }

    predicate Equals(other: TypedAttributeStore<V>)
      reads this, other, store, other.store
    {
      other.store == store || store.Equals(other.store)
    }
  }
}
