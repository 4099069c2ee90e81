/**
 * AutoKeyMapper: the automapping step that gives a collection its key.  The
 * key points back at the owning class and has one default column named
 * after the member's declaring type; it is installed as a default, so a
 * key set any other way wins over it.
 */
module AutoKeyMappers {
  import opened Wrappers
  import opened TypeGraphs
  import opened AttributeStores
  import opened MappingModel
  import opened NodeOperations

  /** The key SetKey builds for a collection member of a class map of type `classType`. */
  function AutoKey(property: Member, classType: TypeId, nameOf: TypeId -> string): KeyMapping
  {
    KeyAddDefaultColumn(KeyMapping(map[], NoColumns, Some(classType)), NamedColumn(nameOf(property.declaringType) + "_id"))
  }

  /** `SetKey(property, classMap, mapping)`: the key, installed on the collection at Defaults. */
  function SetKey(property: Member, classType: TypeId, mapping: CollectionMapping, nameOf: TypeId -> string): CollectionMapping
  {
    mapping.(store := Put(mapping.store, "Key", Defaults, KeyChild(AutoKey(property, classType, nameOf))))
  }

  /**
   * The key has the class map's type as containing entity and exactly one
   * column, a default named DeclaringType.Name + "_id"; the collection
   * reads it as its key unless a key was set above Defaults, which is kept;
   * nothing else about the collection changes.
   */
  lemma SetKeyInstallsDefaultKey(property: Member, classType: TypeId, mapping: CollectionMapping,
                                 nameOf: TypeId -> string)
    ensures var k := AutoKey(property, classType, nameOf);
            && k.containingEntityType == Some(classType) && k.store == map[]
            && k.columns.userDefined == []
            && Columns(k.columns) == [NamedColumn(nameOf(property.declaringType) + "_id")]
    ensures var r := SetKey(property, classType, mapping, nameOf);
            && CollectionKeyOf(r) == (if forall l :: l in LayersOf(mapping.store, "Key") ==> l <= Defaults
                                      then Some(AutoKey(property, classType, nameOf)) else CollectionKeyOf(mapping))
            && (forall a :: a != "Key" ==> Lookup(r.store, a) == Lookup(mapping.store, a))
            && r.(store := mapping.store) == mapping
  {
    LookupAfterPut(mapping.store, "Key", Defaults, KeyChild(AutoKey(property, classType, nameOf)));
  }

  /** A key the user supplied survives the automapper's default key. */
  lemma UserKeySurvives(property: Member, classType: TypeId, mapping: CollectionMapping,
                        nameOf: TypeId -> string, userKey: KeyMapping)
    requires forall l :: l in LayersOf(mapping.store, "Key") ==> l <= UserSupplied
    ensures var withUser := mapping.(store := Put(mapping.store, "Key", UserSupplied, KeyChild(userKey)));
            CollectionKeyOf(SetKey(property, classType, withUser, nameOf)) == Some(userKey)
  {
    HigherLayerWins(mapping.store, "Key", UserSupplied, Defaults, KeyChild(userKey),
                    KeyChild(AutoKey(property, classType, nameOf)));
  }
}
