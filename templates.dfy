/**
 * Type templates: for each block-entity or entity type the mod adds, which of its
 * fields hold typed game data (item stacks, equipment) and which are an opaque
 * remainder that fixers do not look into.
 */
module TypeTemplates {
  import opened Wrappers
  import opened Ids

  datatype ItemsField = NoItems | ItemStack | ItemStackList

  /** `items`: an optional "Items" field; `equipment`: the standard mob equipment fields. */
  datatype TypeTemplate = TypeTemplate(items: ItemsField, equipment: bool)

  /** A type whose whole content is an untyped remainder. */
  const Remainder := TypeTemplate(NoItems, false)

  datatype TypeRegistration = TypeRegistration(id: Id, template: TypeTemplate)

  datatype TypeError = UnknownType(id: Id)

  /** The registry one registration callback fills. */
  class SchemaRegistry {
    var types: map<Id, TypeTemplate>

    constructor ()
      ensures types == map[]
    {
      types := map[];
    }

    method Register(id: Id, template: TypeTemplate)
      modifies this
      ensures types == old(types)[id := template]
    {
      types := types[id := template];
    }
  }

  /** The registry after registering `table` in order, a later entry replacing an earlier one. */
  function RegisterAll(types: map<Id, TypeTemplate>, table: seq<TypeRegistration>): map<Id, TypeTemplate>
    decreases |table|
  {
    if table == [] then types
    else RegisterAll(types[table[0].id := table[0].template], table[1..])
  }

  predicate DistinctIds(table: seq<TypeRegistration>) {
    forall i, j :: 0 <= i < j < |table| ==> table[i].id != table[j].id
  }

  /**
   * With no id registered twice, the registry holds the previous types plus exactly
   * the table's ids, each with the template registered for it.
   */
  lemma {:induction false} RegisterAllContents(types: map<Id, TypeTemplate>, table: seq<TypeRegistration>)
    requires DistinctIds(table)
    ensures var m := RegisterAll(types, table);
            && (forall id :: id in m <==> id in types || exists i :: 0 <= i < |table| && table[i].id == id)
            && (forall i :: 0 <= i < |table| ==> m[table[i].id] == table[i].template)
            && (forall id :: id in types && (forall i :: 0 <= i < |table| ==> table[i].id != id) ==> m[id] == types[id])
    decreases |table|
  {
    if table != [] {
      var types' := types[table[0].id := table[0].template];
      var rest := table[1..];
      assert DistinctIds(rest);
      RegisterAllContents(types', rest);
      var m := RegisterAll(types', rest);
      forall id ensures id in m <==> id in types || exists i :: 0 <= i < |table| && table[i].id == id {
        if exists i :: 0 <= i < |table| && table[i].id == id {
          var i :| 0 <= i < |table| && table[i].id == id;
          if i > 0 { assert rest[i - 1].id == id; }
        }
        if exists i :: 0 <= i < |rest| && rest[i].id == id {
          var i :| 0 <= i < |rest| && rest[i].id == id;
          assert table[i + 1].id == id;
        }
      }
      forall i | 0 <= i < |table| ensures m[table[i].id] == table[i].template {
        if i > 0 {
          assert rest[i - 1] == table[i];
        } else {
          forall k | 0 <= k < |rest| ensures rest[k].id != table[0].id {
            assert rest[k] == table[k + 1];
          }
        }
      }
      forall id | id in types && (forall i :: 0 <= i < |table| ==> table[i].id != id) ensures m[id] == types[id] {
        forall k | 0 <= k < |rest| ensures rest[k].id != id {
          assert rest[k] == table[k + 1];
        }
        assert table[0].id != id;
      }
    }
  }

  /** Looks a type up; a type no registration declared is an error. */
  function TemplateOf(types: map<Id, TypeTemplate>, id: Id): Result<TypeTemplate, TypeError> {
    if id in types then Success(types[id]) else Failure(UnknownType(id))
  }
}
