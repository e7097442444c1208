/**
 * The builder the mod fills at startup: schemas are appended in strictly
 * ascending version order and fixers are bound to registered schemas; building
 * checks the declared data version against the last schema.
 */
module FixerBuilders {
  import opened Wrappers
  import opened Fixes
  import opened Chains

  datatype ConfigError =
    | DuplicateVersion(version: nat)
    | OutOfOrder(version: nat)
    | UnregisteredSchema(version: nat)
    | VersionMismatch(declared: nat, highest: Option<nat>)

  class FixerBuilder {
    const dataVersion: nat
    var schemas: seq<Schema>
    var fixers: seq<Fixer>

    ghost predicate Valid()
      reads this
    {
      && Ascending(schemas)
      && forall f :: f in fixers ==> IsRegistered(schemas, f.version)
    }

    constructor (dataVersion: nat)
      ensures Valid()
      ensures this.dataVersion == dataVersion && schemas == [] && fixers == []
    {
      this.dataVersion := dataVersion;
      schemas := [];
      fixers := [];
    }

    /** Appends a schema whose version is above every registered one. */
    method AddSchema(version: nat, factory: SchemaFactory) returns (r: Result<Schema, ConfigError>)
      requires Valid()
      modifies this
      ensures Valid()
      ensures r.Success? <==> old(schemas) == [] || old(schemas)[|old(schemas)| - 1].version < version
      ensures r.Success? ==> r.value == Schema(version, factory) && schemas == old(schemas) + [r.value]
      ensures r.Failure? ==> schemas == old(schemas)
      ensures r.Failure? ==> r.error == if IsRegistered(old(schemas), version) then DuplicateVersion(version) else OutOfOrder(version)
      ensures fixers == old(fixers)
    {
      if schemas != [] && version <= schemas[|schemas| - 1].version {
        if IsRegistered(schemas, version) {
          return Failure(DuplicateVersion(version));
        }
        return Failure(OutOfOrder(version));
      }
      var schema := Schema(version, factory);
      ghost var before := schemas;
      schemas := schemas + [schema];
      forall f | f in fixers ensures IsRegistered(schemas, f.version) {
        var i :| 0 <= i < |before| && before[i].version == f.version;
        assert schemas[i] == before[i];
      }
      r := Success(schema);
    }

    /** Appends a fixer bound to `schema`, which must have been registered. */
    method AddFixer(schema: Schema, fix: Fix) returns (o: Outcome<ConfigError>)
      requires Valid()
      modifies this
      ensures Valid()
      ensures o.Pass? <==> schema in old(schemas)
      ensures o.Pass? ==> fixers == old(fixers) + [Fixer(schema.version, fix)]
      ensures o.Fail? ==> fixers == old(fixers) && o.error == UnregisteredSchema(schema.version)
      ensures schemas == old(schemas)
    {
      if schema !in schemas {
        return Fail(UnregisteredSchema(schema.version));
      }
      ghost var i :| 0 <= i < |schemas| && schemas[i] == schema;
      fixers := fixers + [Fixer(schema.version, fix)];
      o := Pass;
    }

    /** Finishes the chain, refusing it unless the data version is the last schema's. */
    method Build() returns (r: Result<Chain, ConfigError>)
      requires Valid()
      ensures r.Success? <==> schemas != [] && schemas[|schemas| - 1].version == dataVersion
      ensures r.Success? ==> r.value == Chain(dataVersion, schemas, fixers) && WellFormed(r.value)
      ensures r.Failure? ==> r.error == VersionMismatch(dataVersion, if schemas == [] then None else Some(schemas[|schemas| - 1].version))
    {
      if schemas == [] {
        return Failure(VersionMismatch(dataVersion, None));
      }
      var highest := schemas[|schemas| - 1].version;
      if highest != dataVersion {
        return Failure(VersionMismatch(dataVersion, Some(highest)));
      }
      r := Success(Chain(dataVersion, schemas, fixers));
    }
  }
}
