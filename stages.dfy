/**
 * How the chain arises from the mod's registration code: one stage per
 * addSchema call, followed by the fixers registered against the schema that
 * call returned. The flat fixer list is the stages' fixers in call order.
 */
module Stages {
  import opened Wrappers
  import opened Fixes
  import opened Chains
  import opened FixerBuilders

  /** One addSchema call and the fixers then registered against its schema. */
  datatype Stage = Stage(schema: Schema, fixes: seq<Fix>)

  function SchemasOf(stages: seq<Stage>): seq<Schema> {
    seq(|stages|, i requires 0 <= i < |stages| => stages[i].schema)
  }

  /** The fixers of one stage, each bound to the stage's schema version. */
  function Bound(version: nat, fixes: seq<Fix>): seq<Fixer> {
    seq(|fixes|, i requires 0 <= i < |fixes| => Fixer(version, fixes[i]))
  }

  /** Every stage's fixers, in call order. */
  function FixersOf(stages: seq<Stage>): seq<Fixer>
    decreases |stages|
  {
    if stages == [] then []
    else Bound(stages[0].schema.version, stages[0].fixes) + FixersOf(stages[1..])
  }

  /** Adding one more stage appends its fixers. */
  lemma {:induction false} FixersOfSnoc(stages: seq<Stage>, st: Stage)
    ensures FixersOf(stages + [st]) == FixersOf(stages) + Bound(st.schema.version, st.fixes)
    decreases |stages|
  {
    if stages == [] {
      assert [st][1..] == [];
    } else {
      assert (stages + [st])[0] == stages[0];
      assert (stages + [st])[1..] == stages[1..] + [st];
      FixersOfSnoc(stages[1..], st);
    }
  }

  /** Every fixer carries the version of some stage's schema. */
  lemma {:induction false} FixersOfRegistered(stages: seq<Stage>)
    ensures forall f :: f in FixersOf(stages) ==> IsRegistered(SchemasOf(stages), f.version)
    decreases |stages|
  {
    if stages != [] {
      var head := Bound(stages[0].schema.version, stages[0].fixes);
      var tail := stages[1..];
      FixersOfRegistered(tail);
      forall f | f in FixersOf(stages) ensures IsRegistered(SchemasOf(stages), f.version) {
        if f in head {
          assert SchemasOf(stages)[0].version == f.version;
        } else {
          assert f in FixersOf(tail);
          var m :| 0 <= m < |SchemasOf(tail)| && SchemasOf(tail)[m].version == f.version;
          assert SchemasOf(stages)[m + 1] == SchemasOf(tail)[m];
        }
      }
    }
  }

  /** With schemas in ascending order, the flat list is in version order. */
  lemma {:induction false} FixersOfInVersionOrder(stages: seq<Stage>)
    requires Ascending(SchemasOf(stages))
    ensures InVersionOrder(FixersOf(stages))
    decreases |stages|
  {
    if stages != [] {
      var v := stages[0].schema.version;
      var head := Bound(v, stages[0].fixes);
      var tail := stages[1..];
      var rest := FixersOf(tail);
      var fs := FixersOf(stages);
      assert Ascending(SchemasOf(tail)) by {
        forall i, j | 0 <= i < j < |tail| ensures SchemasOf(tail)[i].version < SchemasOf(tail)[j].version {
          assert SchemasOf(tail)[i] == SchemasOf(stages)[i + 1];
          assert SchemasOf(tail)[j] == SchemasOf(stages)[j + 1];
        }
      }
      FixersOfInVersionOrder(tail);
      FixersOfRegistered(tail);
      forall k | 0 <= k < |rest| ensures v < rest[k].version {
        assert rest[k] in rest;
        var m :| 0 <= m < |SchemasOf(tail)| && SchemasOf(tail)[m].version == rest[k].version;
        assert SchemasOf(tail)[m] == SchemasOf(stages)[m + 1];
        assert SchemasOf(stages)[0].version < SchemasOf(stages)[m + 1].version;
      }
      forall i, j | 0 <= i < j < |fs| ensures fs[i].version <= fs[j].version {
        if j < |head| {
          assert fs[i] == head[i] && fs[j] == head[j];
        } else if i < |head| {
          assert fs[i] == head[i] && fs[j] == rest[j - |head|];
        } else {
          assert fs[i] == rest[i - |head|] && fs[j] == rest[j - |head|];
        }
      }
    }
  }

  /** A stage's effect during an upgrade from `from` to `to`: all its fixes or none. */
  function StageStep(st: Stage, rw: Rewriter, r: Record, from: int, to: int): Record {
    if from < st.schema.version <= to then ApplyFixes(st.fixes, rw, r) else r
  }

  /** The upgrade, stage by stage. */
  function RunStages(stages: seq<Stage>, rw: Rewriter, r: Record, from: int, to: int): Record
    decreases |stages|
  {
    if stages == [] then r else RunStages(stages[1..], rw, StageStep(stages[0], rw, r, from, to), from, to)
  }

  /** Running one stage's bound fixers is that stage's step. */
  lemma {:induction false} RunBound(v: nat, fixes: seq<Fix>, rw: Rewriter, r: Record, from: int, to: int)
    ensures Run(Bound(v, fixes), rw, r, from, to) == if from < v <= to then ApplyFixes(fixes, rw, r) else r
    decreases |fixes|
  {
    if fixes != [] {
      assert Bound(v, fixes)[1..] == Bound(v, fixes[1..]);
      RunBound(v, fixes[1..], rw, Step(Bound(v, fixes)[0], rw, r, from, to), from, to);
    }
  }

  /** The driver over the flat list equals the stage-by-stage upgrade. */
  lemma {:induction false} RunIsRunStages(stages: seq<Stage>, rw: Rewriter, r: Record, from: int, to: int)
    ensures Run(FixersOf(stages), rw, r, from, to) == RunStages(stages, rw, r, from, to)
    decreases |stages|
  {
    if stages != [] {
      var head := Bound(stages[0].schema.version, stages[0].fixes);
      RunConcat(head, FixersOf(stages[1..]), rw, r, from, to);
      RunBound(stages[0].schema.version, stages[0].fixes, rw, r, from, to);
      RunIsRunStages(stages[1..], rw, StageStep(stages[0], rw, r, from, to), from, to);
    }
  }

  /** No fix of the stage is about the record. */
  predicate Untouched(st: Stage, r: Record) {
    forall i :: 0 <= i < |st.fixes| ==> !Targets(st.fixes[i], r)
  }

  lemma {:induction false} ApplyFixesIdle(fixes: seq<Fix>, rw: Rewriter, r: Record)
    requires forall i :: 0 <= i < |fixes| ==> !Targets(fixes[i], r)
    ensures ApplyFixes(fixes, rw, r) == r
    decreases |fixes|
  {
    if fixes != [] {
      assert !Targets(fixes[0], r);
      ApplyFixesIdle(fixes[1..], rw, r);
    }
  }

  /**
   * A trace of intermediate records, each the step of one stage applied to the
   * one before, ends with the result of running all the stages.
   */
  lemma {:induction false} RunStagesTrace(stages: seq<Stage>, trace: seq<Record>, rw: Rewriter, from: int, to: int)
    requires |trace| == |stages| + 1
    requires forall k :: 0 <= k < |stages| ==> StageStep(stages[k], rw, trace[k], from, to) == trace[k + 1]
    ensures RunStages(stages, rw, trace[0], from, to) == trace[|stages|]
    decreases |stages|
  {
    if stages != [] {
      assert StageStep(stages[0], rw, trace[0], from, to) == trace[1];
      RunStagesTrace(stages[1..], trace[1..], rw, from, to);
    }
  }

  /** A stage none of whose fixes is about the record leaves it as it is. */
  lemma StageStepIdle(st: Stage, rw: Rewriter, r: Record, from: int, to: int)
    requires Untouched(st, r)
    ensures StageStep(st, rw, r, from, to) == r
  {
    ApplyFixesIdle(st.fixes, rw, r);
  }

  /**
   * The first stages take the record along `trace`, and none of the remaining
   * stages is about the record `trace` ends with: that record is the result.
   */
  lemma RunStagesSettledAfter(stages: seq<Stage>, trace: seq<Record>, rw: Rewriter, from: int, to: int)
    requires 0 < |trace| <= |stages| + 1
    requires forall k :: 0 <= k < |trace| - 1 ==> StageStep(stages[k], rw, trace[k], from, to) == trace[k + 1]
    requires forall k :: |trace| - 1 <= k < |stages| ==> Untouched(stages[k], trace[|trace| - 1])
    ensures RunStages(stages, rw, trace[0], from, to) == trace[|trace| - 1]
  {
    var last := trace[|trace| - 1];
    var full := trace + seq(|stages| + 1 - |trace|, _ => last);
    forall k | 0 <= k < |stages| ensures StageStep(stages[k], rw, full[k], from, to) == full[k + 1] {
      if k >= |trace| - 1 {
        StageStepIdle(stages[k], rw, last, from, to);
      }
    }
    RunStagesTrace(stages, full, rw, from, to);
  }

  /** Stages each of whose steps leaves the record as it is leave it as it is together. */
  lemma {:induction false} RunStagesIdleSteps(stages: seq<Stage>, rw: Rewriter, r: Record, from: int, to: int)
    requires forall k :: 0 <= k < |stages| ==> StageStep(stages[k], rw, r, from, to) == r
    ensures RunStages(stages, rw, r, from, to) == r
    decreases |stages|
  {
    if stages != [] {
      assert StageStep(stages[0], rw, r, from, to) == r;
      RunStagesIdleSteps(stages[1..], rw, r, from, to);
    }
  }

  /**
   * When only the k-th stage changes the record (from `r` to `r'`), the whole
   * upgrade yields `r'`.
   */
  lemma {:induction false} RunStagesOnlyAt(stages: seq<Stage>, k: nat, rw: Rewriter, r: Record, r': Record, from: int, to: int)
    requires k < |stages|
    requires forall i :: 0 <= i < k ==> StageStep(stages[i], rw, r, from, to) == r
    requires StageStep(stages[k], rw, r, from, to) == r'
    requires forall i :: k < i < |stages| ==> StageStep(stages[i], rw, r', from, to) == r'
    ensures RunStages(stages, rw, r, from, to) == r'
    decreases k
  {
    if k == 0 {
      RunStagesIdleSteps(stages[1..], rw, r', from, to);
    } else {
      assert StageStep(stages[0], rw, r, from, to) == r;
      RunStagesOnlyAt(stages[1..], k - 1, rw, r, r', from, to);
    }
  }

  /**
   * Feeds a builder exactly as the registration code does: each schema, then
   * the fixers registered against it; the build succeeds with the stages' chain.
   */
  method Replay(dataVersion: nat, stages: seq<Stage>) returns (r: Result<Chain, ConfigError>)
    requires stages != [] && Ascending(SchemasOf(stages))
    requires stages[|stages| - 1].schema.version == dataVersion
    ensures r == Success(Chain(dataVersion, SchemasOf(stages), FixersOf(stages)))
  {
    var builder := new FixerBuilder(dataVersion);
    for i := 0 to |stages|
      invariant builder.Valid() && builder.dataVersion == dataVersion
      invariant builder.schemas == SchemasOf(stages[..i])
      invariant builder.fixers == FixersOf(stages[..i])
    {
      assert i == 0 || SchemasOf(stages)[i - 1].version < SchemasOf(stages)[i].version;
      var added := builder.AddSchema(stages[i].schema.version, stages[i].schema.factory);
      var schema := added.value;
      assert builder.schemas == SchemasOf(stages[..i + 1]);
      assert schema == builder.schemas[i];
      var fixes := stages[i].fixes;
      for j := 0 to |fixes|
        invariant builder.Valid() && builder.dataVersion == dataVersion
        invariant builder.schemas == SchemasOf(stages[..i + 1])
        invariant builder.fixers == FixersOf(stages[..i]) + Bound(schema.version, fixes[..j])
      {
        var _ := builder.AddFixer(schema, fixes[j]);
        assert Bound(schema.version, fixes[..j + 1]) == Bound(schema.version, fixes[..j]) + [Fixer(schema.version, fixes[j])];
      }
      assert fixes[..|fixes|] == fixes;
      assert stages[..i + 1] == stages[..i] + [stages[i]];
      FixersOfSnoc(stages[..i], stages[i]);
    }
    assert stages[..|stages|] == stages;
    r := builder.Build();
  }
}
