/**
 * The migration chain: schemas in ascending version order, fixers each bound to
 * the schema they produce, and the driver that runs every fixer above a record's
 * stamp, in registration order.
 */
module Chains {
  import opened Wrappers
  import opened Fixes

  /** How a schema's type universe is built (the factory passed to addSchema). */
  datatype SchemaFactory = BaseSchema | NamespacedSchema | WWV18

  datatype Schema = Schema(version: nat, factory: SchemaFactory)

  /** A fix bound to the schema it produces: it upgrades records to `version`. */
  datatype Fixer = Fixer(version: nat, fix: Fix)

  datatype Chain = Chain(dataVersion: nat, schemas: seq<Schema>, fixers: seq<Fixer>)

  predicate Ascending(schemas: seq<Schema>) {
    forall i, j :: 0 <= i < j < |schemas| ==> schemas[i].version < schemas[j].version
  }

  predicate IsRegistered(schemas: seq<Schema>, version: nat) {
    exists i :: 0 <= i < |schemas| && schemas[i].version == version
  }

  predicate InVersionOrder(fixers: seq<Fixer>) {
    forall i, j :: 0 <= i < j < |fixers| ==> fixers[i].version <= fixers[j].version
  }

  /**
   * A finished chain: schemas strictly ascending, the declared data version equal
   * to the last schema's, and every fixer bound to a registered schema.
   */
  predicate WellFormed(c: Chain) {
    && c.schemas != []
    && Ascending(c.schemas)
    && c.schemas[|c.schemas| - 1].version == c.dataVersion
    && forall f :: f in c.fixers ==> IsRegistered(c.schemas, f.version)
  }

  /** Whether the fixer belongs to the upgrade from `from` to `to`. */
  predicate InWindow(f: Fixer, from: int, to: int) {
    from < f.version <= to
  }

  /** One fixer's effect during an upgrade from `from` to `to`. */
  function Step(f: Fixer, rw: Rewriter, r: Record, from: int, to: int): Record {
    if InWindow(f, from, to) then ApplyFix(f.fix, rw, r) else r
  }

  /** Runs, in registration order, every fixer whose version lies in (from, to]. */
  function Run(fixers: seq<Fixer>, rw: Rewriter, r: Record, from: int, to: int): (res: Record)
    ensures res.kind == r.kind
    ensures Selected(fixers, from, to) == [] ==> res == r
    decreases |fixers|
  {
    if fixers == [] then r
    else Run(fixers[1..], rw, Step(fixers[0], rw, r, from, to), from, to)
  }

  /** The fixers of the window (from, to], in registration order. */
  function Selected(fixers: seq<Fixer>, from: int, to: int): (s: seq<Fixer>)
    ensures forall f :: f in s <==> f in fixers && InWindow(f, from, to)
    ensures InVersionOrder(fixers) ==> InVersionOrder(s)
    decreases |fixers|
  {
    if fixers == [] then []
    else
      var rest := Selected(fixers[1..], from, to);
      assert forall f :: f in fixers[1..] ==> f in fixers;
      if InWindow(fixers[0], from, to) then
        assert InVersionOrder(fixers) ==> forall j :: 0 <= j < |rest| ==> fixers[0].version <= rest[j].version by {
          if InVersionOrder(fixers) {
            forall j | 0 <= j < |rest| ensures fixers[0].version <= rest[j].version {
              assert rest[j] in fixers[1..];
              var k :| 0 <= k < |fixers[1..]| && fixers[1..][k] == rest[j];
              assert fixers[k + 1] == rest[j];
            }
          }
        }
        [fixers[0]] + rest
      else rest
  }

  /** The fixes of a list of fixers, in the same order. */
  function FixesOf(fixers: seq<Fixer>): seq<Fix>
    decreases |fixers|
  {
    if fixers == [] then [] else [fixers[0].fix] + FixesOf(fixers[1..])
  }

  /** Selecting from a concatenation selects from each part, keeping each part's order. */
  lemma {:induction false} SelectedConcat(a: seq<Fixer>, b: seq<Fixer>, from: int, to: int)
    ensures Selected(a + b, from, to) == Selected(a, from, to) + Selected(b, from, to)
    decreases |a|
  {
    if a == [] {
      assert a + b == b;
    } else {
      assert (a + b)[0] == a[0];
      assert (a + b)[1..] == a[1..] + b;
      SelectedConcat(a[1..], b, from, to);
    }
  }

  /** A single fixer is selected exactly when its version is in the window. */
  lemma SelectedSingle(f: Fixer, from: int, to: int)
    ensures Selected([f], from, to) == if InWindow(f, from, to) then [f] else []
  {
    assert [f][1..] == [];
  }

  /** The driver is "select the window's fixers, then apply them in order". */
  lemma {:induction false} RunIsApplyAllOfSelected(fixers: seq<Fixer>, rw: Rewriter, r: Record, from: int, to: int)
    ensures Run(fixers, rw, r, from, to) == ApplyFixes(FixesOf(Selected(fixers, from, to)), rw, r)
    decreases |fixers|
  {
    if fixers != [] {
      RunIsApplyAllOfSelected(fixers[1..], rw, Step(fixers[0], rw, r, from, to), from, to);
      if InWindow(fixers[0], from, to) {
        var s := [fixers[0]] + Selected(fixers[1..], from, to);
        assert s[1..] == Selected(fixers[1..], from, to);
        assert FixesOf(s)[1..] == FixesOf(s[1..]);
      }
    }
  }

  /** Running two lists of fixers one after the other. */
  lemma {:induction false} RunConcat(a: seq<Fixer>, b: seq<Fixer>, rw: Rewriter, r: Record, from: int, to: int)
    ensures Run(a + b, rw, r, from, to) == Run(b, rw, Run(a, rw, r, from, to), from, to)
    decreases |a|
  {
    if a == [] {
      assert a + b == b;
    } else {
      assert (a + b)[0] == a[0];
      assert (a + b)[1..] == a[1..] + b;
      RunConcat(a[1..], b, rw, Step(a[0], rw, r, from, to), from, to);
    }
  }

  /** A fixer that both belongs to the window and is about the record. */
  predicate Fires(f: Fixer, r: Record, from: int, to: int) {
    InWindow(f, from, to) && Targets(f.fix, r)
  }

  /** A record no fixer of the window is about passes through unchanged. */
  lemma {:induction false} RunIdle(fixers: seq<Fixer>, rw: Rewriter, r: Record, from: int, to: int)
    requires forall k :: 0 <= k < |fixers| ==> !Fires(fixers[k], r, from, to)
    ensures Run(fixers, rw, r, from, to) == r
    decreases |fixers|
  {
    if fixers != [] {
      assert !Fires(fixers[0], r, from, to);
      RunIdle(fixers[1..], rw, r, from, to);
    }
  }

  /** Skipping fixers that leave the record alone, up to the k-th, which is applied next. */
  lemma {:induction false} RunSkipTo(fixers: seq<Fixer>, k: nat, rw: Rewriter, r: Record, from: int, to: int)
    requires k < |fixers|
    requires forall i :: 0 <= i < k ==> !Fires(fixers[i], r, from, to)
    ensures Run(fixers, rw, r, from, to) == Run(fixers[k + 1..], rw, Step(fixers[k], rw, r, from, to), from, to)
    decreases k
  {
    if k > 0 {
      assert !Fires(fixers[0], r, from, to);
      RunSkipTo(fixers[1..], k - 1, rw, r, from, to);
      assert fixers[1..][k..] == fixers[k + 1..];
    }
  }

  /** Two windows that select the same fixers give the same result. */
  lemma {:induction false} RunSameWindow(fixers: seq<Fixer>, rw: Rewriter, r: Record, from: int, to: int, from': int, to': int)
    requires forall k :: 0 <= k < |fixers| ==> (InWindow(fixers[k], from, to) <==> InWindow(fixers[k], from', to'))
    ensures Run(fixers, rw, r, from, to) == Run(fixers, rw, r, from', to')
    decreases |fixers|
  {
    if fixers != [] {
      assert InWindow(fixers[0], from, to) <==> InWindow(fixers[0], from', to');
      RunSameWindow(fixers[1..], rw, Step(fixers[0], rw, r, from, to), from, to, from', to');
    }
  }

  /** A record already at (or above) the target version is untouched. */
  lemma RunEmptyWindow(fixers: seq<Fixer>, rw: Rewriter, r: Record, from: int, to: int)
    requires to <= from
    ensures Run(fixers, rw, r, from, to) == r
  {
    RunIdle(fixers, rw, r, from, to);
  }

  /**
   * Additivity: when fixers are registered in version order, migrating from
   * `from` to `to` equals migrating to any intermediate `mid` and then on to `to`.
   */
  lemma {:induction false} RunAdditive(fixers: seq<Fixer>, rw: Rewriter, r: Record, from: int, mid: int, to: int)
    requires InVersionOrder(fixers)
    requires from <= mid <= to
    ensures Run(fixers, rw, r, from, to) == Run(fixers, rw, Run(fixers, rw, r, from, mid), mid, to)
    decreases |fixers|
  {
    if fixers != [] {
      var f, rest := fixers[0], fixers[1..];
      assert InVersionOrder(rest);
      if f.version <= mid {
        var r' := Step(f, rw, r, from, mid);
        assert Step(f, rw, r, from, to) == r';
        var x := Run(rest, rw, r', from, mid);
        assert Step(f, rw, x, mid, to) == x;
        RunAdditive(rest, rw, r', from, mid, to);
      } else {
        RunIdle(fixers, rw, r, from, mid);
        RunSameWindow(fixers, rw, r, from, to, mid, to);
      }
    }
  }

  /** What the loader does with records stamped above the running data version. */
  datatype FuturePolicy = PassThrough | RejectDowngrade

  datatype MigrationError = DowngradeError(stamp: nat, current: nat)

  /** An unstamped record is treated as written against the oldest schema. */
  function EffectiveVersion(c: Chain, stamp: Option<nat>): (v: nat)
    requires WellFormed(c)
    ensures stamp.Some? ==> v == stamp.value
    ensures stamp.None? ==> IsRegistered(c.schemas, v) && v <= c.dataVersion
    ensures stamp.None? ==> forall i :: 0 <= i < |c.schemas| ==> v <= c.schemas[i].version
  {
    match stamp
    case Some(v) => v
    case None => c.schemas[0].version
  }

  /**
   * Loads a record: upgrades it from its effective version to the chain's data
   * version and returns it with its new stamp; a record at or above the data
   * version is returned as it is (or, above it, refused under RejectDowngrade).
   */
  function Update(c: Chain, rw: Rewriter, r: Record, stamp: Option<nat>, policy: FuturePolicy): (res: Result<(Record, nat), MigrationError>)
    requires WellFormed(c)
    ensures res.Failure? <==> policy == RejectDowngrade && EffectiveVersion(c, stamp) > c.dataVersion
    ensures res.Success? && EffectiveVersion(c, stamp) >= c.dataVersion ==> res.value == (r, EffectiveVersion(c, stamp))
    ensures res.Success? ==> res.value.1 == if EffectiveVersion(c, stamp) < c.dataVersion then c.dataVersion else EffectiveVersion(c, stamp)
    ensures res.Success? && EffectiveVersion(c, stamp) < c.dataVersion ==> res.value.0 == Run(c.fixers, rw, r, EffectiveVersion(c, stamp), c.dataVersion)
  {
    var v := EffectiveVersion(c, stamp);
    if v < c.dataVersion then Success((Run(c.fixers, rw, r, v, c.dataVersion), c.dataVersion))
    else if v == c.dataVersion then Success((r, v))
    else
      match policy
      case PassThrough => Success((r, v))
      case RejectDowngrade => Failure(DowngradeError(v, c.dataVersion))
  }

  /** A loaded record written back with its returned stamp is left alone by the next load. */
  lemma UpdateThenReload(c: Chain, rw: Rewriter, r: Record, stamp: Option<nat>, policy: FuturePolicy)
    requires WellFormed(c)
    requires Update(c, rw, r, stamp, policy).Success?
    ensures var (r', v') := Update(c, rw, r, stamp, policy).value;
            Update(c, rw, r', Some(v'), policy) == Success((r', v'))
  {
  }

  /** An unstamped record migrates exactly as one stamped with the oldest schema's version. */
  lemma UnstampedIsOldest(c: Chain, rw: Rewriter, r: Record, policy: FuturePolicy)
    requires WellFormed(c)
    ensures Update(c, rw, r, None, policy) == Update(c, rw, r, Some(c.schemas[0].version), policy)
    ensures Update(c, rw, r, None, policy).Success?
  {
    assert c.schemas[0].version <= c.schemas[|c.schemas| - 1].version;
  }
}
