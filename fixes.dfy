/**
 * Saved records and the closed set of fix kinds the mod registers: exact-id
 * renames, the block-state property rename, and opaque state rewrites.
 */
module Fixes {
  import opened Ids

  /** The kind of saved value a fix is registered for. */
  datatype RecordKind = BlockState | Item | BlockEntity | Entity | Biome

  /** A block state's properties; for other kinds, the record's remaining string fields. */
  type Props = map<string, string>

  /** One saved value: its kind, its identifier and its properties. */
  datatype Record = Record(kind: RecordKind, id: Id, props: Props)

  /** The state-fix classes whose bodies are not part of this model. */
  datatype StateFix =
    | NematocystStateFix
    | DrySandStateFix
    | ScorchedSandStateFix2
    | OsseousSculkStateFix

  /** What each state-fix class does to a block's properties, supplied from outside. */
  type Rewriter = (StateFix, Props) -> Props

  datatype Fix =
      /** Renames one identifier of one record kind, matched exactly. */
    | Rename(kind: RecordKind, source: Id, target: Id)
      /** Renames biome identifiers by a map, each key matched exactly. */
    | RenameBiomes(renames: map<Id, Id>)
      /** Renames property `oldKey` of one block to `newKey`, using `default` when it is absent. */
    | StateKeyRename(block: Id, oldKey: string, default: string, newKey: string)
      /** An opaque rewrite of the properties of one block. */
    | StructuralRewrite(rewrite: StateFix, block: Id)

  /** Whether `fix` is about `r` at all: right kind and an exactly matching identifier. */
  predicate Targets(fix: Fix, r: Record) {
    match fix
    case Rename(kind, source, _) => r.kind == kind && r.id == source
    case RenameBiomes(renames) => r.kind == Biome && r.id in renames
    case StateKeyRename(block, _, _, _) => r.kind == BlockState && r.id == block
    case StructuralRewrite(_, block) => r.kind == BlockState && r.id == block
  }

  /** Moves the value of `oldKey` to `newKey` (or `default` when `oldKey` is missing). */
  function RenameKey(props: Props, oldKey: string, default: string, newKey: string): (p: Props)
    ensures newKey in p && p[newKey] == (if oldKey in props then props[oldKey] else default)
    ensures oldKey != newKey ==> oldKey !in p
    ensures forall k :: k != oldKey && k != newKey ==> (k in p <==> k in props)
    ensures forall k :: k != oldKey && k != newKey && k in props ==> p[k] == props[k]
  {
    (props - {oldKey})[newKey := if oldKey in props then props[oldKey] else default]
  }

  /** Applies one fix to one record. */
  function ApplyFix(fix: Fix, rw: Rewriter, r: Record): (r': Record)
    ensures r'.kind == r.kind
    ensures !Targets(fix, r) ==> r' == r
    ensures fix.Rename? || fix.RenameBiomes? ==> r'.props == r.props
    ensures fix.StateKeyRename? || fix.StructuralRewrite? ==> r'.id == r.id
    ensures Targets(fix, r) ==>
              match fix
              case Rename(_, _, target) => r'.id == target
              case RenameBiomes(renames) => r'.id == renames[r.id]
              case StateKeyRename(_, oldKey, default, newKey) => r'.props == RenameKey(r.props, oldKey, default, newKey)
              case StructuralRewrite(rewrite, _) => r'.props == rw(rewrite, r.props)
  {
    if !Targets(fix, r) then r
    else
      match fix
      case Rename(_, _, target) => r.(id := target)
      case RenameBiomes(renames) => r.(id := renames[r.id])
      case StateKeyRename(_, oldKey, default, newKey) => r.(props := RenameKey(r.props, oldKey, default, newKey))
      case StructuralRewrite(rewrite, _) => r.(props := rw(rewrite, r.props))
  }

  /** Applies every fix of the list, first to last. */
  function ApplyFixes(fixes: seq<Fix>, rw: Rewriter, r: Record): Record
    decreases |fixes|
  {
    if fixes == [] then r else ApplyFixes(fixes[1..], rw, ApplyFix(fixes[0], rw, r))
  }

  /**
   * A biome rename whose targets are not themselves renamed is a no-op on a
   * record it has already transformed.
   */
  lemma RenameBiomesIdempotent(renames: map<Id, Id>, rw: Rewriter, r: Record)
    requires forall x :: x in renames ==> renames[x] !in renames
    ensures var fix := RenameBiomes(renames); ApplyFix(fix, rw, ApplyFix(fix, rw, r)) == ApplyFix(fix, rw, r)
  {
    var fix := RenameBiomes(renames);
    if Targets(fix, r) {
      assert ApplyFix(fix, rw, r).id == renames[r.id];
    }
  }

  /** An exact-id rename is a no-op on a record it has already renamed. */
  lemma RenameIdempotent(kind: RecordKind, source: Id, target: Id, rw: Rewriter, r: Record)
    ensures var fix := Rename(kind, source, target); ApplyFix(fix, rw, ApplyFix(fix, rw, r)) == ApplyFix(fix, rw, r)
  {
  }

  /**
   * The property rename is not idempotent: run again on a block it has already
   * fixed, it finds no `oldKey` and overwrites `newKey` with the default.
   */
  lemma StateKeyRenameRerunResetsValue(block: Id, rw: Rewriter)
    ensures var fix := StateKeyRename(block, "light", "0", "display_light");
            var fixed := Record(BlockState, block, map["display_light" := "7"]);
            ApplyFix(fix, rw, fixed).props["display_light"] == "0"
  {
    var fixed := Record(BlockState, block, map["display_light" := "7"]);
    assert "light" !in fixed.props;
  }
}
