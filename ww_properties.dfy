/**
 * What loading saved records through the mod's chain does: the dandelion
 * rename chain, the many-to-one renames, the biome rename, the order of the
 * version-11 fixers, the version-8 property rename, the version-18 chest
 * renames, and the records that pass through untouched.
 *
 * Stage indices: `WWStages()[k]` is the stage of version k for k <= 11, and of
 * version k + 1 from index 12 on (there is no version 12). Each scenario is
 * proved from three kinds of facts: which stages are not about the record
 * (stated stage by stage), what the one stage that acts on it yields, and that
 * no later stage is about the result.
 *
 * The "not about the record" facts come in lemmas named `...UntouchedVaToVb`,
 * each covering a few consecutive stages. They all state the same kind of fact
 * and are split only so that each proof stays small: one lemma over the whole
 * chain would compare the record with every identifier the mod registers at
 * once.
 */
module WWDataFixerProperties {
  import opened Wrappers
  import opened Ids
  import opened Fixes
  import opened Chains
  import opened Stages
  import opened WWDataFixer

  /** The stages of the chain from index `lo` on are not about the record. */
  predicate SettledFrom(lo: nat, r: Record) {
    forall k :: lo <= k < |WWStages()| ==> Untouched(WWStages()[k], r)
  }

  /** No stage of the chain with index in [lo, hi) is about the record. */
  predicate UntouchedIn(lo: nat, hi: nat, r: Record) {
    forall k :: lo <= k < hi && k < |WWStages()| ==> Untouched(WWStages()[k], r)
  }

  /** The stages of the chain before index `hi` leave the record as it is during the upgrade. */
  predicate IdleBefore(hi: nat, rw: Rewriter, r: Record, from: int, to: int) {
    forall k :: 0 <= k < hi && k < |WWStages()| ==> StageStep(WWStages()[k], rw, r, from, to) == r
  }

  /** The stages of the chain from index `lo` on leave the record as it is during the upgrade. */
  predicate IdleFrom(lo: nat, rw: Rewriter, r: Record, from: int, to: int) {
    forall k :: lo <= k < |WWStages()| ==> StageStep(WWStages()[k], rw, r, from, to) == r
  }

  /** Stages that are not about the record leave it alone, whatever the window. */
  lemma SettledIsIdle(lo: nat, rw: Rewriter, r: Record, from: int, to: int)
    requires SettledFrom(lo, r)
    ensures IdleFrom(lo, rw, r, from, to)
  {
    forall k | lo <= k < |WWStages()| ensures StageStep(WWStages()[k], rw, r, from, to) == r {
      StageStepIdle(WWStages()[k], rw, r, from, to);
    }
  }

  /** Before index `hi`, no stage is about the record, so each leaves it as it is. */
  lemma IdleWhereUntouched(hi: nat, rw: Rewriter, r: Record, from: int, to: int)
    requires UntouchedIn(0, hi, r)
    ensures IdleBefore(hi, rw, r, from, to)
  {
    forall k | 0 <= k < hi && k < |WWStages()| ensures StageStep(WWStages()[k], rw, r, from, to) == r {
      StageStepIdle(WWStages()[k], rw, r, from, to);
    }
  }

  /** The driver over the mod's fixers, when only the stage at index k changes the record. */
  lemma RunWWAt(k: nat, rw: Rewriter, r: Record, r': Record, from: int, to: int)
    requires k < |WWStages()|
    requires IdleBefore(k, rw, r, from, to)
    requires StageStep(WWStages()[k], rw, r, from, to) == r'
    requires IdleFrom(k + 1, rw, r', from, to)
    ensures Run(WWFixers(), rw, r, from, to) == r'
  {
    RunStagesOnlyAt(WWStages(), k, rw, r, r', from, to);
    RunIsRunStages(WWStages(), rw, r, from, to);
  }

  /** The driver over the mod's fixers, given as a run of stages that settles. */
  lemma RunWW(trace: seq<Record>, rw: Rewriter, from: int, to: int)
    requires 0 < |trace| <= |WWStages()| + 1
    requires forall k :: 0 <= k < |trace| - 1 ==> StageStep(WWStages()[k], rw, trace[k], from, to) == trace[k + 1]
    requires SettledFrom(|trace| - 1, trace[|trace| - 1])
    ensures Run(WWFixers(), rw, trace[0], from, to) == trace[|trace| - 1]
  {
    RunStagesSettledAfter(WWStages(), trace, rw, from, to);
    RunIsRunStages(WWStages(), rw, trace[0], from, to);
  }

  // ----- Loading -----

  /** A record stamped below the data version is run through every fixer above its stamp. */
  lemma LoadRunsFixers(rw: Rewriter, r: Record, from: nat, policy: FuturePolicy)
    requires from < DATA_VERSION
    ensures WellFormed(WWChain())
    ensures Update(WWChain(), rw, r, Some(from), policy) == Success((Run(WWFixers(), rw, r, from, DATA_VERSION), DATA_VERSION))
  {
    WWChainWellFormed();
  }

  /** A record already stamped with the data version receives no fixer. */
  lemma CurrentStampUntouched(rw: Rewriter, r: Record, policy: FuturePolicy)
    ensures WellFormed(WWChain())
    ensures Update(WWChain(), rw, r, Some(DATA_VERSION), policy) == Success((r, DATA_VERSION))
  {
    WWChainWellFormed();
  }

  /** A record from a newer version is kept as it is, or refused when downgrades are refused. */
  lemma FutureStamp(rw: Rewriter, r: Record, stamp: nat)
    requires stamp > DATA_VERSION
    ensures WellFormed(WWChain())
    ensures Update(WWChain(), rw, r, Some(stamp), PassThrough) == Success((r, stamp))
    ensures Update(WWChain(), rw, r, Some(stamp), RejectDowngrade) == Failure(DowngradeError(stamp, DATA_VERSION))
  {
    WWChainWellFormed();
  }

  // ----- Dandelions (versions 1 and 2) -----

  lemma SeedingDandelionUntouchedV3ToV8(p: Props)
    ensures var r := Record(BlockState, WW("seeding_dandelion"), p);
            Untouched(StageV3(), r) && Untouched(StageV4(), r) && Untouched(StageV5(), r) && Untouched(StageV6(), r) && Untouched(StageV7(), r) && Untouched(StageV8(), r)
  {
  }

  lemma SeedingDandelionUntouchedV9ToV13(p: Props)
    ensures var r := Record(BlockState, WW("seeding_dandelion"), p);
            Untouched(StageV9(), r) && Untouched(StageV10(), r) && Untouched(StageV11(), r) && Untouched(StageV13(), r)
  {
  }

  lemma SeedingDandelionUntouchedV14ToV18(p: Props)
    ensures var r := Record(BlockState, WW("seeding_dandelion"), p);
            Untouched(StageV14(), r) && Untouched(StageV15(), r) && Untouched(StageV16(), r) && Untouched(StageV17(), r) && Untouched(StageV18(), r)
  {
  }

  lemma SeedingDandelionSettled(p: Props)
    ensures SettledFrom(3, Record(BlockState, WW("seeding_dandelion"), p))
  {
    SeedingDandelionUntouchedV3ToV8(p);
    SeedingDandelionUntouchedV9ToV13(p);
    SeedingDandelionUntouchedV14ToV18(p);
  }

  lemma WhiteDandelionFires(rw: Rewriter, p: Props)
    ensures StageStep(WWStages()[0], rw, Record(BlockState, WW("white_dandelion"), p), 0, 18) == Record(BlockState, WW("white_dandelion"), p)
    ensures StageStep(WWStages()[1], rw, Record(BlockState, WW("white_dandelion"), p), 0, 18) == Record(BlockState, WW("blooming_dandelion"), p)
  {
  }

  lemma BloomingDandelionFires(rw: Rewriter, p: Props, from: int)
    requires from < 2
    ensures StageStep(WWStages()[2], rw, Record(BlockState, WW("blooming_dandelion"), p), from, 18) == Record(BlockState, WW("seeding_dandelion"), p)
  {
  }

  /** A white dandelion saved before the renames becomes a seeding dandelion, keeping its state. */
  lemma DandelionChain(rw: Rewriter, p: Props)
    ensures Run(WWFixers(), rw, Record(BlockState, WW("white_dandelion"), p), 0, DATA_VERSION) == Record(BlockState, WW("seeding_dandelion"), p)
  {
    WhiteDandelionFires(rw, p);
    BloomingDandelionFires(rw, p, 0);
    SeedingDandelionSettled(p);
    RunWW([Record(BlockState, WW("white_dandelion"), p), Record(BlockState, WW("white_dandelion"), p), Record(BlockState, WW("blooming_dandelion"), p), Record(BlockState, WW("seeding_dandelion"), p)], rw, 0, 18);
  }

  /** Stages 0 and 1 are not in the window of a record stamped 1. */
  lemma BloomingDandelionIdle(rw: Rewriter, p: Props)
    ensures IdleBefore(2, rw, Record(BlockState, WW("blooming_dandelion"), p), 1, 18)
  {
  }

  /** A blooming dandelion saved at version 1 becomes a seeding dandelion. */
  lemma BloomingDandelionChain(rw: Rewriter, p: Props)
    ensures Run(WWFixers(), rw, Record(BlockState, WW("blooming_dandelion"), p), 1, DATA_VERSION) == Record(BlockState, WW("seeding_dandelion"), p)
  {
    BloomingDandelionIdle(rw, p);
    BloomingDandelionFires(rw, p, 1);
    SeedingDandelionSettled(p);
    SettledIsIdle(3, rw, Record(BlockState, WW("seeding_dandelion"), p), 1, 18);
    RunWWAt(2, rw, Record(BlockState, WW("blooming_dandelion"), p), Record(BlockState, WW("seeding_dandelion"), p), 1, 18);
  }

  lemma PottedSeedingDandelionUntouchedV3ToV8(p: Props)
    ensures var r := Record(BlockState, WW("potted_seeding_dandelion"), p);
            Untouched(StageV3(), r) && Untouched(StageV4(), r) && Untouched(StageV5(), r) && Untouched(StageV6(), r) && Untouched(StageV7(), r) && Untouched(StageV8(), r)
  {
  }

  lemma PottedSeedingDandelionUntouchedV9ToV13(p: Props)
    ensures var r := Record(BlockState, WW("potted_seeding_dandelion"), p);
            Untouched(StageV9(), r) && Untouched(StageV10(), r) && Untouched(StageV11(), r) && Untouched(StageV13(), r)
  {
  }

  lemma PottedSeedingDandelionUntouchedV14ToV18(p: Props)
    ensures var r := Record(BlockState, WW("potted_seeding_dandelion"), p);
            Untouched(StageV14(), r) && Untouched(StageV15(), r) && Untouched(StageV16(), r) && Untouched(StageV17(), r) && Untouched(StageV18(), r)
  {
  }

  lemma PottedSeedingDandelionSettled(p: Props)
    ensures SettledFrom(3, Record(BlockState, WW("potted_seeding_dandelion"), p))
  {
    PottedSeedingDandelionUntouchedV3ToV8(p);
    PottedSeedingDandelionUntouchedV9ToV13(p);
    PottedSeedingDandelionUntouchedV14ToV18(p);
  }

  lemma PottedWhiteDandelionFires(rw: Rewriter, p: Props)
    ensures StageStep(WWStages()[0], rw, Record(BlockState, WW("potted_white_dandelion"), p), 0, 18) == Record(BlockState, WW("potted_white_dandelion"), p)
    ensures StageStep(WWStages()[1], rw, Record(BlockState, WW("potted_white_dandelion"), p), 0, 18) == Record(BlockState, WW("potted_blooming_dandelion"), p)
  {
  }

  lemma PottedBloomingDandelionFires(rw: Rewriter, p: Props, from: int)
    requires from < 2
    ensures StageStep(WWStages()[2], rw, Record(BlockState, WW("potted_blooming_dandelion"), p), from, 18) == Record(BlockState, WW("potted_seeding_dandelion"), p)
  {
  }

  /** The potted variant follows the same chain. */
  lemma PottedDandelionChain(rw: Rewriter, p: Props)
    ensures Run(WWFixers(), rw, Record(BlockState, WW("potted_white_dandelion"), p), 0, DATA_VERSION) == Record(BlockState, WW("potted_seeding_dandelion"), p)
  {
    PottedWhiteDandelionFires(rw, p);
    PottedBloomingDandelionFires(rw, p, 0);
    PottedSeedingDandelionSettled(p);
    RunWW([Record(BlockState, WW("potted_white_dandelion"), p), Record(BlockState, WW("potted_white_dandelion"), p), Record(BlockState, WW("potted_blooming_dandelion"), p), Record(BlockState, WW("potted_seeding_dandelion"), p)], rw, 0, 18);
  }

  // ----- Many-to-one renames (versions 4, 5 and 6) -----

  lemma NullBlockUntouchedV5ToV8(p: Props)
    ensures var r := Record(BlockState, WW("null_block"), p);
            Untouched(StageV5(), r) && Untouched(StageV6(), r) && Untouched(StageV7(), r) && Untouched(StageV8(), r)
  {
  }

  lemma NullBlockUntouchedV9ToV13(p: Props)
    ensures var r := Record(BlockState, WW("null_block"), p);
            Untouched(StageV9(), r) && Untouched(StageV10(), r) && Untouched(StageV11(), r) && Untouched(StageV13(), r)
  {
  }

  lemma NullBlockUntouchedV14ToV18(p: Props)
    ensures var r := Record(BlockState, WW("null_block"), p);
            Untouched(StageV14(), r) && Untouched(StageV15(), r) && Untouched(StageV16(), r) && Untouched(StageV17(), r) && Untouched(StageV18(), r)
  {
  }

  lemma NullBlockSettled(p: Props)
    ensures SettledFrom(5, Record(BlockState, WW("null_block"), p))
  {
    NullBlockUntouchedV5ToV8(p);
    NullBlockUntouchedV9ToV13(p);
    NullBlockUntouchedV14ToV18(p);
  }

  lemma TestOneUntouchedV0ToV3(p: Props)
    ensures var r := Record(BlockState, WW("test_1"), p);
            Untouched(StageV0(), r) && Untouched(StageV1(), r) && Untouched(StageV2(), r) && Untouched(StageV3(), r)
  {
  }

  lemma TestOneIdle(rw: Rewriter, p: Props, from: int)
    ensures IdleBefore(4, rw, Record(BlockState, WW("test_1"), p), from, 18)
  {
    TestOneUntouchedV0ToV3(p);
    IdleWhereUntouched(4, rw, Record(BlockState, WW("test_1"), p), from, 18);
  }

  lemma TestOneFires(rw: Rewriter, p: Props, from: int)
    requires from < 4
    ensures StageStep(WWStages()[4], rw, Record(BlockState, WW("test_1"), p), from, 18) == Record(BlockState, WW("null_block"), p)
  {
  }

  /** test_1 becomes null_block when loaded from any version before 4. */
  lemma TestOneToNullBlock(rw: Rewriter, p: Props, from: int)
    requires from < 4
    ensures Run(WWFixers(), rw, Record(BlockState, WW("test_1"), p), from, DATA_VERSION) == Record(BlockState, WW("null_block"), p)
  {
    TestOneIdle(rw, p, from);
    TestOneFires(rw, p, from);
    NullBlockSettled(p);
    SettledIsIdle(5, rw, Record(BlockState, WW("null_block"), p), from, 18);
    RunWWAt(4, rw, Record(BlockState, WW("test_1"), p), Record(BlockState, WW("null_block"), p), from, 18);
  }

  lemma SculkEchoerUntouchedV0ToV4(p: Props)
    ensures var r := Record(BlockState, WW("sculk_echoer"), p);
            Untouched(StageV0(), r) && Untouched(StageV1(), r) && Untouched(StageV2(), r) && Untouched(StageV3(), r) && Untouched(StageV4(), r)
  {
  }

  lemma SculkEchoerIdle(rw: Rewriter, p: Props, from: int)
    ensures IdleBefore(5, rw, Record(BlockState, WW("sculk_echoer"), p), from, 18)
  {
    SculkEchoerUntouchedV0ToV4(p);
    IdleWhereUntouched(5, rw, Record(BlockState, WW("sculk_echoer"), p), from, 18);
  }

  lemma SculkEchoerFires(rw: Rewriter, p: Props, from: int)
    requires from < 5
    ensures StageStep(WWStages()[5], rw, Record(BlockState, WW("sculk_echoer"), p), from, 18) == Record(BlockState, WW("null_block"), p)
  {
  }

  /** sculk_echoer becomes null_block when loaded from any version before 5. */
  lemma SculkEchoerToNullBlock(rw: Rewriter, p: Props, from: int)
    requires from < 5
    ensures Run(WWFixers(), rw, Record(BlockState, WW("sculk_echoer"), p), from, DATA_VERSION) == Record(BlockState, WW("null_block"), p)
  {
    SculkEchoerIdle(rw, p, from);
    SculkEchoerFires(rw, p, from);
    NullBlockSettled(p);
    SettledIsIdle(5, rw, Record(BlockState, WW("null_block"), p), from, 18);
    RunWWAt(5, rw, Record(BlockState, WW("sculk_echoer"), p), Record(BlockState, WW("null_block"), p), from, 18);
  }

  lemma SculkJawUntouchedV0ToV4(p: Props)
    ensures var r := Record(BlockState, WW("sculk_jaw"), p);
            Untouched(StageV0(), r) && Untouched(StageV1(), r) && Untouched(StageV2(), r) && Untouched(StageV3(), r) && Untouched(StageV4(), r)
  {
  }

  lemma SculkJawIdle(rw: Rewriter, p: Props, from: int)
    ensures IdleBefore(5, rw, Record(BlockState, WW("sculk_jaw"), p), from, 18)
  {
    SculkJawUntouchedV0ToV4(p);
    IdleWhereUntouched(5, rw, Record(BlockState, WW("sculk_jaw"), p), from, 18);
  }

  lemma SculkJawFires(rw: Rewriter, p: Props, from: int)
    requires from < 5
    ensures StageStep(WWStages()[5], rw, Record(BlockState, WW("sculk_jaw"), p), from, 18) == Record(BlockState, WW("null_block"), p)
  {
  }

  /** sculk_jaw becomes null_block when loaded from any version before 5. */
  lemma SculkJawToNullBlock(rw: Rewriter, p: Props, from: int)
    requires from < 5
    ensures Run(WWFixers(), rw, Record(BlockState, WW("sculk_jaw"), p), from, DATA_VERSION) == Record(BlockState, WW("null_block"), p)
  {
    SculkJawIdle(rw, p, from);
    SculkJawFires(rw, p, from);
    NullBlockSettled(p);
    SettledIsIdle(5, rw, Record(BlockState, WW("null_block"), p), from, 18);
    RunWWAt(5, rw, Record(BlockState, WW("sculk_jaw"), p), Record(BlockState, WW("null_block"), p), from, 18);
  }

  lemma BaobabNutUntouchedV7ToV9(p: Props)
    ensures var r := Record(BlockState, WW("baobab_nut"), p);
            Untouched(StageV7(), r) && Untouched(StageV8(), r) && Untouched(StageV9(), r)
  {
  }

  lemma BaobabNutUntouchedV10ToV14(p: Props)
    ensures var r := Record(BlockState, WW("baobab_nut"), p);
            Untouched(StageV10(), r) && Untouched(StageV11(), r) && Untouched(StageV13(), r) && Untouched(StageV14(), r)
  {
  }

  lemma BaobabNutUntouchedV15ToV18(p: Props)
    ensures var r := Record(BlockState, WW("baobab_nut"), p);
            Untouched(StageV15(), r) && Untouched(StageV16(), r) && Untouched(StageV17(), r) && Untouched(StageV18(), r)
  {
  }

  lemma BaobabNutSettled(p: Props)
    ensures SettledFrom(7, Record(BlockState, WW("baobab_nut"), p))
  {
    BaobabNutUntouchedV7ToV9(p);
    BaobabNutUntouchedV10ToV14(p);
    BaobabNutUntouchedV15ToV18(p);
  }

  lemma BaobabSaplingUntouchedV0ToV5(p: Props)
    ensures var r := Record(BlockState, WW("baobab_sapling"), p);
            Untouched(StageV0(), r) && Untouched(StageV1(), r) && Untouched(StageV2(), r) && Untouched(StageV3(), r) && Untouched(StageV4(), r) && Untouched(StageV5(), r)
  {
  }

  lemma BaobabSaplingIdle(rw: Rewriter, p: Props, from: int)
    ensures IdleBefore(6, rw, Record(BlockState, WW("baobab_sapling"), p), from, 18)
  {
    BaobabSaplingUntouchedV0ToV5(p);
    IdleWhereUntouched(6, rw, Record(BlockState, WW("baobab_sapling"), p), from, 18);
  }

  lemma BaobabSaplingFires(rw: Rewriter, p: Props, from: int)
    requires from < 6
    ensures StageStep(WWStages()[6], rw, Record(BlockState, WW("baobab_sapling"), p), from, 18) == Record(BlockState, WW("baobab_nut"), p)
  {
  }

  /** baobab_sapling becomes baobab_nut when loaded from any version before 6. */
  lemma BaobabSaplingToBaobabNut(rw: Rewriter, p: Props, from: int)
    requires from < 6
    ensures Run(WWFixers(), rw, Record(BlockState, WW("baobab_sapling"), p), from, DATA_VERSION) == Record(BlockState, WW("baobab_nut"), p)
  {
    BaobabSaplingIdle(rw, p, from);
    BaobabSaplingFires(rw, p, from);
    BaobabNutSettled(p);
    SettledIsIdle(7, rw, Record(BlockState, WW("baobab_nut"), p), from, 18);
    RunWWAt(6, rw, Record(BlockState, WW("baobab_sapling"), p), Record(BlockState, WW("baobab_nut"), p), from, 18);
  }

  lemma BaobabNutSaplingUntouchedV0ToV5(p: Props)
    ensures var r := Record(BlockState, WW("baobab_nut_sapling"), p);
            Untouched(StageV0(), r) && Untouched(StageV1(), r) && Untouched(StageV2(), r) && Untouched(StageV3(), r) && Untouched(StageV4(), r) && Untouched(StageV5(), r)
  {
  }

  lemma BaobabNutSaplingIdle(rw: Rewriter, p: Props, from: int)
    ensures IdleBefore(6, rw, Record(BlockState, WW("baobab_nut_sapling"), p), from, 18)
  {
    BaobabNutSaplingUntouchedV0ToV5(p);
    IdleWhereUntouched(6, rw, Record(BlockState, WW("baobab_nut_sapling"), p), from, 18);
  }

  lemma BaobabNutSaplingFires(rw: Rewriter, p: Props, from: int)
    requires from < 6
    ensures StageStep(WWStages()[6], rw, Record(BlockState, WW("baobab_nut_sapling"), p), from, 18) == Record(BlockState, WW("baobab_nut"), p)
  {
  }

  /** baobab_nut_sapling becomes baobab_nut as well when loaded from any version before 6. */
  lemma BaobabNutSaplingToBaobabNut(rw: Rewriter, p: Props, from: int)
    requires from < 6
    ensures Run(WWFixers(), rw, Record(BlockState, WW("baobab_nut_sapling"), p), from, DATA_VERSION) == Record(BlockState, WW("baobab_nut"), p)
  {
    BaobabNutSaplingIdle(rw, p, from);
    BaobabNutSaplingFires(rw, p, from);
    BaobabNutSettled(p);
    SettledIsIdle(7, rw, Record(BlockState, WW("baobab_nut"), p), from, 18);
    RunWWAt(6, rw, Record(BlockState, WW("baobab_nut_sapling"), p), Record(BlockState, WW("baobab_nut"), p), from, 18);
  }

  // ----- Biomes (version 17) -----

  lemma OtherBiomeUntouchedV0ToV8(id: Id, p: Props)
    requires id != WW("magma_caves")
    ensures var r := Record(Biome, id, p);
            Untouched(StageV0(), r) && Untouched(StageV1(), r) && Untouched(StageV2(), r) && Untouched(StageV3(), r) && Untouched(StageV4(), r) && Untouched(StageV5(), r) && Untouched(StageV6(), r) && Untouched(StageV7(), r) && Untouched(StageV8(), r)
  {
  }

  lemma OtherBiomeUntouchedV9ToV18(id: Id, p: Props)
    requires id != WW("magma_caves")
    ensures var r := Record(Biome, id, p);
            Untouched(StageV9(), r) && Untouched(StageV10(), r) && Untouched(StageV11(), r) && Untouched(StageV13(), r) && Untouched(StageV14(), r) && Untouched(StageV15(), r) && Untouched(StageV16(), r) && Untouched(StageV17(), r) && Untouched(StageV18(), r)
  {
  }

  /** The only biome fix is about magma_caves: every other biome is settled from the start. */
  lemma OtherBiomeSettled(id: Id, p: Props)
    requires id != WW("magma_caves")
    ensures SettledFrom(0, Record(Biome, id, p))
  {
    OtherBiomeUntouchedV0ToV8(id, p);
    OtherBiomeUntouchedV9ToV18(id, p);
  }

  /** Any biome other than magma_caves loads unchanged, whatever the window. */
  lemma OtherBiomesPassThrough(rw: Rewriter, id: Id, p: Props, from: int, to: int)
    requires id != WW("magma_caves")
    ensures Run(WWFixers(), rw, Record(Biome, id, p), from, to) == Record(Biome, id, p)
  {
    OtherBiomeSettled(id, p);
    RunWW([Record(Biome, id, p)], rw, from, to);
  }

  lemma MagmaCavesUntouchedV0ToV8(p: Props)
    ensures var r := Record(Biome, WW("magma_caves"), p);
            Untouched(StageV0(), r) && Untouched(StageV1(), r) && Untouched(StageV2(), r) && Untouched(StageV3(), r) && Untouched(StageV4(), r) && Untouched(StageV5(), r) && Untouched(StageV6(), r) && Untouched(StageV7(), r) && Untouched(StageV8(), r)
  {
  }

  lemma MagmaCavesUntouchedV9ToV16(p: Props)
    ensures var r := Record(Biome, WW("magma_caves"), p);
            Untouched(StageV9(), r) && Untouched(StageV10(), r) && Untouched(StageV11(), r) && Untouched(StageV13(), r) && Untouched(StageV14(), r) && Untouched(StageV15(), r) && Untouched(StageV16(), r)
  {
  }

  lemma MagmaCavesIdle(rw: Rewriter, p: Props, from: int)
    ensures IdleBefore(16, rw, Record(Biome, WW("magma_caves"), p), from, 18)
  {
    MagmaCavesUntouchedV0ToV8(p);
    MagmaCavesUntouchedV9ToV16(p);
    IdleWhereUntouched(16, rw, Record(Biome, WW("magma_caves"), p), from, 18);
  }

  lemma MagmaCavesFires(rw: Rewriter, p: Props, from: int)
    requires from < 17
    ensures StageStep(WWStages()[16], rw, Record(Biome, WW("magma_caves"), p), from, 18) == Record(Biome, WW("magmatic_caves"), p)
  {
  }

  /** magma_caves is renamed to magmatic_caves when loaded from any version before 17. */
  lemma MagmaCavesToMagmaticCaves(rw: Rewriter, p: Props, from: int)
    requires from < 17
    ensures Run(WWFixers(), rw, Record(Biome, WW("magma_caves"), p), from, DATA_VERSION) == Record(Biome, WW("magmatic_caves"), p)
  {
    MagmaCavesIdle(rw, p, from);
    MagmaCavesFires(rw, p, from);
    OtherBiomeSettled(WW("magmatic_caves"), p);
    SettledIsIdle(17, rw, Record(Biome, WW("magmatic_caves"), p), from, 18);
    RunWWAt(16, rw, Record(Biome, WW("magma_caves"), p), Record(Biome, WW("magmatic_caves"), p), from, 18);
  }

  // ----- Dry sand (version 11) -----

  /** Stages before version 11 are outside the window of a record stamped 10. */
  lemma DrySandIdle(rw: Rewriter, p: Props, to: int)
    ensures IdleBefore(11, rw, Record(BlockState, WW("dry_sand"), p), 10, to)
  {
  }

  /** Version 11 fixes dry_sand's state, renames it, and fixes it again under its new name. */
  lemma DrySandFires(rw: Rewriter, p: Props, to: int)
    requires 11 <= to
    ensures StageStep(WWStages()[11], rw, Record(BlockState, WW("dry_sand"), p), 10, to) == Record(BlockState, WW("scorched_sand"), rw(DrySandStateFix, rw(DrySandStateFix, p)))
  {
  }

  /** Every stage after version 11 is outside the window (10, 11]. */
  lemma LaterStagesOutside(rw: Rewriter, r: Record)
    ensures IdleFrom(12, rw, r, 10, 11)
  {
  }

  /** The upgrade to version 11 alone: the order of its four fixes is what shapes the result. */
  lemma DrySandToVersion11(rw: Rewriter, p: Props)
    ensures Run(WWFixers(), rw, Record(BlockState, WW("dry_sand"), p), 10, 11) == Record(BlockState, WW("scorched_sand"), rw(DrySandStateFix, rw(DrySandStateFix, p)))
  {
    DrySandIdle(rw, p, 11);
    DrySandFires(rw, p, 11);
    LaterStagesOutside(rw, Record(BlockState, WW("scorched_sand"), rw(DrySandStateFix, rw(DrySandStateFix, p))));
    RunWWAt(11, rw, Record(BlockState, WW("dry_sand"), p), Record(BlockState, WW("scorched_sand"), rw(DrySandStateFix, rw(DrySandStateFix, p))), 10, 11);
  }

  lemma ScorchedSandUntouchedV15ToV18(p: Props)
    ensures var r := Record(BlockState, WW("scorched_sand"), p);
            Untouched(StageV15(), r) && Untouched(StageV16(), r) && Untouched(StageV17(), r) && Untouched(StageV18(), r)
  {
  }

  lemma ScorchedSandSettled(p: Props)
    ensures SettledFrom(14, Record(BlockState, WW("scorched_sand"), p))
  {
    ScorchedSandUntouchedV15ToV18(p);
  }

  /** Up to version 13, nothing acts on scorched_sand stamped 11. */
  lemma ScorchedSandIdle(rw: Rewriter, q: Props)
    ensures IdleBefore(13, rw, Record(BlockState, WW("scorched_sand"), q), 11, 18)
  {
  }

  lemma ScorchedSandFires(rw: Rewriter, q: Props)
    ensures StageStep(WWStages()[13], rw, Record(BlockState, WW("scorched_sand"), q), 11, 18) == Record(BlockState, WW("scorched_sand"), rw(ScorchedSandStateFix2, q))
  {
  }

  /** scorched_sand stamped 11 goes through the version-14 state fix and nothing else. */
  lemma ScorchedSandFrom11(rw: Rewriter, q: Props)
    ensures Run(WWFixers(), rw, Record(BlockState, WW("scorched_sand"), q), 11, DATA_VERSION) == Record(BlockState, WW("scorched_sand"), rw(ScorchedSandStateFix2, q))
  {
    ScorchedSandIdle(rw, q);
    ScorchedSandFires(rw, q);
    ScorchedSandSettled(rw(ScorchedSandStateFix2, q));
    SettledIsIdle(14, rw, Record(BlockState, WW("scorched_sand"), rw(ScorchedSandStateFix2, q)), 11, 18);
    RunWWAt(13, rw, Record(BlockState, WW("scorched_sand"), q), Record(BlockState, WW("scorched_sand"), rw(ScorchedSandStateFix2, q)), 11, 18);
  }

  /**
   * A dry_sand block saved at version 10 loads as scorched_sand whose state went
   * through the dry-sand fix twice (before and after the rename) and then the
   * version-14 fix.
   */
  lemma DrySandBlockLoad(rw: Rewriter, p: Props)
    ensures Run(WWFixers(), rw, Record(BlockState, WW("dry_sand"), p), 10, DATA_VERSION)
         == Record(BlockState, WW("scorched_sand"), rw(ScorchedSandStateFix2, rw(DrySandStateFix, rw(DrySandStateFix, p))))
  {
    WWChainWellFormed();
    RunAdditive(WWFixers(), rw, Record(BlockState, WW("dry_sand"), p), 10, 11, 18);
    DrySandToVersion11(rw, p);
    ScorchedSandFrom11(rw, rw(DrySandStateFix, rw(DrySandStateFix, p)));
  }

  lemma ScorchedSandItemUntouchedV13ToV18(p: Props)
    ensures var r := Record(Item, WW("scorched_sand"), p);
            Untouched(StageV13(), r) && Untouched(StageV14(), r) && Untouched(StageV15(), r) && Untouched(StageV16(), r) && Untouched(StageV17(), r) && Untouched(StageV18(), r)
  {
  }

  lemma ScorchedSandItemSettled(p: Props)
    ensures SettledFrom(12, Record(Item, WW("scorched_sand"), p))
  {
    ScorchedSandItemUntouchedV13ToV18(p);
  }

  lemma DrySandItemIdle(rw: Rewriter, p: Props)
    ensures IdleBefore(11, rw, Record(Item, WW("dry_sand"), p), 10, 18)
  {
  }

  lemma DrySandItemFires(rw: Rewriter, p: Props)
    ensures StageStep(WWStages()[11], rw, Record(Item, WW("dry_sand"), p), 10, 18) == Record(Item, WW("scorched_sand"), p)
  {
  }

  /** The item is renamed but, not being a block state, keeps its fields. */
  lemma DrySandItemLoad(rw: Rewriter, p: Props)
    ensures Run(WWFixers(), rw, Record(Item, WW("dry_sand"), p), 10, DATA_VERSION) == Record(Item, WW("scorched_sand"), p)
  {
    DrySandItemIdle(rw, p);
    DrySandItemFires(rw, p);
    ScorchedSandItemSettled(p);
    SettledIsIdle(12, rw, Record(Item, WW("scorched_sand"), p), 10, 18);
    RunWWAt(11, rw, Record(Item, WW("dry_sand"), p), Record(Item, WW("scorched_sand"), p), 10, 18);
  }

  // ----- Display lantern (versions 7 and 8) -----

  lemma DisplayLanternUntouchedV9ToV13(p: Props)
    ensures var r := Record(BlockState, WW("display_lantern"), p);
            Untouched(StageV9(), r) && Untouched(StageV10(), r) && Untouched(StageV11(), r) && Untouched(StageV13(), r)
  {
  }

  lemma DisplayLanternUntouchedV14ToV18(p: Props)
    ensures var r := Record(BlockState, WW("display_lantern"), p);
            Untouched(StageV14(), r) && Untouched(StageV15(), r) && Untouched(StageV16(), r) && Untouched(StageV17(), r) && Untouched(StageV18(), r)
  {
  }

  lemma DisplayLanternSettled(p: Props)
    ensures SettledFrom(9, Record(BlockState, WW("display_lantern"), p))
  {
    DisplayLanternUntouchedV9ToV13(p);
    DisplayLanternUntouchedV14ToV18(p);
  }

  lemma DisplayLanternIdle(rw: Rewriter, p: Props)
    ensures IdleBefore(8, rw, Record(BlockState, WW("display_lantern"), p), 7, 18)
  {
  }

  lemma DisplayLanternFires(rw: Rewriter, p: Props)
    ensures StageStep(WWStages()[8], rw, Record(BlockState, WW("display_lantern"), p), 7, 18) == Record(BlockState, WW("display_lantern"), RenameKey(p, "light", "0", "display_light"))
  {
  }

  /** A display lantern saved at version 7 has `light` moved to `display_light`, "0" when absent. */
  lemma DisplayLanternLoad(rw: Rewriter, p: Props)
    ensures Run(WWFixers(), rw, Record(BlockState, WW("display_lantern"), p), 7, DATA_VERSION) == Record(BlockState, WW("display_lantern"), RenameKey(p, "light", "0", "display_light"))
  {
    DisplayLanternIdle(rw, p);
    DisplayLanternFires(rw, p);
    DisplayLanternSettled(RenameKey(p, "light", "0", "display_light"));
    SettledIsIdle(9, rw, Record(BlockState, WW("display_lantern"), RenameKey(p, "light", "0", "display_light")), 7, 18);
    RunWWAt(8, rw, Record(BlockState, WW("display_lantern"), p), Record(BlockState, WW("display_lantern"), RenameKey(p, "light", "0", "display_light")), 7, 18);
  }

  /** In the window (6, 7], only version 7 acts, and on a firefly lantern it is the rename. */
  lemma FireflyLanternSteps(rw: Rewriter, p: Props)
    ensures IdleBefore(7, rw, Record(BlockState, WW("firefly_lantern"), p), 6, 7)
    ensures StageStep(WWStages()[7], rw, Record(BlockState, WW("firefly_lantern"), p), 6, 7) == Record(BlockState, WW("display_lantern"), p)
    ensures IdleFrom(8, rw, Record(BlockState, WW("display_lantern"), p), 6, 7)
  {
  }

  /** The upgrade to version 7 alone renames the firefly lantern. */
  lemma FireflyLanternToVersion7(rw: Rewriter, p: Props)
    ensures Run(WWFixers(), rw, Record(BlockState, WW("firefly_lantern"), p), 6, 7) == Record(BlockState, WW("display_lantern"), p)
  {
    FireflyLanternSteps(rw, p);
    RunWWAt(7, rw, Record(BlockState, WW("firefly_lantern"), p), Record(BlockState, WW("display_lantern"), p), 6, 7);
  }

  /** A firefly lantern saved at version 6 is renamed, then gets its light level under the new key. */
  lemma FireflyLanternLoad(rw: Rewriter, p: Props)
    ensures Run(WWFixers(), rw, Record(BlockState, WW("firefly_lantern"), p), 6, DATA_VERSION) == Record(BlockState, WW("display_lantern"), RenameKey(p, "light", "0", "display_light"))
  {
    WWChainWellFormed();
    RunAdditive(WWFixers(), rw, Record(BlockState, WW("firefly_lantern"), p), 6, 7, 18);
    FireflyLanternToVersion7(rw, p);
    DisplayLanternLoad(rw, p);
  }

  /** Version 8 changes display lantern block states only. */
  lemma Version8OnlyDisplayLantern(rw: Rewriter, r: Record, from: int, to: int)
    ensures StageStep(StageV8(), rw, r, from, to)
         == if from < 8 <= to && r.kind == BlockState && r.id == WW("display_lantern")
            then r.(props := RenameKey(r.props, "light", "0", "display_light"))
            else r
  {
  }

  // ----- Stone chest (version 18) -----

  lemma StoneChestIdle(kind: RecordKind, rw: Rewriter, p: Props)
    ensures IdleBefore(17, rw, Record(kind, WW("stone_chest"), p), 17, 18)
  {
  }

  lemma StoneChestFires(kind: RecordKind, rw: Rewriter, p: Props)
    requires kind == BlockState || kind == Item || kind == BlockEntity
    ensures StageStep(WWStages()[17], rw, Record(kind, WW("stone_chest"), p), 17, 18) == Record(kind, WW("metal_chest"), p)
  {
  }

  /** The stone chest block, item and block entity saved at version 17 all load as metal_chest. */
  lemma StoneChestToMetalChest(kind: RecordKind, rw: Rewriter, p: Props)
    requires kind == BlockState || kind == Item || kind == BlockEntity
    ensures Run(WWFixers(), rw, Record(kind, WW("stone_chest"), p), 17, DATA_VERSION) == Record(kind, WW("metal_chest"), p)
  {
    StoneChestIdle(kind, rw, p);
    StoneChestFires(kind, rw, p);
    RunWWAt(17, rw, Record(kind, WW("stone_chest"), p), Record(kind, WW("metal_chest"), p), 17, 18);
  }

  // ----- Identifiers outside the mod's namespace -----

  lemma ForeignUntouchedV0ToV8(r: Record)
    requires r.id.namespace != WilderWild
    ensures Untouched(StageV0(), r) && Untouched(StageV1(), r) && Untouched(StageV2(), r) && Untouched(StageV3(), r) && Untouched(StageV4(), r) && Untouched(StageV5(), r) && Untouched(StageV6(), r) && Untouched(StageV7(), r) && Untouched(StageV8(), r)
  {
  }

  lemma ForeignUntouchedV9ToV18(r: Record)
    requires r.id.namespace != WilderWild
    ensures Untouched(StageV9(), r) && Untouched(StageV10(), r) && Untouched(StageV11(), r) && Untouched(StageV13(), r) && Untouched(StageV14(), r) && Untouched(StageV15(), r) && Untouched(StageV16(), r) && Untouched(StageV17(), r) && Untouched(StageV18(), r)
  {
  }

  /** Every fix is about a Wilder Wild identifier. */
  lemma ForeignSettled(r: Record)
    requires r.id.namespace != WilderWild
    ensures SettledFrom(0, r)
  {
    ForeignUntouchedV0ToV8(r);
    ForeignUntouchedV9ToV18(r);
  }

  /** Records of the game or of another mod are never changed by the mod's fixers. */
  lemma ForeignPassThrough(rw: Rewriter, r: Record, from: int, to: int)
    requires r.id.namespace != WilderWild
    ensures Run(WWFixers(), rw, r, from, to) == r
  {
    ForeignSettled(r);
    RunWW([r], rw, from, to);
  }
}
