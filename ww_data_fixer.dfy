/**
 * Wilder Wild's data-fixer entry point: the type templates it registers for its
 * block entities and entities, its data version, and its chain of schemas 0..18
 * with the fixers bound to each.
 */
module WWDataFixer {
  import opened Wrappers
  import opened Ids
  import opened Fixes
  import opened Chains
  import opened FixerBuilders
  import opened TypeTemplates
  import opened Stages

  /** The "Items" field holding a list of item stacks. */
  const ItemList := TypeTemplate(ItemStackList, false)

  /** The standard mob equipment fields. */
  const Equipment := TypeTemplate(NoItems, true)

  function BlockEntityTypes(): seq<TypeRegistration> {
    [ TypeRegistration(WW("display_lantern"), ItemList),
      TypeRegistration(WW("hanging_tendril"), Remainder),
      TypeRegistration(WW("scorched_block"), Remainder),
      TypeRegistration(WW("stone_chest"), ItemList),
      TypeRegistration(WW("termite_mound"), Remainder),
      TypeRegistration(WW("geyser"), Remainder) ]
  }

  function EntityTypes(): seq<TypeRegistration> {
    [ TypeRegistration(WW("jellyfish"), Equipment),
      TypeRegistration(WW("ostrich"), Equipment),
      TypeRegistration(WW("crab"), Equipment),
      TypeRegistration(WW("firefly"), Equipment),
      TypeRegistration(WW("tumbleweed"), TypeTemplate(ItemStack, true)),
      TypeRegistration(WW("ancient_horn_vibration"), Remainder),
      TypeRegistration(WW("coconut"), Remainder),
      TypeRegistration(WW("chest_bubbler"), Remainder),
      TypeRegistration(WW("sculk_spreader"), Remainder),
      TypeRegistration(WW("scorched"), Equipment) ]
  }

  /** Registers `table` into `registry`, entry by entry. */
  method RegisterTypes(registry: SchemaRegistry, table: seq<TypeRegistration>)
    modifies registry
    ensures registry.types == RegisterAll(old(registry.types), table)
  {
    for i := 0 to |table|
      invariant RegisterAll(old(registry.types), table) == RegisterAll(registry.types, table[i..])
    {
      assert table[i..][1..] == table[i + 1..];
      registry.Register(table[i].id, table[i].template);
    }
  }

  method OnRegisterBlockEntities(registry: SchemaRegistry)
    modifies registry
    ensures registry.types == RegisterAll(old(registry.types), BlockEntityTypes())
  {
    RegisterTypes(registry, BlockEntityTypes());
  }

  method OnRegisterEntities(registry: SchemaRegistry)
    modifies registry
    ensures registry.types == RegisterAll(old(registry.types), EntityTypes())
  {
    RegisterTypes(registry, EntityTypes());
  }

  lemma BlockEntityTypesDistinct()
    ensures DistinctIds(BlockEntityTypes())
  {
  }

  lemma EntityTypesDistinct()
    ensures DistinctIds(EntityTypes())
  {
  }

  /**
   * After the block-entity callback, the registry holds its previous types plus
   * the six block entities; the lantern and the chest carry an item list, the
   * others are remainders.
   */
  lemma BlockEntityTemplates(types: map<Id, TypeTemplate>)
    ensures var m := RegisterAll(types, BlockEntityTypes());
            && (forall id :: id in m <==> id in types || exists i :: 0 <= i < |BlockEntityTypes()| && BlockEntityTypes()[i].id == id)
            && TemplateOf(m, WW("display_lantern")) == Success(ItemList)
            && TemplateOf(m, WW("stone_chest")) == Success(ItemList)
            && TemplateOf(m, WW("hanging_tendril")) == Success(Remainder)
            && TemplateOf(m, WW("scorched_block")) == Success(Remainder)
            && TemplateOf(m, WW("termite_mound")) == Success(Remainder)
            && TemplateOf(m, WW("geyser")) == Success(Remainder)
  {
    var t := BlockEntityTypes();
    BlockEntityTypesDistinct();
    RegisterAllContents(types, t);
    assert t[0].id == WW("display_lantern") && t[3].id == WW("stone_chest");
    assert t[1].id == WW("hanging_tendril") && t[2].id == WW("scorched_block");
    assert t[4].id == WW("termite_mound") && t[5].id == WW("geyser");
  }

  /**
   * After the entity callback, the tumbleweed is the one entity with an item
   * (besides its equipment); the mobs carry equipment and the rest are remainders.
   */
  lemma EntityTemplates(types: map<Id, TypeTemplate>)
    ensures var m := RegisterAll(types, EntityTypes());
            && (forall id :: id in m <==> id in types || exists i :: 0 <= i < |EntityTypes()| && EntityTypes()[i].id == id)
            && TemplateOf(m, WW("tumbleweed")) == Success(TypeTemplate(ItemStack, true))
            && TemplateOf(m, WW("jellyfish")) == Success(Equipment)
            && TemplateOf(m, WW("scorched")) == Success(Equipment)
            && TemplateOf(m, WW("ostrich")) == Success(Equipment)
            && TemplateOf(m, WW("crab")) == Success(Equipment)
            && TemplateOf(m, WW("firefly")) == Success(Equipment)
            && TemplateOf(m, WW("ancient_horn_vibration")) == Success(Remainder)
            && TemplateOf(m, WW("coconut")) == Success(Remainder)
            && TemplateOf(m, WW("chest_bubbler")) == Success(Remainder)
            && TemplateOf(m, WW("sculk_spreader")) == Success(Remainder)
  {
    var t := EntityTypes();
    EntityTypesDistinct();
    RegisterAllContents(types, t);
    assert t[4].id == WW("tumbleweed") && t[0].id == WW("jellyfish");
    assert t[9].id == WW("scorched") && t[5].id == WW("ancient_horn_vibration");
    assert t[1].id == WW("ostrich") && t[2].id == WW("crab") && t[3].id == WW("firefly");
    assert t[6].id == WW("coconut") && t[7].id == WW("chest_bubbler") && t[8].id == WW("sculk_spreader");
  }

  /** Of the mod's entities, only the tumbleweed has an item field. */
  lemma OnlyTumbleweedHoldsItems()
    ensures forall i :: 0 <= i < |EntityTypes()| ==> (EntityTypes()[i].template.items != NoItems <==> EntityTypes()[i].id == WW("tumbleweed"))
  {
  }

  const DATA_VERSION: nat := 18

  /** The stage of each addSchema call, in call order, with the fixers registered against it. */
  function StageV0(): Stage {
    Stage(Schema(0, BaseSchema), [])
  }

  function StageV1(): Stage {
    Stage(Schema(1, NamespacedSchema), [
      Rename(BlockState, WW("white_dandelion"), WW("blooming_dandelion")),
      Rename(BlockState, WW("potted_white_dandelion"), WW("potted_blooming_dandelion")) ])
  }

  function StageV2(): Stage {
    Stage(Schema(2, NamespacedSchema), [
      Rename(BlockState, WW("blooming_dandelion"), WW("seeding_dandelion")),
      Rename(BlockState, WW("potted_blooming_dandelion"), WW("potted_seeding_dandelion")) ])
  }

  function StageV3(): Stage {
    Stage(Schema(3, NamespacedSchema), [
      Rename(BlockState, WW("floating_moss"), WW("algae")),
      Rename(Item, WW("floating_moss"), WW("algae")) ])
  }

  function StageV4(): Stage {
    Stage(Schema(4, NamespacedSchema), [
      Rename(BlockState, WW("test_1"), WW("null_block")) ])
  }

  function StageV5(): Stage {
    Stage(Schema(5, NamespacedSchema), [
      Rename(BlockState, WW("sculk_echoer"), WW("null_block")),
      Rename(BlockState, WW("sculk_jaw"), WW("null_block")) ])
  }

  function StageV6(): Stage {
    Stage(Schema(6, NamespacedSchema), [
      Rename(BlockState, WW("baobab_sapling"), WW("baobab_nut")),
      Rename(BlockState, WW("baobab_nut_sapling"), WW("baobab_nut")),
      Rename(BlockState, WW("potted_baobab_sapling"), WW("potted_baobab_nut")) ])
  }

  function StageV7(): Stage {
    Stage(Schema(7, NamespacedSchema), [
      Rename(BlockState, WW("firefly_lantern"), WW("display_lantern")),
      Rename(BlockState, WW("mesoglea"), WW("blue_pearlescent_mesoglea")),
      Rename(Item, WW("mesoglea"), WW("blue_pearlescent_mesoglea")) ])
  }

  function StageV8(): Stage {
    Stage(Schema(8, NamespacedSchema), [
      StateKeyRename(WW("display_lantern"), "light", "0", "display_light") ])
  }

  function StageV9(): Stage {
    Stage(Schema(9, NamespacedSchema), [
      StructuralRewrite(NematocystStateFix, WW("blue_nematocyst")),
      StructuralRewrite(NematocystStateFix, WW("blue_pearlescent_nematocyst")),
      StructuralRewrite(NematocystStateFix, WW("lime_nematocyst")),
      StructuralRewrite(NematocystStateFix, WW("pink_nematocyst")),
      StructuralRewrite(NematocystStateFix, WW("purple_pearlescent_nematocyst")),
      StructuralRewrite(NematocystStateFix, WW("red_nematocyst")),
      StructuralRewrite(NematocystStateFix, WW("yellow_nematocyst")) ])
  }

  function StageV10(): Stage {
    Stage(Schema(10, NamespacedSchema), [
      Rename(BlockState, WW("palm_sapling"), WW("coconut")) ])
  }

  function StageV11(): Stage {
    Stage(Schema(11, NamespacedSchema), [
      StructuralRewrite(DrySandStateFix, WW("dry_sand")),
      Rename(BlockState, WW("dry_sand"), WW("scorched_sand")),
      Rename(Item, WW("dry_sand"), WW("scorched_sand")),
      StructuralRewrite(DrySandStateFix, WW("scorched_sand")) ])
  }

  function StageV13(): Stage {
    Stage(Schema(13, NamespacedSchema), [
      Rename(BlockState, WW("palm_leaves"), WW("palm_fronds")),
      Rename(Item, WW("palm_leaves"), WW("palm_fronds")) ])
  }

  function StageV14(): Stage {
    Stage(Schema(14, NamespacedSchema), [
      StructuralRewrite(ScorchedSandStateFix2, WW("scorched_sand")),
      StructuralRewrite(ScorchedSandStateFix2, WW("scorched_red_sand")) ])
  }

  function StageV15(): Stage {
    Stage(Schema(15, NamespacedSchema), [
      StructuralRewrite(OsseousSculkStateFix, WW("osseous_sculk")) ])
  }

  function StageV16(): Stage {
    Stage(Schema(16, NamespacedSchema), [
      Rename(Item, WW("music_disc_back"), Vanilla("music_disc_5")),
      Rename(Item, WW("music_disc_goathorn_symphony"), Vanilla("music_disc_otherside")),
      Rename(Entity, WW("ancient_horn_projectile"), WW("ancient_horn_vibration")) ])
  }

  function StageV17(): Stage {
    Stage(Schema(17, NamespacedSchema), [
      RenameBiomes(map[WW("magma_caves") := WW("magmatic_caves")]) ])
  }

  function StageV18(): Stage {
    Stage(Schema(18, WWV18), [
      Rename(BlockState, WW("stone_chest"), WW("metal_chest")),
      Rename(Item, WW("stone_chest"), WW("metal_chest")),
      Rename(BlockEntity, WW("stone_chest"), WW("metal_chest")) ])
  }

  /** Every addSchema call of the registration code, in order; there is no version 12. */
  function WWStages(): seq<Stage> {
    [ StageV0(), StageV1(), StageV2(), StageV3(), StageV4(), StageV5(), StageV6(), StageV7(), StageV8(), StageV9(), StageV10(), StageV11(), StageV13(), StageV14(), StageV15(), StageV16(), StageV17(), StageV18() ]
  }

  function WWSchemas(): seq<Schema> {
    SchemasOf(WWStages())
  }

  function WWFixers(): seq<Fixer> {
    FixersOf(WWStages())
  }

  function WWChain(): Chain {
    Chain(DATA_VERSION, WWSchemas(), WWFixers())
  }

  /** Schema versions strictly increase, 12 is skipped, and 18 is the last. */
  lemma WWSchemasAscending()
    ensures Ascending(WWSchemas())
    ensures WWSchemas()[|WWSchemas()| - 1].version == DATA_VERSION
    ensures !IsRegistered(WWSchemas(), 12)
  {
    var s := WWSchemas();
    assert |s| == 18;
    assert forall k :: 0 <= k < |s| ==> s[k].version == if k <= 11 then k else k + 1;
  }

  /** The chain passes the builder's checks, and its fixers are in version order. */
  lemma WWChainWellFormed()
    ensures WellFormed(WWChain())
    ensures InVersionOrder(WWFixers())
  {
    WWSchemasAscending();
    FixersOfInVersionOrder(WWStages());
    FixersOfRegistered(WWStages());
  }

  /** Builds the mod's chain: the build succeeds with schemas 0..18 (no 12) and their fixers. */
  method ApplyDataFixes() returns (r: Result<Chain, ConfigError>)
    ensures r == Success(WWChain())
    ensures WellFormed(WWChain())
    ensures InVersionOrder(WWChain().fixers)
  {
    WWSchemasAscending();
    WWChainWellFormed();
    r := Replay(DATA_VERSION, WWStages());
  }
}
