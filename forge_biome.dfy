/**
 * How a Forge biome is assembled from an OTG biome configuration: the
 * temperature handed to the game, the colour defaults, the precipitation, the
 * mob spawn lists, and the structures and carvers registered for the biome.
 * The game's builders are modelled as objects that record what is pushed
 * into them.
 */
module ForgeBiome {
  import opened Wrappers
  import opened Seqs

  datatype VillageType = NoVillage | Wood | Sandstone | Taiga | Savanna | Snowy
  datatype RareBuildingType = NoRareBuilding | DesertPyramid | JungleTemple | SwampHut | Igloo
  datatype MineshaftType = NoMineshaft | Normal | Mesa

  /** The world settings a biome reads. */
  datatype WorldConfig = WorldConfig(
    villagesEnabled: bool, strongholdsEnabled: bool, oceanMonumentsEnabled: bool,
    rareBuildingsEnabled: bool, mineshaftsEnabled: bool,
    caveFrequency: int, caveRarity: int)

  /** One weighted mob group of a biome configuration. */
  datatype MobGroup = MobGroup(internalName: string, mob: string, weight: int, min: int, max: int)

  datatype BiomeConfig = BiomeConfig(
    name: string,
    biomeTemperature: real, biomeWetness: real, biomeHeight: real, biomeVolatility: real,
    fogColor: int, waterColor: int, skyColor: int, foliageColor: int, grassColor: int,
    grassColorIsMultiplier: bool,
    villageType: VillageType, rareBuildingType: RareBuildingType, mineshaftType: MineshaftType,
    woodLandMansionsEnabled: bool, netherFortressesEnabled: bool,
    worldConfig: WorldConfig,
    spawnMonsters: seq<MobGroup>, spawnCreatures: seq<MobGroup>,
    spawnWaterCreatures: seq<MobGroup>, spawnAmbientCreatures: seq<MobGroup>)

  // ----- Temperature -------------------------------------------------------

  /**
   * The temperature handed to the game: the game misbehaves strictly inside
   * (0.1, 0.2], so a configured value in [0.1, 0.2] is moved to 0.1.  The
   * branch that would choose 0.2 for values of at least 1.5 is dead inside
   * that range.
   */
  function SafeTemperature(t: real): (r: real)
    ensures 0.1 <= t <= 0.2 ==> r == 0.1
    ensures !(0.1 <= t <= 0.2) ==> r == t
    ensures !(0.1 < r <= 0.2)
  {
    if 0.1 <= t <= 0.2 then (if t >= 1.5 then 0.2 else 0.1) else t
  }

  lemma SafeTemperatureIdempotent(t: real)
    ensures SafeTemperature(SafeTemperature(t)) == SafeTemperature(t)
  {
  }

  // ----- Colours -----------------------------------------------------------

  const DefaultFogColor: int := 12638463
  const DefaultWaterFogColor: int := 329011
  const DefaultWaterColor: int := 4159204
  const UnsetWaterColor: int := 0xffffff
  const UnsetSkyColor: int := 0x7BA5FF
  const UnsetFoliageColor: int := 0xffffff
  const UnsetGrassColor: int := 0xffffff

  /** What is pushed into the game's ambience builder. */
  datatype Ambience = Ambience(
    fogColor: int, waterFogColor: int, waterColor: int, skyColor: int,
    foliageColor: Option<int>, grassColor: Option<int>)

  /**
   * The ambience of a biome.  A zero fog colour means "default" for both the
   * fog and the water fog (there is no separate water fog setting); white
   * water means default water; the default sky colour is derived from the
   * adjusted temperature (skyColorForTemp).  Foliage and grass colours are
   * only set when they are not white, grass only when it is no multiplier.
   */
  function AmbienceOf(cfg: BiomeConfig, skyColorForTemp: real -> int): (r: Ambience)
    ensures cfg.fogColor != 0 ==> r.fogColor == cfg.fogColor && r.waterFogColor == cfg.fogColor
    ensures cfg.fogColor == 0 ==> r.fogColor == DefaultFogColor && r.waterFogColor == DefaultWaterFogColor
    ensures r.waterColor == if cfg.waterColor == UnsetWaterColor then DefaultWaterColor else cfg.waterColor
    ensures r.skyColor == if cfg.skyColor == UnsetSkyColor then skyColorForTemp(SafeTemperature(cfg.biomeTemperature)) else cfg.skyColor
    ensures r.foliageColor.Some? <==> cfg.foliageColor != UnsetFoliageColor
    ensures r.foliageColor.Some? ==> r.foliageColor.value == cfg.foliageColor
    ensures r.grassColor.Some? <==> cfg.grassColor != UnsetGrassColor && !cfg.grassColorIsMultiplier
    ensures r.grassColor.Some? ==> r.grassColor.value == cfg.grassColor
  {
    Ambience(
      if cfg.fogColor != 0 then cfg.fogColor else DefaultFogColor,
      if cfg.fogColor != 0 then cfg.fogColor else DefaultWaterFogColor,
      if cfg.waterColor != UnsetWaterColor then cfg.waterColor else DefaultWaterColor,
      if cfg.skyColor != UnsetSkyColor then cfg.skyColor else skyColorForTemp(SafeTemperature(cfg.biomeTemperature)),
      if cfg.foliageColor != UnsetFoliageColor then Some(cfg.foliageColor) else None,
      if cfg.grassColor != UnsetGrassColor && !cfg.grassColorIsMultiplier then Some(cfg.grassColor) else None)
  }

  /** A fog colour never comes out as zero: zero always means "use the default". */
  lemma FogColorNeverZero(cfg: BiomeConfig, skyColorForTemp: real -> int)
    ensures AmbienceOf(cfg, skyColorForTemp).fogColor != 0
    ensures AmbienceOf(cfg, skyColorForTemp).waterFogColor != 0
  {
  }

  // ----- Precipitation -----------------------------------------------------

  datatype RainType = NoRain | Rain | Snow

  /**
   * NONE for a dry biome, otherwise RAIN above the snow-and-ice temperature
   * and SNOW at or below it, judged on the configured (unadjusted) temperature.
   */
  function Precipitation(cfg: BiomeConfig, snowAndIceTemp: real): (r: RainType)
    ensures r == NoRain <==> cfg.biomeWetness <= 0.0001
    ensures r == Rain <==> cfg.biomeWetness > 0.0001 && cfg.biomeTemperature > snowAndIceTemp
    ensures r == Snow <==> cfg.biomeWetness > 0.0001 && cfg.biomeTemperature <= snowAndIceTemp
  {
    if cfg.biomeWetness <= 0.0001 then NoRain
    else if cfg.biomeTemperature > snowAndIceTemp then Rain
    else Snow
  }

  /**
   * The precipitation reads the configured temperature: a wet biome at 0.15
   * rains even though the temperature handed to the game is 0.1, below a
   * snow-and-ice temperature between the two.
   */
  lemma PrecipitationUsesConfiguredTemperature(cfg: BiomeConfig, snowAndIceTemp: real)
    requires 0.1 <= snowAndIceTemp < 0.15
    requires cfg.biomeTemperature == 0.15 && cfg.biomeWetness == 0.5
    ensures Precipitation(cfg, snowAndIceTemp) == Rain
    ensures SafeTemperature(cfg.biomeTemperature) <= snowAndIceTemp
  {
  }

  // ----- Mob spawns --------------------------------------------------------

  datatype MobCategory = Monster | Creature | WaterCreature | Ambient

  /** MobSpawnInfo.Spawners: the entity and the group's weight and pack size. */
  datatype Spawner = Spawner(category: MobCategory, entity: string, weight: int, min: int, max: int)

  /** What one group contributes to its list: a spawner when its entity is known, else nothing. */
  function SpawnerFor(g: MobGroup, category: MobCategory, entityByKey: string -> Option<string>): seq<Spawner>
  {
    var e := entityByKey(g.internalName);
    if e.Some? then [Spawner(category, e.value, g.weight, g.min, g.max)] else []
  }

  /** The spawners pushed for one list: its groups whose entity is known, in order. */
  function KnownSpawners(groups: seq<MobGroup>, category: MobCategory, entityByKey: string -> Option<string>): seq<Spawner>
  {
    if groups == [] then []
    else SpawnerFor(groups[0], category, entityByKey) + KnownSpawners(groups[1..], category, entityByKey)
  }

  /** One group is warned about, and skipped, when its entity is unknown. */
  function WarningFor(g: MobGroup, entityByKey: string -> Option<string>): seq<MobGroup>
  {
    if entityByKey(g.internalName).None? then [g] else []
  }

  /** The groups of one list that are skipped with a warning. */
  function UnknownGroups(groups: seq<MobGroup>, entityByKey: string -> Option<string>): seq<MobGroup>
  {
    if groups == [] then []
    else WarningFor(groups[0], entityByKey) + UnknownGroups(groups[1..], entityByKey)
  }

  /**
   * Every group is either pushed or warned about, never both, and each pushed
   * spawner carries the category of the list it came from.
   */
  lemma {:induction false} KnownSpawnersSpec(groups: seq<MobGroup>, category: MobCategory, entityByKey: string -> Option<string>)
    ensures |KnownSpawners(groups, category, entityByKey)| + |UnknownGroups(groups, entityByKey)| == |groups|
    ensures forall s :: s in KnownSpawners(groups, category, entityByKey) ==> s.category == category
    ensures forall s :: s in KnownSpawners(groups, category, entityByKey) ==>
      exists g :: g in groups && entityByKey(g.internalName) == Some(s.entity) && s.weight == g.weight && s.min == g.min && s.max == g.max
    ensures forall g :: g in UnknownGroups(groups, entityByKey) ==> g in groups && entityByKey(g.internalName).None?
  {
    if groups != [] {
      KnownSpawnersSpec(groups[1..], category, entityByKey);
      forall s | s in KnownSpawners(groups[1..], category, entityByKey)
        ensures exists g :: g in groups && entityByKey(g.internalName) == Some(s.entity) && s.weight == g.weight && s.min == g.min && s.max == g.max
      {
        var g :| g in groups[1..] && entityByKey(g.internalName) == Some(s.entity) && s.weight == g.weight && s.min == g.min && s.max == g.max;
        assert g in groups;
      }
    }
  }

  lemma {:induction false} KnownSpawnersSnoc(groups: seq<MobGroup>, g: MobGroup, category: MobCategory, entityByKey: string -> Option<string>)
    ensures KnownSpawners(groups + [g], category, entityByKey)
      == KnownSpawners(groups, category, entityByKey) + SpawnerFor(g, category, entityByKey)
    ensures UnknownGroups(groups + [g], entityByKey)
      == UnknownGroups(groups, entityByKey) + WarningFor(g, entityByKey)
  {
    if groups == [] {
      assert [g][1..] == [];
    } else {
      assert (groups + [g])[0] == groups[0];
      assert (groups + [g])[1..] == groups[1..] + [g];
      KnownSpawnersSnoc(groups[1..], g, category, entityByKey);
    }
  }

  /** The spawners of one category, in order. */
  function OfCategory(spawners: seq<Spawner>, category: MobCategory): seq<Spawner>
  {
    if spawners == [] then []
    else (if spawners[0].category == category then [spawners[0]] else []) + OfCategory(spawners[1..], category)
  }

  lemma {:induction false} OfCategoryAppend(a: seq<Spawner>, b: seq<Spawner>, category: MobCategory)
    ensures OfCategory(a + b, category) == OfCategory(a, category) + OfCategory(b, category)
  {
    if a == [] {
      assert a + b == b;
    } else {
      assert (a + b)[0] == a[0];
      assert (a + b)[1..] == a[1..] + b;
      OfCategoryAppend(a[1..], b, category);
      var head := if a[0].category == category then [a[0]] else [];
      assert OfCategory(a + b, category) == head + (OfCategory(a[1..], category) + OfCategory(b, category));
      assert OfCategory(a, category) == head + OfCategory(a[1..], category);
      assert head + (OfCategory(a[1..], category) + OfCategory(b, category))
          == (head + OfCategory(a[1..], category)) + OfCategory(b, category);
    }
  }

  lemma {:induction false} OfCategoryKnown(groups: seq<MobGroup>, listCategory: MobCategory, category: MobCategory, entityByKey: string -> Option<string>)
    ensures OfCategory(KnownSpawners(groups, listCategory, entityByKey), category)
      == if listCategory == category then KnownSpawners(groups, listCategory, entityByKey) else []
  {
    if groups != [] {
      var head := SpawnerFor(groups[0], listCategory, entityByKey);
      OfCategoryAppend(head, KnownSpawners(groups[1..], listCategory, entityByKey), category);
      OfCategoryKnown(groups[1..], listCategory, category, entityByKey);
      if head != [] {
        assert head[1..] == [];
      }
    }
  }

  /** The four lists of a biome configuration pushed in turn. */
  function AllSpawners(cfg: BiomeConfig, entityByKey: string -> Option<string>): seq<Spawner>
  {
    KnownSpawners(cfg.spawnMonsters, Monster, entityByKey)
      + KnownSpawners(cfg.spawnCreatures, Creature, entityByKey)
      + KnownSpawners(cfg.spawnWaterCreatures, WaterCreature, entityByKey)
      + KnownSpawners(cfg.spawnAmbientCreatures, Ambient, entityByKey)
  }

  /** Each category of the built spawn settings holds exactly the known groups of its own list. */
  lemma SpawnersByCategory(cfg: BiomeConfig, entityByKey: string -> Option<string>)
    ensures OfCategory(AllSpawners(cfg, entityByKey), Monster) == KnownSpawners(cfg.spawnMonsters, Monster, entityByKey)
    ensures OfCategory(AllSpawners(cfg, entityByKey), Creature) == KnownSpawners(cfg.spawnCreatures, Creature, entityByKey)
    ensures OfCategory(AllSpawners(cfg, entityByKey), WaterCreature) == KnownSpawners(cfg.spawnWaterCreatures, WaterCreature, entityByKey)
    ensures OfCategory(AllSpawners(cfg, entityByKey), Ambient) == KnownSpawners(cfg.spawnAmbientCreatures, Ambient, entityByKey)
  {
    var m := KnownSpawners(cfg.spawnMonsters, Monster, entityByKey);
    var c := KnownSpawners(cfg.spawnCreatures, Creature, entityByKey);
    var w := KnownSpawners(cfg.spawnWaterCreatures, WaterCreature, entityByKey);
    var a := KnownSpawners(cfg.spawnAmbientCreatures, Ambient, entityByKey);
    forall category | true
      ensures OfCategory(m + c + w + a, category)
        == OfCategory(m, category) + OfCategory(c, category) + OfCategory(w, category) + OfCategory(a, category)
    {
      OfCategoryAppend(m + c + w, a, category);
      OfCategoryAppend(m + c, w, category);
      OfCategoryAppend(m, c, category);
    }
    forall category | true
      ensures OfCategory(m, category) == (if category == Monster then m else [])
      ensures OfCategory(c, category) == (if category == Creature then c else [])
      ensures OfCategory(w, category) == (if category == WaterCreature then w else [])
      ensures OfCategory(a, category) == (if category == Ambient then a else [])
    {
      OfCategoryKnown(cfg.spawnMonsters, Monster, category, entityByKey);
      OfCategoryKnown(cfg.spawnCreatures, Creature, category, entityByKey);
      OfCategoryKnown(cfg.spawnWaterCreatures, WaterCreature, category, entityByKey);
      OfCategoryKnown(cfg.spawnAmbientCreatures, Ambient, category, entityByKey);
    }
  }

  /** MobSpawnInfo.Builder: the spawners pushed so far, and whether the closing flag was set. */
  class MobSpawnInfoBuilder {
    var spawners: seq<Spawner>
    var playerCanSpawn: bool

    constructor ()
      ensures spawners == [] && !playerCanSpawn
    {
      spawners, playerCanSpawn := [], false;
    }

    method AddSpawn(s: Spawner)
      modifies this
      ensures spawners == old(spawners) + [s] && playerCanSpawn == old(playerCanSpawn)
    {
      spawners := spawners + [s];
    }
  }

  /** One loop of createMobSpawnInfo: pushes the known groups, returns the ones warned about. */
  method PushGroups(builder: MobSpawnInfoBuilder, groups: seq<MobGroup>, category: MobCategory,
                    entityByKey: string -> Option<string>) returns (warned: seq<MobGroup>)
    modifies builder
    ensures builder.spawners == old(builder.spawners) + KnownSpawners(groups, category, entityByKey)
    ensures builder.playerCanSpawn == old(builder.playerCanSpawn)
    ensures warned == UnknownGroups(groups, entityByKey)
  {
    warned := [];
    var i := 0;
    while i < |groups|
      invariant 0 <= i <= |groups|
      invariant builder.spawners == old(builder.spawners) + KnownSpawners(groups[..i], category, entityByKey)
      invariant warned == UnknownGroups(groups[..i], entityByKey)
      invariant builder.playerCanSpawn == old(builder.playerCanSpawn)
    {
      var g := groups[i];
      assert groups[..i + 1] == groups[..i] + [g];
      KnownSpawnersSnoc(groups[..i], g, category, entityByKey);
      var entity := entityByKey(g.internalName);
      if entity.Some? {
        builder.AddSpawn(Spawner(category, entity.value, g.weight, g.min, g.max));
      } else {
        warned := warned + [g];
      }
      i := i + 1;
    }
    assert groups[..i] == groups;
  }

  /** createMobSpawnInfo: monsters, creatures, water creatures, ambient creatures, then the closing flag. */
  method CreateMobSpawnInfo(cfg: BiomeConfig, entityByKey: string -> Option<string>)
    returns (builder: MobSpawnInfoBuilder, warned: seq<MobGroup>)
    ensures builder.spawners == AllSpawners(cfg, entityByKey)
    ensures builder.playerCanSpawn
    ensures warned == UnknownGroups(cfg.spawnMonsters, entityByKey) + UnknownGroups(cfg.spawnCreatures, entityByKey)
      + UnknownGroups(cfg.spawnWaterCreatures, entityByKey) + UnknownGroups(cfg.spawnAmbientCreatures, entityByKey)
  {
    ghost var m := KnownSpawners(cfg.spawnMonsters, Monster, entityByKey);
    ghost var c := KnownSpawners(cfg.spawnCreatures, Creature, entityByKey);
    ghost var w := KnownSpawners(cfg.spawnWaterCreatures, WaterCreature, entityByKey);
    ghost var a := KnownSpawners(cfg.spawnAmbientCreatures, Ambient, entityByKey);
    builder := new MobSpawnInfoBuilder();
    var w1 := PushGroups(builder, cfg.spawnMonsters, Monster, entityByKey);
    assert builder.spawners == m;
    var w2 := PushGroups(builder, cfg.spawnCreatures, Creature, entityByKey);
    assert builder.spawners == m + c;
    var w3 := PushGroups(builder, cfg.spawnWaterCreatures, WaterCreature, entityByKey);
    assert builder.spawners == m + c + w;
    var w4 := PushGroups(builder, cfg.spawnAmbientCreatures, Ambient, entityByKey);
    assert builder.spawners == m + c + w + a;
    builder.playerCanSpawn := true;
    warned := w1 + w2 + w3 + w4;
  }

  // ----- Structures and carvers --------------------------------------------

  /** The vanilla configured structure features a biome can register. */
  datatype StructureFeature =
    | VillagePlains | VillageDesert | VillageSavanna | VillageTaiga | VillageSnowy
    | Stronghold | Monument
    | DesertPyramidFeature | IglooFeature | JunglePyramid | SwampHutFeature
    | Mansion | Fortress | MineshaftFeature | MineshaftMesa

  predicate IsVillage(f: StructureFeature) {
    f.VillagePlains? || f.VillageDesert? || f.VillageSavanna? || f.VillageTaiga? || f.VillageSnowy?
  }

  predicate IsRareBuilding(f: StructureFeature) {
    f.DesertPyramidFeature? || f.IglooFeature? || f.JunglePyramid? || f.SwampHutFeature?
  }

  predicate IsMineshaft(f: StructureFeature) {
    f.MineshaftFeature? || f.MineshaftMesa?
  }

  function VillageFeatureOf(t: VillageType): seq<StructureFeature> {
    match t
    case Sandstone => [VillageDesert]
    case Savanna => [VillageSavanna]
    case Taiga => [VillageTaiga]
    case Wood => [VillagePlains]
    case Snowy => [VillageSnowy]
    case NoVillage => []
  }

  function RareBuildingFeatureOf(t: RareBuildingType): seq<StructureFeature> {
    match t
    case DesertPyramid => [DesertPyramidFeature]
    case Igloo => [IglooFeature]
    case JungleTemple => [JunglePyramid]
    case SwampHut => [SwampHutFeature]
    case NoRareBuilding => []
  }

  function MineshaftFeatureOf(t: MineshaftType): seq<StructureFeature> {
    match t
    case Normal => [MineshaftFeature]
    case Mesa => [MineshaftMesa]
    case NoMineshaft => []
  }

  /**
   * The structures addDefaultStructures registers, in order: the village of
   * the biome's type, stronghold, monument, the rare building of its type,
   * mansion, fortress and the mineshaft of its type.  Villages, strongholds,
   * monuments, rare buildings and mineshafts are gated by the world settings;
   * mansions and fortresses by the biome's own flags.
   */
  function DefaultStructures(cfg: BiomeConfig): seq<StructureFeature>
  {
    VillagePart(cfg) + StrongholdPart(cfg) + MonumentPart(cfg) + RareBuildingPart(cfg)
      + MansionPart(cfg) + FortressPart(cfg) + MineshaftPart(cfg)
  }

  function VillagePart(cfg: BiomeConfig): seq<StructureFeature> {
    if cfg.worldConfig.villagesEnabled then VillageFeatureOf(cfg.villageType) else []
  }

  function StrongholdPart(cfg: BiomeConfig): seq<StructureFeature> {
    if cfg.worldConfig.strongholdsEnabled then [Stronghold] else []
  }

  function MonumentPart(cfg: BiomeConfig): seq<StructureFeature> {
    if cfg.worldConfig.oceanMonumentsEnabled then [Monument] else []
  }

  function RareBuildingPart(cfg: BiomeConfig): seq<StructureFeature> {
    if cfg.worldConfig.rareBuildingsEnabled then RareBuildingFeatureOf(cfg.rareBuildingType) else []
  }

  function MansionPart(cfg: BiomeConfig): seq<StructureFeature> {
    if cfg.woodLandMansionsEnabled then [Mansion] else []
  }

  function FortressPart(cfg: BiomeConfig): seq<StructureFeature> {
    if cfg.netherFortressesEnabled then [Fortress] else []
  }

  function MineshaftPart(cfg: BiomeConfig): seq<StructureFeature> {
    if cfg.worldConfig.mineshaftsEnabled then MineshaftFeatureOf(cfg.mineshaftType) else []
  }

  function Count(s: seq<StructureFeature>, p: StructureFeature -> bool): nat
  {
    if s == [] then 0 else (if p(s[0]) then 1 else 0) + Count(s[1..], p)
  }

  lemma {:induction false} CountAppend(a: seq<StructureFeature>, b: seq<StructureFeature>, p: StructureFeature -> bool)
    ensures Count(a + b, p) == Count(a, p) + Count(b, p)
  {
    if a == [] {
      assert a + b == b;
    } else {
      assert (a + b)[0] == a[0];
      assert (a + b)[1..] == a[1..] + b;
      CountAppend(a[1..], b, p);
    }
  }

  lemma {:induction false} CountAtMostLength(s: seq<StructureFeature>, p: StructureFeature -> bool)
    ensures Count(s, p) <= |s|
  {
    if s != [] {
      CountAtMostLength(s[1..], p);
    }
  }

  /** Counting over the seven groups of DefaultStructures, part by part. */
  lemma CountParts(v: seq<StructureFeature>, s: seq<StructureFeature>, m: seq<StructureFeature>, r: seq<StructureFeature>,
                   a: seq<StructureFeature>, f: seq<StructureFeature>, ms: seq<StructureFeature>, p: StructureFeature -> bool)
    ensures Count(v + s + m + r + a + f + ms, p)
      == Count(v, p) + Count(s, p) + Count(m, p) + Count(r, p) + Count(a, p) + Count(f, p) + Count(ms, p)
  {
    CountAppend(v + s + m + r + a + f, ms, p);
    CountAppend(v + s + m + r + a, f, p);
    CountAppend(v + s + m + r, a, p);
    CountAppend(v + s + m, r, p);
    CountAppend(v + s, m, p);
    CountAppend(v, s, p);
  }

  /** Counts of one feature family over the seven parts. */
  lemma CountOfDefaults(cfg: BiomeConfig, p: StructureFeature -> bool)
    ensures Count(DefaultStructures(cfg), p)
      == Count(VillagePart(cfg), p) + Count(StrongholdPart(cfg), p) + Count(MonumentPart(cfg), p)
       + Count(RareBuildingPart(cfg), p) + Count(MansionPart(cfg), p) + Count(FortressPart(cfg), p)
       + Count(MineshaftPart(cfg), p)
  {
    CountParts(VillagePart(cfg), StrongholdPart(cfg), MonumentPart(cfg), RareBuildingPart(cfg),
      MansionPart(cfg), FortressPart(cfg), MineshaftPart(cfg), p);
  }

  lemma CountSingle(f: StructureFeature, p: StructureFeature -> bool)
    ensures Count([f], p) == if p(f) then 1 else 0
  {
    assert [f][1..] == [];
  }

  /** At most one village, and none unless villages are enabled. */
  lemma AtMostOneVillage(cfg: BiomeConfig)
    ensures Count(DefaultStructures(cfg), IsVillage) <= (if cfg.worldConfig.villagesEnabled then 1 else 0)
  {
    CountOfDefaults(cfg, IsVillage);
    CountAtMostLength(VillagePart(cfg), IsVillage);
    CountSingle(Stronghold, IsVillage);
    CountSingle(Monument, IsVillage);
    CountSingle(Mansion, IsVillage);
    CountSingle(Fortress, IsVillage);
    match cfg.rareBuildingType {
      case NoRareBuilding =>
      case DesertPyramid => CountSingle(DesertPyramidFeature, IsVillage);
      case Igloo => CountSingle(IglooFeature, IsVillage);
      case JungleTemple => CountSingle(JunglePyramid, IsVillage);
      case SwampHut => CountSingle(SwampHutFeature, IsVillage);
    }
    match cfg.mineshaftType {
      case NoMineshaft =>
      case Normal => CountSingle(MineshaftFeature, IsVillage);
      case Mesa => CountSingle(MineshaftMesa, IsVillage);
    }
  }

  /** At most one rare building, and none unless rare buildings are enabled. */
  lemma AtMostOneRareBuilding(cfg: BiomeConfig)
    ensures Count(DefaultStructures(cfg), IsRareBuilding) <= (if cfg.worldConfig.rareBuildingsEnabled then 1 else 0)
  {
    CountOfDefaults(cfg, IsRareBuilding);
    CountAtMostLength(RareBuildingPart(cfg), IsRareBuilding);
    CountSingle(Stronghold, IsRareBuilding);
    CountSingle(Monument, IsRareBuilding);
    CountSingle(Mansion, IsRareBuilding);
    CountSingle(Fortress, IsRareBuilding);
    match cfg.villageType {
      case NoVillage =>
      case Wood => CountSingle(VillagePlains, IsRareBuilding);
      case Sandstone => CountSingle(VillageDesert, IsRareBuilding);
      case Taiga => CountSingle(VillageTaiga, IsRareBuilding);
      case Savanna => CountSingle(VillageSavanna, IsRareBuilding);
      case Snowy => CountSingle(VillageSnowy, IsRareBuilding);
    }
    match cfg.mineshaftType {
      case NoMineshaft =>
      case Normal => CountSingle(MineshaftFeature, IsRareBuilding);
      case Mesa => CountSingle(MineshaftMesa, IsRareBuilding);
    }
  }

  /** At most one mineshaft, and none unless mineshafts are enabled. */
  lemma AtMostOneMineshaft(cfg: BiomeConfig)
    ensures Count(DefaultStructures(cfg), IsMineshaft) <= (if cfg.worldConfig.mineshaftsEnabled then 1 else 0)
  {
    CountOfDefaults(cfg, IsMineshaft);
    CountAtMostLength(MineshaftPart(cfg), IsMineshaft);
    CountSingle(Stronghold, IsMineshaft);
    CountSingle(Monument, IsMineshaft);
    CountSingle(Mansion, IsMineshaft);
    CountSingle(Fortress, IsMineshaft);
    match cfg.villageType {
      case NoVillage =>
      case Wood => CountSingle(VillagePlains, IsMineshaft);
      case Sandstone => CountSingle(VillageDesert, IsMineshaft);
      case Taiga => CountSingle(VillageTaiga, IsMineshaft);
      case Savanna => CountSingle(VillageSavanna, IsMineshaft);
      case Snowy => CountSingle(VillageSnowy, IsMineshaft);
    }
    match cfg.rareBuildingType {
      case NoRareBuilding =>
      case DesertPyramid => CountSingle(DesertPyramidFeature, IsMineshaft);
      case Igloo => CountSingle(IglooFeature, IsMineshaft);
      case JungleTemple => CountSingle(JunglePyramid, IsMineshaft);
      case SwampHut => CountSingle(SwampHutFeature, IsMineshaft);
    }
  }

  /** The carver defaults the game's helper adds: the cave and canyon carvers. */
  datatype CarverSet = CavesAndCanyons

  /** BiomeGenerationSettings.Builder: what is pushed into it. */
  class GenerationSettingsBuilder {
    var noopSurfaceBuilder: bool
    var structures: seq<StructureFeature>
    var carvers: seq<CarverSet>

    constructor ()
      ensures !noopSurfaceBuilder && structures == [] && carvers == []
    {
      noopSurfaceBuilder, structures, carvers := false, [], [];
    }

    method AddStructure(f: StructureFeature)
      modifies this
      ensures structures == old(structures) + [f]
      ensures carvers == old(carvers) && noopSurfaceBuilder == old(noopSurfaceBuilder)
    {
      structures := structures + [f];
    }

    method AddCarvers(c: CarverSet)
      modifies this
      ensures carvers == old(carvers) + [c]
      ensures structures == old(structures) && noopSurfaceBuilder == old(noopSurfaceBuilder)
    {
      carvers := carvers + [c];
    }
  }

  /** Seven appends in a row build s0 + DefaultStructures(cfg). */
  lemma DefaultStructuresSteps(cfg: BiomeConfig, s0: seq<StructureFeature>, s1: seq<StructureFeature>,
                               s2: seq<StructureFeature>, s3: seq<StructureFeature>, s4: seq<StructureFeature>,
                               s5: seq<StructureFeature>, s6: seq<StructureFeature>, s7: seq<StructureFeature>)
    requires s1 == s0 + VillagePart(cfg) && s2 == s1 + StrongholdPart(cfg) && s3 == s2 + MonumentPart(cfg)
    requires s4 == s3 + RareBuildingPart(cfg) && s5 == s4 + MansionPart(cfg) && s6 == s5 + FortressPart(cfg)
    requires s7 == s6 + MineshaftPart(cfg)
    ensures s7 == s0 + DefaultStructures(cfg)
  {
    var d2 := VillagePart(cfg) + StrongholdPart(cfg);
    AppendAssoc(s0, VillagePart(cfg), StrongholdPart(cfg));
    var d3 := d2 + MonumentPart(cfg);
    AppendAssoc(s0, d2, MonumentPart(cfg));
    var d4 := d3 + RareBuildingPart(cfg);
    AppendAssoc(s0, d3, RareBuildingPart(cfg));
    var d5 := d4 + MansionPart(cfg);
    AppendAssoc(s0, d4, MansionPart(cfg));
    var d6 := d5 + FortressPart(cfg);
    AppendAssoc(s0, d5, FortressPart(cfg));
    var d7 := d6 + MineshaftPart(cfg);
    AppendAssoc(s0, d6, MineshaftPart(cfg));
    assert d7 == DefaultStructures(cfg);
  }

  method AddVillage(builder: GenerationSettingsBuilder, t: VillageType)
    modifies builder
    ensures builder.structures == old(builder.structures) + VillageFeatureOf(t)
    ensures builder.carvers == old(builder.carvers) && builder.noopSurfaceBuilder == old(builder.noopSurfaceBuilder)
  {
    if t == Sandstone {
      builder.AddStructure(VillageDesert);
    } else if t == Savanna {
      builder.AddStructure(VillageSavanna);
    } else if t == Taiga {
      builder.AddStructure(VillageTaiga);
    } else if t == Wood {
      builder.AddStructure(VillagePlains);
    } else if t == Snowy {
      builder.AddStructure(VillageSnowy);
    }
  }

  method AddRareBuilding(builder: GenerationSettingsBuilder, t: RareBuildingType)
    modifies builder
    ensures builder.structures == old(builder.structures) + RareBuildingFeatureOf(t)
    ensures builder.carvers == old(builder.carvers) && builder.noopSurfaceBuilder == old(builder.noopSurfaceBuilder)
  {
    if t == DesertPyramid {
      builder.AddStructure(DesertPyramidFeature);
    }
    if t == Igloo {
      builder.AddStructure(IglooFeature);
    }
    if t == JungleTemple {
      builder.AddStructure(JunglePyramid);
    }
    if t == SwampHut {
      builder.AddStructure(SwampHutFeature);
    }
  }

  method AddMineshaft(builder: GenerationSettingsBuilder, t: MineshaftType)
    modifies builder
    ensures builder.structures == old(builder.structures) + MineshaftFeatureOf(t)
    ensures builder.carvers == old(builder.carvers) && builder.noopSurfaceBuilder == old(builder.noopSurfaceBuilder)
  {
    if t == Normal {
      builder.AddStructure(MineshaftFeature);
    } else if t == Mesa {
      builder.AddStructure(MineshaftMesa);
    }
  }

  /** addDefaultStructures: pushes DefaultStructures(cfg), in order, and nothing else. */
  method AddDefaultStructures(builder: GenerationSettingsBuilder, cfg: BiomeConfig)
    modifies builder
    ensures builder.structures == old(builder.structures) + DefaultStructures(cfg)
    ensures builder.carvers == old(builder.carvers) && builder.noopSurfaceBuilder == old(builder.noopSurfaceBuilder)
  {
    var w := cfg.worldConfig;
    ghost var s0 := builder.structures;
    if w.villagesEnabled {
      AddVillage(builder, cfg.villageType);
    }
    ghost var s1 := builder.structures;
    if w.strongholdsEnabled {
      builder.AddStructure(Stronghold);
    }
    ghost var s2 := builder.structures;
    if w.oceanMonumentsEnabled {
      builder.AddStructure(Monument);
    }
    ghost var s3 := builder.structures;
    if w.rareBuildingsEnabled {
      AddRareBuilding(builder, cfg.rareBuildingType);
    }
    ghost var s4 := builder.structures;
    if cfg.woodLandMansionsEnabled {
      builder.AddStructure(Mansion);
    }
    ghost var s5 := builder.structures;
    if cfg.netherFortressesEnabled {
      builder.AddStructure(Fortress);
    }
    ghost var s6 := builder.structures;
    if w.mineshaftsEnabled {
      AddMineshaft(builder, cfg.mineshaftType);
    }
    DefaultStructuresSteps(cfg, s0, s1, s2, s3, s4, s5, s6, builder.structures);
  }

  /** The carvers are added exactly when both cave frequency and cave rarity are positive. */
  method AddCarvers(builder: GenerationSettingsBuilder, cfg: BiomeConfig)
    modifies builder
    ensures builder.carvers == old(builder.carvers)
      + (if cfg.worldConfig.caveFrequency > 0 && cfg.worldConfig.caveRarity > 0 then [CavesAndCanyons] else [])
    ensures builder.structures == old(builder.structures) && builder.noopSurfaceBuilder == old(builder.noopSurfaceBuilder)
  {
    if cfg.worldConfig.caveFrequency > 0 && cfg.worldConfig.caveRarity > 0 {
      builder.AddCarvers(CavesAndCanyons);
    }
  }

  // ----- The biome ---------------------------------------------------------

  /** The finished biome, as the values handed to the game's builders. */
  datatype Biome = Biome(
    precipitation: RainType, temperature: real, downfall: real, depth: real, scale: real,
    ambience: Ambience,
    spawners: seq<Spawner>, playerCanSpawn: bool,
    noopSurfaceBuilder: bool, structures: seq<StructureFeature>, carvers: seq<CarverSet>)

  /**
   * createOTGBiome: everything except the registry name and the sound
   * settings, which are fixed.
   */
  method CreateOtgBiome(cfg: BiomeConfig, entityByKey: string -> Option<string>,
                        skyColorForTemp: real -> int, snowAndIceTemp: real)
    returns (biome: Biome, warned: seq<MobGroup>)
    ensures biome.precipitation == Precipitation(cfg, snowAndIceTemp)
    ensures biome.temperature == SafeTemperature(cfg.biomeTemperature)
    ensures biome.downfall == cfg.biomeWetness && biome.depth == cfg.biomeHeight && biome.scale == cfg.biomeVolatility
    ensures biome.ambience == AmbienceOf(cfg, skyColorForTemp)
    ensures biome.spawners == AllSpawners(cfg, entityByKey) && biome.playerCanSpawn
    ensures biome.noopSurfaceBuilder
    ensures biome.structures == DefaultStructures(cfg)
    ensures biome.carvers == if cfg.worldConfig.caveFrequency > 0 && cfg.worldConfig.caveRarity > 0 then [CavesAndCanyons] else []
    ensures |warned| == |UnknownGroups(cfg.spawnMonsters, entityByKey)| + |UnknownGroups(cfg.spawnCreatures, entityByKey)|
      + |UnknownGroups(cfg.spawnWaterCreatures, entityByKey)| + |UnknownGroups(cfg.spawnAmbientCreatures, entityByKey)|
  {
    var generation := new GenerationSettingsBuilder();
    var mobs;
    mobs, warned := CreateMobSpawnInfo(cfg, entityByKey);
    generation.noopSurfaceBuilder := true;
    AddDefaultStructures(generation, cfg);
    AddCarvers(generation, cfg);
    var temperature := SafeTemperature(cfg.biomeTemperature);
    var ambience := AmbienceOf(cfg, skyColorForTemp);
    biome := Biome(Precipitation(cfg, snowAndIceTemp), temperature, cfg.biomeWetness,
      cfg.biomeHeight, cfg.biomeVolatility, ambience,
      mobs.spawners, mobs.playerCanSpawn,
      generation.noopSurfaceBuilder, generation.structures, generation.carvers);
  }
}
