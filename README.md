# OpenTerrainGenerator core rules in Dafny

OpenTerrainGenerator (OTG) is a world-generation plugin for Minecraft servers. This project models six of its
self-contained decision and data rules and proves properties of each. Everything else in the plugin
(registries, the random source, the world, worker threads, file I/O) is treated as a parameter of the model.

- `noise_chunk_generator.dfy` (module `NoiseChunkGenerator`) — the Forge noise chunk generator:
  - the jigsaw scanner that collects rigid boxes and junctions near a chunk;
  - the column sampler (`getBlockState`, `sampleHeightmap`) over an abstract density;
  - the cell-range arithmetic of `getBaseHeight`/`getBaseColumn`, and the writable area of a chunk;
  - the carver flags of `applyCarvers`;
  - the structure placements and the enabled structure sets;
  - the once-only portal configuration with its fallbacks to the world config;
  - the lazy structure cache and the cached/fresh routing of `buildNoise`.
- `spigot_material_data.dfy` (module `SpigotMaterialData`) — Spigot's material wrapper:
  - the state-to-object interning table;
  - the cached name;
  - the null/blank predicates;
  - the 90° rotation of facings and fence connections, with its cached result;
  - `withProperty`, and equality and hashing.
- `plant_gen.dfy` (module `PlantGen`) — the `Plant` resource:
  - argument parsing with bounds;
  - the 64-attempt placement rule;
  - serialisation, equality and hashing.
- `forge_biome.dfy` (module `ForgeBiome`) — how an OTG biome config becomes a Forge biome:
  - temperature, colours and precipitation;
  - mob spawners per category;
  - default structures and carvers.
- `command_executor.dfy` (module `CommandExecutor`) — the `/otg` command table, command routing and tab completion.
- `biome_object_argument.dfy` (module `BiomeObjectArgument`) — quoting of object-name suggestions and the choice between the global and the per-preset list.
- `java_lang.dfy`, `wrappers.dfy` and `seqs.dfy` hold:
  - the Java library behaviour the core relies on: ASCII `toLowerCase`, `equalsIgnoreCase`, `trim`, `split(",")` and 32-bit `int` wrap-around;
  - `Option`/`Result`;
  - one sequence lemma.

Classes model the objects whose fields the source updates in place:
- the command table;
- the material object and its interning registry;
- the plant resource and the world it writes to;
- the Forge builders;
- the generator's object lists, portal fields, structure cache and shadow generator.

Stateful methods are specified against pure functions, and the lemmas prove their properties about those functions.

## Model

| member | source | states |
|---|---|---|
| BiomeObjectArgument.QuoteName | platforms/forge/src/main/java/com/pg85/otg/forge/commands/arguments/BiomeObjectArgument.java:21 | a name containing a space comes back wrapped in one pair of double quotes around the unchanged name; any other name comes back unchanged |
| BiomeObjectArgument.SpacedSuggestionIsQuoted | platforms/forge/src/main/java/com/pg85/otg/forge/commands/arguments/BiomeObjectArgument.java:21 | every suggestion that contains a space starts and ends with a double quote |
| BiomeObjectArgument.QuoteNameInjective | platforms/forge/src/main/java/com/pg85/otg/forge/commands/arguments/BiomeObjectArgument.java:21 | quoting never maps two different names to the same suggestion |
| BiomeObjectArgument.QuoteNamesPointwise | platforms/forge/src/main/java/com/pg85/otg/forge/commands/arguments/BiomeObjectArgument.java:44 | the quoting map keeps the list's length and order, and quotes each element on its own |
| BiomeObjectArgument.SuggestionList | platforms/forge/src/main/java/com/pg85/otg/forge/commands/arguments/BiomeObjectArgument.java:35-44 | a preset equal to "global" ignoring case yields the quoted global names; any other preset yields its own quoted names; a missing list counts as empty |
| BiomeObjectArgument.GlobalIgnoresCase | platforms/forge/src/main/java/com/pg85/otg/forge/commands/arguments/BiomeObjectArgument.java:35 | "GLOBAL", "Global" and "global" all select the global list |
| BiomeObjectArgument.MissingListIsEmpty | platforms/forge/src/main/java/com/pg85/otg/forge/commands/arguments/BiomeObjectArgument.java:43 | a preset with no object list gets no suggestions |
| CommandExecutor.LessIrreflexive | platforms/spigot/src/main/java/com/pg85/otg/spigot/commands/OTGCommandExecutor.java:19 | the natural string order never puts a key before itself |
| CommandExecutor.LessTransitive | platforms/spigot/src/main/java/com/pg85/otg/spigot/commands/OTGCommandExecutor.java:19 | the natural string order is transitive |
| CommandExecutor.LessTotal | platforms/spigot/src/main/java/com/pg85/otg/spigot/commands/OTGCommandExecutor.java:19 | any two distinct keys are ordered one way or the other |
| CommandExecutor.LessAsymmetric | platforms/spigot/src/main/java/com/pg85/otg/spigot/commands/OTGCommandExecutor.java:19 | two keys are never each before the other |
| CommandExecutor.SortedUnique | platforms/spigot/src/main/java/com/pg85/otg/spigot/commands/OTGCommandExecutor.java:58 | two strictly sorted key lists with the same members are equal, so the key set determines the order of the list |
| CommandExecutor.Lookup | platforms/spigot/src/main/java/com/pg85/otg/spigot/commands/OTGCommandExecutor.java:46 | looking a key up in the table finds nothing exactly when the key is not registered |
| CommandExecutor.LookupAt | platforms/spigot/src/main/java/com/pg85/otg/spigot/commands/OTGCommandExecutor.java:46 | in a sorted table, every registered name finds its own command |
| CommandExecutor.PartialMatchesSpec | platforms/spigot/src/main/java/com/pg85/otg/spigot/commands/OTGCommandExecutor.java:63 | a name is offered exactly when it is a candidate that starts with the typed token, ignoring case; a sorted candidate list gives sorted matches |
| CommandExecutor.SortedNamesSorted | platforms/spigot/src/main/java/com/pg85/otg/spigot/commands/OTGCommandExecutor.java:19-32 | the ten command names listed in natural order are strictly sorted |
| CommandExecutor.Route | platforms/spigot/src/main/java/com/pg85/otg/spigot/commands/OTGCommandExecutor.java:39-44 | no tokens route to "help" with no arguments; otherwise the first token, lower-cased, is the command and the remaining tokens are its arguments |
| CommandExecutor.OtgCommandExecutor.Get | platforms/spigot/src/main/java/com/pg85/otg/spigot/commands/OTGCommandExecutor.java:46 | the table returns a command exactly for a registered key, and returns the command registered under it |
| CommandExecutor.OtgCommandExecutor.Put | platforms/spigot/src/main/java/com/pg85/otg/spigot/commands/OTGCommandExecutor.java:23-32 | putting a key keeps the sorted-table invariant and updates the map at that key only |
| CommandExecutor.OtgCommandExecutor.constructor | platforms/spigot/src/main/java/com/pg85/otg/spigot/commands/OTGCommandExecutor.java:21-33 | the new table maps exactly the ten names to their commands, with its key list in natural order |
| CommandExecutor.OtgCommandExecutor.OnCommand | platforms/spigot/src/main/java/com/pg85/otg/spigot/commands/OTGCommandExecutor.java:36-53 | a known routed command returns its own execute result; an unknown one runs nothing and returns true |
| CommandExecutor.OtgCommandExecutor.OnTabComplete | platforms/spigot/src/main/java/com/pg85/otg/spigot/commands/OTGCommandExecutor.java:56-73 | no arguments give every name; one argument gives the sorted names it prefixes, ignoring case; otherwise completion is delegated to the command named by the first argument as typed, and an unknown name gives an empty list |
| CommandExecutor.EmptyLineRunsHelp | platforms/spigot/src/main/java/com/pg85/otg/spigot/commands/OTGCommandExecutor.java:39-52 | an empty command line runs the help command with no arguments |
| CommandExecutor.UpperCaseWordIsLowered | platforms/spigot/src/main/java/com/pg85/otg/spigot/commands/OTGCommandExecutor.java:41-50 | "HELP x" runs help with the argument "x" |
| CommandExecutor.UnknownWordSucceeds | platforms/spigot/src/main/java/com/pg85/otg/spigot/commands/OTGCommandExecutor.java:46-52 | an unregistered word succeeds without running anything |
| CommandExecutor.CompleteE | platforms/spigot/src/main/java/com/pg85/otg/spigot/commands/OTGCommandExecutor.java:62-63 | the single argument "e" completes to exactly "edit" and "export" |
| ForgeBiome.SafeTemperature | platforms/forge/src/main/java/com/pg85/otg/forge/biome/ForgeBiome.java:91-96 | a temperature in [0.1, 0.2] becomes 0.1, any other is unchanged, so the result never lies in (0.1, 0.2] |
| ForgeBiome.SafeTemperatureIdempotent | platforms/forge/src/main/java/com/pg85/otg/forge/biome/ForgeBiome.java:91-96 | adjusting an adjusted temperature changes nothing |
| ForgeBiome.AmbienceOf | platforms/forge/src/main/java/com/pg85/otg/forge/biome/ForgeBiome.java:98-132 | fog 0 gives the defaults 12638463 and 329011, and any other fog colour is used for both; water 0xffffff gives 4159204; the unset sky colour is derived from the adjusted temperature; foliage is set iff it is not 0xffffff; grass is set iff it is not 0xffffff and not a multiplier |
| ForgeBiome.FogColorNeverZero | platforms/forge/src/main/java/com/pg85/otg/forge/biome/ForgeBiome.java:100-101 | the fog and water-fog colours of a built biome are never 0 |
| ForgeBiome.Precipitation | platforms/forge/src/main/java/com/pg85/otg/forge/biome/ForgeBiome.java:136-140 | no rain iff wetness ≤ 0.0001; else rain iff the configured temperature exceeds the snow-and-ice temperature; else snow |
| ForgeBiome.PrecipitationUsesConfiguredTemperature | platforms/forge/src/main/java/com/pg85/otg/forge/biome/ForgeBiome.java:136-140 | a wet biome at 0.15 rains even though its adjusted temperature 0.1 is at or below the snow threshold, because precipitation reads the unadjusted value |
| ForgeBiome.KnownSpawnersSpec | platforms/forge/src/main/java/com/pg85/otg/forge/biome/ForgeBiome.java:169-208 | each accepted spawner is in the list's category and carries the weight and group sizes of a group with a known entity; every skipped group has an unknown entity; accepted plus skipped equals the number of groups |
| ForgeBiome.KnownSpawnersSnoc | platforms/forge/src/main/java/com/pg85/otg/forge/biome/ForgeBiome.java:169-178 | adding one group at the end adds at most its spawner or its warning at the end |
| ForgeBiome.OfCategoryAppend | platforms/forge/src/main/java/com/pg85/otg/forge/biome/ForgeBiome.java:166-214 | filtering by category distributes over concatenation |
| ForgeBiome.OfCategoryKnown | platforms/forge/src/main/java/com/pg85/otg/forge/biome/ForgeBiome.java:169-208 | the spawners pushed from one list all fall in that list's category and in no other |
| ForgeBiome.SpawnersByCategory | platforms/forge/src/main/java/com/pg85/otg/forge/biome/ForgeBiome.java:166-214 | each of the four categories receives exactly the known spawners of its own config list |
| ForgeBiome.MobSpawnInfoBuilder.AddSpawn | platforms/forge/src/main/java/com/pg85/otg/forge/biome/ForgeBiome.java:174 | the builder gains the spawner at the end and nothing else changes |
| ForgeBiome.PushGroups | platforms/forge/src/main/java/com/pg85/otg/forge/biome/ForgeBiome.java:169-178 | the builder gains exactly the known spawners of the list, in order, and the unknown groups are warned about, in order |
| ForgeBiome.CreateMobSpawnInfo | platforms/forge/src/main/java/com/pg85/otg/forge/biome/ForgeBiome.java:166-214 | the builder holds monsters, creatures, water creatures and ambient creatures in that order, player spawning is enabled, and every unknown group is warned about |
| ForgeBiome.CountAppend | platforms/forge/src/main/java/com/pg85/otg/forge/biome/ForgeBiome.java:216-297 | the count of matching features is additive over concatenation |
| ForgeBiome.CountAtMostLength | platforms/forge/src/main/java/com/pg85/otg/forge/biome/ForgeBiome.java:216-297 | no more features match than were added |
| ForgeBiome.AtMostOneVillage | platforms/forge/src/main/java/com/pg85/otg/forge/biome/ForgeBiome.java:219-241 | at most one village feature is added, and none when villages are disabled |
| ForgeBiome.AtMostOneRareBuilding | platforms/forge/src/main/java/com/pg85/otg/forge/biome/ForgeBiome.java:256-274 | at most one rare-building feature is added, and none when rare buildings are disabled |
| ForgeBiome.AtMostOneMineshaft | platforms/forge/src/main/java/com/pg85/otg/forge/biome/ForgeBiome.java:287-297 | at most one mineshaft feature is added, and none when mineshafts are disabled |
| ForgeBiome.GenerationSettingsBuilder.AddStructure | platforms/forge/src/main/java/com/pg85/otg/forge/biome/ForgeBiome.java:223 | the builder gains the feature at the end and nothing else changes |
| ForgeBiome.GenerationSettingsBuilder.AddCarvers | platforms/forge/src/main/java/com/pg85/otg/forge/biome/ForgeBiome.java:345 | the builder gains the carver set at the end and nothing else changes |
| ForgeBiome.AddVillage | platforms/forge/src/main/java/com/pg85/otg/forge/biome/ForgeBiome.java:221-240 | the village type decides the one village feature pushed, and the carvers are untouched |
| ForgeBiome.AddRareBuilding | platforms/forge/src/main/java/com/pg85/otg/forge/biome/ForgeBiome.java:258-273 | the rare-building type decides the one feature pushed |
| ForgeBiome.AddMineshaft | platforms/forge/src/main/java/com/pg85/otg/forge/biome/ForgeBiome.java:289-296 | the mineshaft type decides the one feature pushed |
| ForgeBiome.AddDefaultStructures | platforms/forge/src/main/java/com/pg85/otg/forge/biome/ForgeBiome.java:216-297 | the builder gains exactly the config's default structures in source order: village, stronghold, monument, rare building, mansion, fortress, mineshaft |
| ForgeBiome.AddCarvers | platforms/forge/src/main/java/com/pg85/otg/forge/biome/ForgeBiome.java:339-348 | the default caves and canyons are added iff cave frequency and cave rarity are both positive |
| ForgeBiome.CreateOtgBiome | platforms/forge/src/main/java/com/pg85/otg/forge/biome/ForgeBiome.java:75-164 | the built biome has the chosen precipitation, the adjusted temperature, the configured downfall, depth and scale, the derived ambience, the known spawners with player spawning, the no-op surface builder, the default structures, and carvers iff caves are enabled |
| PlantGen.ReadInt | common/src/main/java/com/khorn/terraincontrol/generator/resourcegens/PlantGen.java:41-44 | an unparsable number is a load error naming the text; a parsed number below the lower bound becomes the lower bound, one above the upper bound (and not below the lower) becomes the upper bound, and one inside the bounds is kept |
| PlantGen.ReadBlockIdsSpec | common/src/main/java/com/khorn/terraincontrol/generator/resourcegens/PlantGen.java:45-49 | reading the source blocks succeeds iff every argument names a block, and then the i-th id is the i-th argument's block |
| PlantGen.ReadBlockIdsAppend | common/src/main/java/com/khorn/terraincontrol/generator/resourcegens/PlantGen.java:46-49 | reading a concatenation reads the first part and then continues with the second |
| PlantGen.ReadBlockIdsStep | common/src/main/java/com/khorn/terraincontrol/generator/resourcegens/PlantGen.java:46-49 | one more readable argument appends its id; an unreadable one makes the whole read fail naming that argument |
| PlantGen.ReadBlockIdsHead | common/src/main/java/com/khorn/terraincontrol/generator/resourcegens/PlantGen.java:48 | a read fails at its first unreadable argument |
| PlantGen.ParseBounds | common/src/main/java/com/khorn/terraincontrol/generator/resourcegens/PlantGen.java:37-49 | a successful load had at least six arguments, frequency in [1, 100], minimum altitude in [0, 256], maximum above the minimum when the minimum is below 256, and source blocks that are exactly the blocks of arguments 5 onwards, in order |
| PlantGen.ParseAtWorldHeight | common/src/main/java/com/khorn/terraincontrol/generator/resourcegens/PlantGen.java:43-44 | a minimum altitude of 256 with a larger maximum leaves the two altitudes equal |
| PlantGen.ParseNeedsSix | common/src/main/java/com/khorn/terraincontrol/generator/resourcegens/PlantGen.java:37 | fewer than six arguments fail before anything is read |
| PlantGen.SourceTexts | common/src/main/java/com/khorn/terraincontrol/generator/resourcegens/PlantGen.java:55 | the source list is written one material name per id, in order |
| PlantGen.SourceTextJoin | common/src/main/java/com/khorn/terraincontrol/generator/resourcegens/PlantGen.java:55 | the source suffix is the comma-join of the written source names |
| PlantGen.MakeStringJoinsArgs | common/src/main/java/com/khorn/terraincontrol/generator/resourcegens/PlantGen.java:55 | the string is "Plant(" + the comma-joined fields in load order + ")" |
| PlantGen.ReadSourceTexts | common/src/main/java/com/khorn/terraincontrol/generator/resourcegens/PlantGen.java:45-49 | reading back the written source names gives the original ids |
| PlantGen.MakeStringRoundTrip | common/src/main/java/com/khorn/terraincontrol/generator/resourcegens/PlantGen.java:37-55 | for an in-bounds plant whose material names read back, splitting the serialised fields on commas and loading them gives the same plant |
| PlantGen.IsAnalogousTo | common/src/main/java/com/khorn/terraincontrol/generator/resourcegens/PlantGen.java:61 | true iff the other resource is a plant with the same block id and block data |
| PlantGen.Equals | common/src/main/java/com/khorn/terraincontrol/generator/resourcegens/PlantGen.java:76-91 | true iff the superclass agrees and the other is a plant with the same altitudes and source blocks |
| PlantGen.ListHash | common/src/main/java/com/khorn/terraincontrol/generator/resourcegens/PlantGen.java:71 | the list hash is a 32-bit int |
| PlantGen.HashCode | common/src/main/java/com/khorn/terraincontrol/generator/resourcegens/PlantGen.java:65-73 | the hash is a 32-bit int |
| PlantGen.EqualsImpliesSameHash | common/src/main/java/com/khorn/terraincontrol/generator/resourcegens/PlantGen.java:65-91 | equal plants hash equally |
| PlantGen.World.TypeId | common/src/main/java/com/khorn/terraincontrol/generator/resourcegens/PlantGen.java:27 | the type id read is that of the block in the cell |
| PlantGen.World.SetBlock | common/src/main/java/com/khorn/terraincontrol/generator/resourcegens/PlantGen.java:30 | only the given cell changes, to the given block |
| PlantGen.NextInt | common/src/main/java/com/khorn/terraincontrol/generator/resourcegens/PlantGen.java:20-26 | a bounded draw lies in [0, bound) |
| PlantGen.BaseY | common/src/main/java/com/khorn/terraincontrol/generator/resourcegens/PlantGen.java:20 | the base height lies in [minAltitude, maxAltitude) |
| PlantGen.AttemptPos | common/src/main/java/com/khorn/terraincontrol/generator/resourcegens/PlantGen.java:24-26 | every attempt lies within x±7, y±3, z±7 of the base position |
| PlantGen.AttemptSet | common/src/main/java/com/khorn/terraincontrol/generator/resourcegens/PlantGen.java:22-26 | n attempts visit at most n positions, and visit every attempt's position |
| PlantGen.AfterAttemptsChanges | common/src/main/java/com/khorn/terraincontrol/generator/resourcegens/PlantGen.java:22-31 | a cell changes only when it is an attempted position, and it then holds the plant |
| PlantGen.SpawnChangesAtMost64 | common/src/main/java/com/khorn/terraincontrol/generator/resourcegens/PlantGen.java:22-31 | a spawn changes at most 64 cells, each within the attempt window and holding the plant |
| PlantGen.AttemptSetWindow | common/src/main/java/com/khorn/terraincontrol/generator/resourcegens/PlantGen.java:24-26 | every attempted position lies in the attempt window |
| PlantGen.PlantGen.constructor | common/src/main/java/com/khorn/terraincontrol/generator/resourcegens/PlantGen.java:11-15 | a new resource has no source blocks and zero fields |
| PlantGen.PlantGen.Load | common/src/main/java/com/khorn/terraincontrol/generator/resourcegens/PlantGen.java:35-50 | loading returns the parse of the arguments, and on success the fields hold the parsed plant |
| PlantGen.PlantGen.Spawn | common/src/main/java/com/khorn/terraincontrol/generator/resourcegens/PlantGen.java:18-32 | an empty altitude range fails without touching the world; otherwise the world becomes the result of the 64 attempts from the drawn base height |
| PlantGen.PlantGen.Attempt | common/src/main/java/com/khorn/terraincontrol/generator/resourcegens/PlantGen.java:24-30 | one attempt places the plant iff the target is empty and the block below is a source block, and otherwise changes nothing |
| SpigotMaterialData.RotateDir | platforms/spigot/src/main/java/com/pg85/otg/spigot/materials/SpigotMaterialData.java:177-195 | NORTH→WEST, WEST→SOUTH, SOUTH→EAST, EAST→NORTH, UP and DOWN unchanged |
| SpigotMaterialData.RotateDirFourTimes | platforms/spigot/src/main/java/com/pg85/otg/spigot/materials/SpigotMaterialData.java:177-195 | four turns restore the facing |
| SpigotMaterialData.RotateProps | platforms/spigot/src/main/java/com/pg85/otg/spigot/materials/SpigotMaterialData.java:172-197 | each property is rotated on its own, keeping the property count |
| SpigotMaterialData.ConnectionsFollowFacing | platforms/spigot/src/main/java/com/pg85/otg/spigot/materials/SpigotMaterialData.java:199-207 | a connection on side d before the turn is on the turned side after it, so fences turn with facings |
| SpigotMaterialData.RotateFourTimes | platforms/spigot/src/main/java/com/pg85/otg/spigot/materials/SpigotMaterialData.java:167-216 | four rotations restore the block state |
| SpigotMaterialData.RotateKeepsBlock | platforms/spigot/src/main/java/com/pg85/otg/spigot/materials/SpigotMaterialData.java:167-216 | rotation never changes the block, material, falling flag or property count |
| SpigotMaterialData.RotateState | platforms/spigot/src/main/java/com/pg85/otg/spigot/materials/SpigotMaterialData.java:169-207 | the property loop and the fence step together perform one rotation |
| SpigotMaterialData.RotatePropsAppend | platforms/spigot/src/main/java/com/pg85/otg/spigot/materials/SpigotMaterialData.java:172-197 | rotating properties distributes over concatenation |
| SpigotMaterialData.RemoveAll | platforms/spigot/src/main/java/com/pg85/otg/spigot/materials/SpigotMaterialData.java:96-97 | removing a pattern never lengthens the text |
| SpigotMaterialData.RemoveAllSingle | platforms/spigot/src/main/java/com/pg85/otg/spigot/materials/SpigotMaterialData.java:97 | removing a character leaves none of it, and changes nothing when it is absent |
| SpigotMaterialData.RemoveAllAbsent | platforms/spigot/src/main/java/com/pg85/otg/spigot/materials/SpigotMaterialData.java:96 | removing a pattern that never occurs changes nothing |
| SpigotMaterialData.StateName | platforms/spigot/src/main/java/com/pg85/otg/spigot/materials/SpigotMaterialData.java:95-97 | a state's name contains no closing brace |
| SpigotMaterialData.NameOf | platforms/spigot/src/main/java/com/pg85/otg/spigot/materials/SpigotMaterialData.java:82-98 | "BLANK" for blank, the raw entry or "Unknown" for a null state, otherwise a name with no closing brace |
| SpigotMaterialData.StateNameOfPlainBlock | platforms/spigot/src/main/java/com/pg85/otg/spigot/materials/SpigotMaterialData.java:95-97 | "Block{id}" is named id |
| SpigotMaterialData.RemoveAllAfterLastBrace | platforms/spigot/src/main/java/com/pg85/otg/spigot/materials/SpigotMaterialData.java:97 | removing braces from id + "}" gives id when id has none |
| SpigotMaterialData.MaterialData.constructor | platforms/spigot/src/main/java/com/pg85/otg/spigot/materials/SpigotMaterialData.java:32-37 | a new object holds the given state, raw entry and blank flag, with no cached name or rotation |
| SpigotMaterialData.MaterialData.GetName | platforms/spigot/src/main/java/com/pg85/otg/spigot/materials/SpigotMaterialData.java:76-100 | the first call computes the name and caches it; later calls return the cached name |
| SpigotMaterialData.MaterialData.Rotate | platforms/spigot/src/main/java/com/pg85/otg/spigot/materials/SpigotMaterialData.java:164-217 | a null state fails; otherwise the result is the table entry for the state rotated max(times, 1) times, one turn returns the cached rotation, earlier cached rotations and all names are kept, and no table entry changes |
| SpigotMaterialData.MaterialData.CacheRotation | platforms/spigot/src/main/java/com/pg85/otg/spigot/materials/SpigotMaterialData.java:167-210 | the first rotation interns the quarter-turned state, stores it as the cached rotation and keeps the name and every earlier table entry |
| SpigotMaterialData.MaterialData.WithProperty | platforms/spigot/src/main/java/com/pg85/otg/spigot/materials/SpigotMaterialData.java:221-250 | any property other than the four handled fails with an illegal argument; otherwise the result is the table entry for the state with that property set |
| SpigotMaterialData.MaterialData.HashCode | platforms/spigot/src/main/java/com/pg85/otg/spigot/materials/SpigotMaterialData.java:279-284 | a null state hashes to -1 |
| SpigotMaterialData.SetProps | platforms/spigot/src/main/java/com/pg85/otg/spigot/materials/SpigotMaterialData.java:243-249 | setting a property keeps the property count |
| SpigotMaterialData.SetPropsSpec | platforms/spigot/src/main/java/com/pg85/otg/spigot/materials/SpigotMaterialData.java:243-249 | a property can be set iff the state has one with that name; then only that property takes the new value and the names are kept |
| SpigotMaterialData.Registry.constructor | platforms/spigot/src/main/java/com/pg85/otg/spigot/materials/SpigotMaterialData.java:21-22 | the registry starts with an empty table |
| SpigotMaterialData.Registry.OfBlockData | platforms/spigot/src/main/java/com/pg85/otg/spigot/materials/SpigotMaterialData.java:44-54 | a known state returns its existing object and changes nothing; a new state gets a fresh object with the given raw entry, added to the table |
| SpigotMaterialData.InternTwice | platforms/spigot/src/main/java/com/pg85/otg/spigot/materials/SpigotMaterialData.java:44-54 | interning one state twice returns the same object and adds at most one entry, whatever the raw entries |
| SpigotMaterialData.RotateIsCached | platforms/spigot/src/main/java/com/pg85/otg/spigot/materials/SpigotMaterialData.java:164-217 | two quarter turns of one wrapper give the same object, its cached rotation |
| SpigotMaterialData.PredicatesOfNullState | platforms/spigot/src/main/java/com/pg85/otg/spigot/materials/SpigotMaterialData.java:102-148 | isEmptyOrAir is isEmpty or isAir; isSolid and canSnowFallOn agree; a null state is empty, and neither liquid, solid, falling nor air; air is neither liquid nor solid |
| SpigotMaterialData.EqualsOfBlank | platforms/spigot/src/main/java/com/pg85/otg/spigot/materials/SpigotMaterialData.java:270-276 | blank equals blank, and blank never equals non-blank in either direction |
| SpigotMaterialData.EqualsSymmetricAndHashed | platforms/spigot/src/main/java/com/pg85/otg/spigot/materials/SpigotMaterialData.java:259-284 | equality is symmetric, and equal objects hash equally |
| SpigotMaterialData.EqualsAsWrittenThrows | platforms/spigot/src/main/java/com/pg85/otg/spigot/materials/SpigotMaterialData.java:270-276 | a non-blank object with a null state, compared with a non-blank object with a state, throws; the corrected equality answers false |
| SpigotMaterialData.EqualsAgreesWhereDefined | platforms/spigot/src/main/java/com/pg85/otg/spigot/materials/SpigotMaterialData.java:259-276 | wherever the equality as written answers, the corrected one gives the same answer |
| NoiseChunkGenerator.PieceStructuresSpec | platforms/forge/src/main/java/com/pg85/otg/forge/gen/OTGNoiseChunkGenerator.java:332-351 | a rigid pool piece adds one rigid entry with its ground-level delta; a non-rigid pool piece adds none; any other piece adds one non-rigid entry with delta 0 |
| NoiseChunkGenerator.KeptJunctionsSpec | platforms/forge/src/main/java/com/pg85/otg/forge/gen/OTGNoiseChunkGenerator.java:341-348 | a junction is kept iff its source lies strictly between start−12 and start+27 in both X and Z |
| NoiseChunkGenerator.PiecesStructuresSpec | platforms/forge/src/main/java/com/pg85/otg/forge/gen/OTGNoiseChunkGenerator.java:329-355 | an entry is collected iff some close piece contributes it |
| NoiseChunkGenerator.PiecesJunctionsSpec | platforms/forge/src/main/java/com/pg85/otg/forge/gen/OTGNoiseChunkGenerator.java:330-353 | a junction entry is collected iff some close pool piece, rigid or not, keeps it |
| NoiseChunkGenerator.ObjectList.Add | platforms/forge/src/main/java/com/pg85/otg/forge/gen/OTGNoiseChunkGenerator.java:337 | the list only grows, by the new entry at the end |
| NoiseChunkGenerator.AddJunctions | platforms/forge/src/main/java/com/pg85/otg/forge/gen/OTGNoiseChunkGenerator.java:341-348 | the junction list gains exactly the kept junctions, in order |
| NoiseChunkGenerator.AddPiece | platforms/forge/src/main/java/com/pg85/otg/forge/gen/OTGNoiseChunkGenerator.java:332-352 | each list gains exactly the piece's entries |
| NoiseChunkGenerator.AddPieces | platforms/forge/src/main/java/com/pg85/otg/forge/gen/OTGNoiseChunkGenerator.java:330-353 | each list gains exactly the entries of the close pieces, in order |
| NoiseChunkGenerator.FindNoiseStructures | platforms/forge/src/main/java/com/pg85/otg/forge/gen/OTGNoiseChunkGenerator.java:320-356 | both lists are append-only, and gain the entries of all structure starts with the junction window at the chunk's block origin |
| NoiseChunkGenerator.GetBlockState | platforms/forge/src/main/java/com/pg85/otg/forge/gen/OTGNoiseChunkGenerator.java:787-799 | positive density gives the default block whatever y is; otherwise the default fluid iff y is below sea level, and air iff it is not |
| NoiseChunkGenerator.AirAboveFluid | platforms/forge/src/main/java/com/pg85/otg/forge/gen/OTGNoiseChunkGenerator.java:787-799 | in an empty region, air stays air going up and fluid stays fluid going down |
| NoiseChunkGenerator.Highest | platforms/forge/src/main/java/com/pg85/otg/forge/gen/OTGNoiseChunkGenerator.java:745-784 | the result is one above the highest accepted state, or 0 when none is |
| NoiseChunkGenerator.HighestIs | platforms/forge/src/main/java/com/pg85/otg/forge/gen/OTGNoiseChunkGenerator.java:745-784 | an accepted state with nothing accepted above it determines the scan result |
| NoiseChunkGenerator.SampleCell | platforms/forge/src/main/java/com/pg85/otg/forge/gen/OTGNoiseChunkGenerator.java:760-781 | scanning one cell top-down either finds the highest accepted height in it, or leaves every state from its bottom up unaccepted, writing each visited state |
| NoiseChunkGenerator.SampleHeightmap | platforms/forge/src/main/java/com/pg85/otg/forge/gen/OTGNoiseChunkGenerator.java:704-785 | without a predicate the result is 0; with one it is one above the highest accepted y; the output array holds the state of every visited y and is unchanged below the stop |
| NoiseChunkGenerator.CellRangeSpec | platforms/forge/src/main/java/com/pg85/otg/forge/gen/OTGNoiseChunkGenerator.java:667-696 | the clamped range lies within both the noise range and the build range, the cell indices bracket it by floor division, and the cell count is positive iff the range spans a cell |
| NoiseChunkGenerator.CountPositive | platforms/forge/src/main/java/com/pg85/otg/forge/gen/OTGNoiseChunkGenerator.java:672-677 | a floor-divided count is positive iff the span reaches one cell |
| NoiseChunkGenerator.GetBaseHeight | platforms/forge/src/main/java/com/pg85/otg/forge/gen/OTGNoiseChunkGenerator.java:667-678 | a range with no whole cell gives the minimum build height; otherwise the result is one above the highest y the heightmap accepts |
| NoiseChunkGenerator.GetBaseColumn | platforms/forge/src/main/java/com/pg85/otg/forge/gen/OTGNoiseChunkGenerator.java:681-696 | the column described below, or an index error when the array is too short for the scan |
| NoiseChunkGenerator.WritableAreaIsChunk | platforms/forge/src/main/java/com/pg85/otg/forge/gen/OTGNoiseChunkGenerator.java:631-640 | a position is writable iff it lies in the chunk's 16×16 columns and strictly between the build limits |
| NoiseChunkGenerator.CarverFlags | platforms/forge/src/main/java/com/pg85/otg/forge/gen/OTGNoiseChunkGenerator.java:413-426 | the caves flag is set iff some key is a default cave carver; the ravines flag is set iff some key is a default canyon carver |
| NoiseChunkGenerator.ApplyCarvers | platforms/forge/src/main/java/com/pg85/otg/forge/gen/OTGNoiseChunkGenerator.java:402-451 | the outcome is described below |
| NoiseChunkGenerator.PlacementOf | platforms/forge/src/main/java/com/pg85/otg/forge/gen/OTGNoiseChunkGenerator.java:244-266 | only strongholds use concentric rings; buried treasure is offset by (9, 0, 9); exactly monuments, end cities and mansions spread triangularly |
| NoiseChunkGenerator.GatedSetsSpec | platforms/forge/src/main/java/com/pg85/otg/forge/gen/OTGNoiseChunkGenerator.java:198-242 | a set is selected iff its structure is enabled, and it then carries its own placement |
| NoiseChunkGenerator.GateIndex | platforms/forge/src/main/java/com/pg85/otg/forge/gen/OTGNoiseChunkGenerator.java:198-242 | every structure type is gated somewhere in the source's list |
| NoiseChunkGenerator.EnabledStructuresSpec | platforms/forge/src/main/java/com/pg85/otg/forge/gen/OTGNoiseChunkGenerator.java:198-242 | a structure's set is selected iff the config enables it, and every selected set is enabled and has its type's placement |
| NoiseChunkGenerator.FirstMatching | platforms/forge/src/main/java/com/pg85/otg/forge/gen/OTGNoiseChunkGenerator.java:919-944 | the first dimension with the preset folder is chosen; none is chosen when no dimension has it |
| NoiseChunkGenerator.ReadPortalBlocksSpec | platforms/forge/src/main/java/com/pg85/otg/forge/gen/OTGNoiseChunkGenerator.java:925-937 | the blocks read are at most the pieces, and a block is read iff some trimmed piece names it |
| NoiseChunkGenerator.ReadPortalBlocksLength | platforms/forge/src/main/java/com/pg85/otg/forge/gen/OTGNoiseChunkGenerator.java:925-937 | at most one block is read per piece |
| NoiseChunkGenerator.ReadPortalBlocksSound | platforms/forge/src/main/java/com/pg85/otg/forge/gen/OTGNoiseChunkGenerator.java:925-937 | every block read is named by some trimmed piece |
| NoiseChunkGenerator.ReadPortalBlocksComplete | platforms/forge/src/main/java/com/pg85/otg/forge/gen/OTGNoiseChunkGenerator.java:925-937 | every trimmed piece that names a material contributes that block |
| NoiseChunkGenerator.ResolvePortalWithoutDimension | platforms/forge/src/main/java/com/pg85/otg/forge/gen/OTGNoiseChunkGenerator.java:911-964 | with no matching dimension every portal setting is the world's |
| NoiseChunkGenerator.ResolvePortalFromDimension | platforms/forge/src/main/java/com/pg85/otg/forge/gen/OTGNoiseChunkGenerator.java:911-964 | the first matching dimension's colour, mob and ignition source win when set, and its blocks win when at least one is readable |
| NoiseChunkGenerator.PortalConfig.constructor | platforms/forge/src/main/java/com/pg85/otg/forge/gen/OTGNoiseChunkGenerator.java:136-140 | the portal data starts unprocessed |
| NoiseChunkGenerator.PortalConfig.ReadDimensionBlocks | platforms/forge/src/main/java/com/pg85/otg/forge/gen/OTGNoiseChunkGenerator.java:923-939 | the blocks are the readable trimmed pieces of the comma-split list |
| NoiseChunkGenerator.PortalConfig.ProcessDimensionConfigData | platforms/forge/src/main/java/com/pg85/otg/forge/gen/OTGNoiseChunkGenerator.java:911-964 | after the first call the data is processed and consistent with the resolution; later calls change nothing |
| NoiseChunkGenerator.PortalConfig.GetPortalColor | platforms/forge/src/main/java/com/pg85/otg/forge/gen/OTGNoiseChunkGenerator.java:887-891 | the colour of the resolution, processing the data first if needed |
| NoiseChunkGenerator.PortalConfig.GetPortalMob | platforms/forge/src/main/java/com/pg85/otg/forge/gen/OTGNoiseChunkGenerator.java:893-897 | the mob of the resolution |
| NoiseChunkGenerator.PortalConfig.GetPortalIgnitionSource | platforms/forge/src/main/java/com/pg85/otg/forge/gen/OTGNoiseChunkGenerator.java:899-903 | the ignition source of the resolution |
| NoiseChunkGenerator.PortalConfig.GetPortalBlocks | platforms/forge/src/main/java/com/pg85/otg/forge/gen/OTGNoiseChunkGenerator.java:905-909 | the blocks of the resolution |
| NoiseChunkGenerator.StructureCacheHolder.GetStructureCache | platforms/forge/src/main/java/com/pg85/otg/forge/gen/OTGNoiseChunkGenerator.java:843-850 | the first call creates the cache for the preset, save folder, seed and BO4 flag; later calls return that same cache |
| NoiseChunkGenerator.StructureCacheHolder.SaveStructureCache | platforms/forge/src/main/java/com/pg85/otg/forge/gen/OTGNoiseChunkGenerator.java:273-279 | the cache is appended to the save history iff saving is required and a cache exists; the held cache does not change |
| NoiseChunkGenerator.SavesFirstFolder | platforms/forge/src/main/java/com/pg85/otg/forge/gen/OTGNoiseChunkGenerator.java:273-279 | a save before the first request writes nothing, and a later save writes the cache made for the first request's folder, not a later one |
| NoiseChunkGenerator.ShadowGenerator.QueueChunksForWorkerThreads | platforms/forge/src/main/java/com/pg85/otg/forge/gen/OTGNoiseChunkGenerator.java:299 | the call is recorded for the chunk, asking the shadow generator to queue the chunks cached in that chunk's region; the generated chunks are unchanged |
| NoiseChunkGenerator.ShadowGenerator.SetChunkGenerated | platforms/forge/src/main/java/com/pg85/otg/forge/gen/OTGNoiseChunkGenerator.java:317 | the chunk is recorded as generated at the end |
| NoiseChunkGenerator.BuildNoise | platforms/forge/src/main/java/com/pg85/otg/forge/gen/OTGNoiseChunkGenerator.java:291-319 | every call asks the shadow generator, once, to queue the chunks cached in the chunk's region; a cached chunk is taken from the shadow generator; any other chunk is built from freshly scanned structures and junctions and then recorded as generated |

The `GetBaseColumn` row, in full:
- a range with no whole cell gives an empty column based at the minimum generation height;
- a cell array shorter than the scan fails at index noiseSizeY·8−1;
- otherwise the column has base 0 and length count·cellHeight, with the sampled states up to the scan height and empty cells above.

The `ApplyCarvers` row, in full:
- outside the air stage nothing happens;
- in the air stage:
  - with no default carver nothing is carved;
  - when the carving mask is available the flags are carved;
  - when it is not, nothing is carved and the failure is reported only when main logging is on.

## Left out

- I/O and logging: writing the structure cache to disk (a save is recorded in a history instead), the warning log, chat output and the crash report are left out. The warnings of `ForgeBiome.PushGroups` are returned as a list, and the log decision of `ApplyCarvers` as a flag.
- The host registries and builders (`EntityType.byKey`, `BlockState.toString`, the vanilla biome and feature builders, the `Biome.Category` fixed to PLAINS, the registry name) are parameters or lists of pushed values.
- `java.util.Random` is a supplied stream `rand: nat -> int`; the model gives each attempt six fixed draws in source order.
- Floating point: density is an abstract function of (noiseY, pieceY) instead of the `lerp3` interpolation; temperature and wetness are reals; the sky colour `getSkyColorForTemp`/`hsvToRGB` is a parameter.
- `applyBiomeDecoration`, `spawnOriginalMobs`, `CODEC`, `buildSurface` and `fillFromNoise` are host integration and are not part of this model.
- The shadow chunk generator's internals and worker threads are not part of this model. `NoiseChunkGenerator.BuildNoise` records only the chunk each queue request is made for and the chunks it marks. Which cached chunks of the region a request queues, and the chunk population itself, are out.
- `applyNonOTGCarvers` is a no-op in the source. The reflection that fetches the carving mask in `applyCarvers` is a boolean parameter, and only its outcome (available or not) is modelled.
- The structure-start lookup and `isCloseToChunk` of `findNoiseStructures` are parameters.
- NoiseChunkGenerator.FindNoiseStructures: the chunk's block origin `chunkX << 4` is `chunkX * 16`, without 32-bit wrap.
- NoiseChunkGenerator.GetBaseHeight: requires a positive cell height. Noise settings always have one, and division by zero is not modelled. The same holds for `GetBaseColumn` and `CellRangeSpec`.
- NoiseChunkGenerator.SampleHeightmap: requires an output array of at least noiseSizeY·8 cells. The source never checks this.
- NoiseChunkGenerator.PortalConfig.ProcessDimensionConfigData: a null dimension list inside the dimension config is not modelled; the config is either absent or a list. The material reader is a parameter whose exception is modelled as "unreadable".
- SpigotMaterialData: `isMaterial`, `toSpigotBlockData`, `isBlockTag`, `ofSpigotMaterial` and `internalBlock` pass through to the server's block API and are not part of this model.
- SpigotMaterialData.MaterialData.WithProperty: the server's check that a value lies in the property's range is not modelled. Any value is accepted once the property exists on the state.
- SpigotMaterialData.MaterialData.WithProperty: the direction ordinal conversion is the identity. The two enums share their order.
- SpigotMaterialData.RotateState: fence connections are a separate field of the state, not four boolean properties.
- PlantGen: `Resource.readInt`, `readBlockId`, `readBlockData`, `readRarity`, `makeMaterial` and `assureSize` are not shown. They are an abstract codec; `readInt` is taken to parse and then clamp.
- PlantGen.ParseBounds: maximum > minimum is proved only when the minimum is below 256. With minimum 256 the clamp range [257, 256] is empty, and `ParseAtWorldHeight` shows the two altitudes then coincide.
- PlantGen.PlantGen.Load: the fields assigned before a failing argument stay set in the source. The model promises the state only after a successful load.
- PlantGen.PlantGen.Spawn: requires source blocks to be present. With `sourceBlocks` still null, before any load, the source throws.
- CommandExecutor: Java's `toLowerCase` and Bukkit's `copyPartialMatches` are modelled with ASCII case folding only.
- BiomeObjectArgument: `parse` delegates to the host's string reader and is not part of this model.
- ForgeBiome.CreateOtgBiome: it states only the number of warnings. `ForgeBiome.CreateMobSpawnInfo` states the warnings themselves.
- The snow-and-ice temperature constant lives in a file that is not part of this model and is a parameter.

## Findings

| source | as written | input that shows it | evidently intended | confidence | as-written member | corrected member |
|---|---|---|---|---|---|---|
| platforms/spigot/src/main/java/com/pg85/otg/spigot/materials/SpigotMaterialData.java:270-276 | `equals` calls `this.blockData.equals(...)` whenever both objects are non-blank, dereferencing a null block state | a non-blank object made by `ofBlockData(null, raw)` compared with a non-blank object that has a state | null-safe comparison of the states (`Objects.equals`), answering false | not executed | SpigotMaterialData.MaterialData.EqualsAsWritten (shown by SpigotMaterialData.EqualsAsWrittenThrows) | SpigotMaterialData.MaterialData.Equals |
