# Location Info Lister — a Dafny model

The Location Info Lister is a Daggerfall Unity mod with two console commands.
Each one walks the game's 62 map regions and writes one text report per
region.

- `getdunginfo` is the dungeon pipeline. A region is reported when it has
  dungeons (keeps, labyrinths, ruins, graveyards). Its report lists:
  - each dungeon's name, its display type ("Forgotten Cemetery" for an
    undiscovered cemetery) and its size;
  - one line per dungeon block, with the block's X and Z;
  - a breakdown of how many times each block name occurs in the region. The
    breakdown is sorted by descending count, and equal counts keep the order
    in which the names were first met.
- `getcityinfo` is the settlement pipeline. A region is reported when it has
  settlements (cities, hamlets, villages, temples, taverns). A settlement is
  written only when all of these hold:
  - it is not a large city;
  - it has a building the exclusion rule keeps;
  - it has a bank, a Dark Brotherhood house and a Mages Guild hall.

  A written settlement shows its name, its type, its raw building count, and
  each kept building's generated name, type name and quality.

The model keeps the program's structure:

- `World` holds the map data.
- `Text` renders integers the way C# interpolation does.
- `Tables` holds the classifiers, the display-name tables and the building
  exclusion rule, as pure functions.
- `Scan` holds the region scan and the per-region location collectors. These
  are loops, modelled as methods proved against specification functions.
- `Tally` holds the block-counting dictionary. It is a class with `Add` and
  `Clear` methods. The breakdown sort is a stable sort.
- `DungeonReport` and `CityReport` hold the two commands. Each is written
  twice:
  - as methods with the source's loops;
  - as functions giving the exact lines of every report.

  The methods are proved equal to the functions. The functions are then
  proved to have the properties the program promises.

Each report is modelled as a region name with a sequence of lines, in place
of a file.

The exclusion rule, as written, behaves in ways a reader may not expect, and
the model keeps them:

- It excludes the shop types: alchemist, armorer, bookseller,
  clothing, furniture, gem and general stores, library, weaponsmith, tavern,
  palace and temple. It does not keep them.
- A `House2` belonging to any faction other than the Dark Brotherhood is
  excluded, not only one belonging to the Thieves Guild.
- Building types the rule's switch does not list fall to its default, and
  are kept (`UnlistedBuildingType`). They are not excluded.
- The block dictionary is cleared after each region's report, and it
  starts empty, so every region's counts start from zero.

## Model

| member | source | states |
|---|---|---|
| Tables.IsDungeonLocationType | Scripts/LocationInfoListerMain.cs:210-223 | keeps, labyrinths, ruins and graveyards are the dungeon types; `Tables.ClassifiersDisjoint` and `Scan.MatchingIndicesExact` state what it selects |
| Tables.IsCityLocationType | Scripts/LocationInfoListerMain.cs:400-412 | cities, hamlets, villages, temples and taverns are the settlement types; `Tables.GetCityTypeName` states it is exactly the set of types with a name other than "None" |
| Tables.ClassifiersDisjoint | Scripts/LocationInfoListerMain.cs:210-223 | no location type is both a dungeon type and a settlement type |
| Tables.GetDungeonTypeName | Scripts/LocationInfoListerMain.cs:225-252 | the name is "None" exactly for an unlisted dungeon type; a cemetery is "Cemetery" exactly when discovered and "Forgotten Cemetery" exactly when not |
| Tables.DungeonTypeNameRoundTrip | Scripts/LocationInfoListerMain.cs:225-252 | every listed dungeon type reads back from its display name, so the 19 names are distinct, and "None" reads back as no type |
| Tables.DiscoveredOnlyNamesCemetery | Scripts/LocationInfoListerMain.cs:225-252 | the discovered flag changes the name of a cemetery only |
| Tables.GetCityTypeName | Scripts/LocationInfoListerMain.cs:414-425 | the name is not "None" exactly for the settlement types, and it is "City (Large)" exactly for a large city |
| Tables.CityTypeNameRoundTrip | Scripts/LocationInfoListerMain.cs:414-425 | every settlement type reads back from its display name |
| Tables.OwnedByKnightlyOrder | Scripts/LocationInfoListerMain.cs:512-530 | the knightly-order test; `Tables.KnightlyOrderMembership` states it holds for exactly the ten orders |
| Tables.KnightlyOrderMembership | Scripts/LocationInfoListerMain.cs:512-530 | a faction is a knightly order exactly when it is one of the ten orders, and an order is neither the Mages nor the Fighters Guild |
| Tables.FilterOut | Scripts/LocationInfoListerMain.cs:427-473 | the exclusion rule; `Tables.FilterOutKeeps` states exactly which buildings it keeps |
| Tables.FilterOutKeeps | Scripts/LocationInfoListerMain.cs:427-473 | a building is kept exactly when it is a bank, a pawn shop, a Dark Brotherhood `House2`, a Mages Guild hall or of an unlisted type |
| Tables.GetBuildingTypeName | Scripts/LocationInfoListerMain.cs:475-510 | the building type display names; `Tables.BuildingTypeNameMeaning` states when each faction-dependent name and "None" are given |
| Tables.BuildingTypeNameMeaning | Scripts/LocationInfoListerMain.cs:475-510 | each faction-dependent name is given exactly when its type and faction match, in the order the source tests them: Thieves/Dark Brotherhood guildhall or "House" for `House2`; Mages, Fighters, knightly order or plain "Guildhall" for `GuildHall`; "None" exactly for unnamed types |
| Tables.KeptBuildingTypeNames | Scripts/LocationInfoListerMain.cs:427-510 | a kept building is named "Bank", "Pawn Shop", "Dark Brotherhood Guildhall", "Mages Guildhall" or "None", and "None" exactly when its type is unlisted |
| Text.LabelledNumberReadsBack | Scripts/LocationInfoListerMain.cs:147 | a number written after a label reads back from the text after the label |
| Text.IntToStringRoundTrip | Scripts/LocationInfoListerMain.cs:147 | the decimal text of every integer parses back to it, so distinct counts and coordinates print differently |
| Scan.PositionsExact | Scripts/LocationInfoListerMain.cs:198-207 | the filtered positions are strictly ascending and are exactly the positions whose element passes the test |
| Scan.MatchingIndicesExact | Scripts/LocationInfoListerMain.cs:193-208 | a region's matching indices are ascending, in range, and are exactly those of the locations of the pipeline's category |
| Scan.NoLocationInBothPipelines | Scripts/LocationInfoListerMain.cs:193-223 | no location index is collected by both pipelines |
| Scan.CollectIndicesOfType | Scripts/LocationInfoListerMain.cs:198-205 | the loop returns the matching indices of the region |
| Scan.CollectDungeonIndicesOfType | Scripts/LocationInfoListerMain.cs:193-208 | the result is ascending, in range, and holds index i exactly when location i is a dungeon type |
| Scan.CollectCityIndicesOfType | Scripts/LocationInfoListerMain.cs:383-398 | the result is ascending, in range, and holds index i exactly when location i is a settlement type |
| Scan.SelectedRegionsExact | Scripts/LocationInfoListerMain.cs:105-117 | the selected region indices are ascending, below the bound, and are exactly the regions with locations and a match |
| Scan.RegionSelectedIffMatches | Scripts/LocationInfoListerMain.cs:108-113 | a region is selected exactly when it has a match; the location-count test never decides alone |
| Scan.ScanRegion | Scripts/LocationInfoListerMain.cs:108-113 | a region is skipped exactly when it is not selected, and otherwise yields its matching location indices |
| Scan.GrabBagExact | Scripts/LocationInfoListerMain.cs:115-116 | the dictionary's keys are exactly the listed regions, each mapped to its matching location indices |
| Scan.GrabBagLookup | Scripts/LocationInfoListerMain.cs:130 | looking up any listed region finds its matching location indices |
| Scan.ScanRegions | Scripts/LocationInfoListerMain.cs:105-117 | the scan returns the selected regions of all 62 in ascending order, and the dictionary built from them; no key is added twice |
| Tally.TallyOf | Scripts/LocationInfoListerMain.cs:152-161 | the dictionary after counting names in order; `Tally.TallyKeysAreFirstOccurrences`, `Tally.TallyCountsOccurrences`, `Tally.TallySum` and `Tally.TallyWellFormed` state its keys and counts |
| Tally.FirstOccurrencesExact | Scripts/LocationInfoListerMain.cs:152-161 | the first-occurrence list of the names has distinct entries and holds exactly the names counted |
| Tally.TallyKeysAreFirstOccurrences | Scripts/LocationInfoListerMain.cs:152-161 | the dictionary's keys are the distinct block names in order of first insertion |
| Tally.TallySum | Scripts/LocationInfoListerMain.cs:152-161 | the counts add up to the number of blocks counted |
| Tally.TallyCountsOccurrences | Scripts/LocationInfoListerMain.cs:152-161 | each key's count is the number of times its name was counted |
| Tally.TallyWellFormed | Scripts/LocationInfoListerMain.cs:152-161 | the keys are distinct, are exactly the names counted, and each count is at least one |
| Tally.SortByCountDescending | Scripts/LocationInfoListerMain.cs:174 | the stable sort by descending count; `Tally.SortByCountDescendingCorrect`, `Tally.SortKeepsSum` and `Tally.SortKeepsNames` state its order, stability and contents |
| Tally.InsertByCountSorted | Scripts/LocationInfoListerMain.cs:174 | inserting into a list ordered by non-increasing count keeps it ordered |
| Tally.InsertByCountStable | Scripts/LocationInfoListerMain.cs:174 | insertion keeps, for every count, the relative order of the entries with that count |
| Tally.SortKeepsSum | Scripts/LocationInfoListerMain.cs:174 | sorting keeps the total of the counts |
| Tally.SortKeepsNames | Scripts/LocationInfoListerMain.cs:174 | sorting keeps the keys, and keeps them distinct |
| Tally.SortByCountDescendingCorrect | Scripts/LocationInfoListerMain.cs:174 | the breakdown is ordered by non-increasing count, is a permutation of the dictionary, and lists equal counts in the dictionary's order |
| Tally.BlockTally.Add | Scripts/LocationInfoListerMain.cs:154-161 | after counting a name, the entries are the tally of every name counted so far with that name appended |
| Tally.BlockTally.Clear | Scripts/LocationInfoListerMain.cs:186 | the dictionary is empty and nothing is counted |
| DungeonReport.DungeonHeaderReadsBack | Scripts/LocationInfoListerMain.cs:145-147 | a dungeon's first lines are its name, a type line that reads back as its dungeon type, and a size line whose number reads back as its block count |
| DungeonReport.DungeonSectionLayout | Scripts/LocationInfoListerMain.cs:145-166 | a dungeon's section is its three head lines, block i's line at position 3 + i, and a blank line |
| DungeonReport.DungeonReportLines | Scripts/LocationInfoListerMain.cs:134-182 | the lines of a dungeon report; `DungeonReport.WriteDungeonRegion` is proved to write them, and `DungeonReport.BreakdownCorrect` and `DungeonReport.DungeonSectionLayout` state what they hold |
| DungeonReport.RegionBlockNamesCount | Scripts/LocationInfoListerMain.cs:147-164 | the number of block names counted for a region equals the sum of its dungeons' "Total Size" values |
| DungeonReport.BreakdownCorrect | Scripts/LocationInfoListerMain.cs:149-178 | the breakdown lists each distinct block name of the region once; each count equals that name's number of block lines and is at least one; the counts add up to the region's total size; it is ordered by non-increasing count and is a stable permutation of the dictionary |
| DungeonReport.WriteDungeon | Scripts/LocationInfoListerMain.cs:138-166 | writes a dungeon's header, one line per block and a blank line, and counts each block name in order |
| DungeonReport.WriteBlocks | Scripts/LocationInfoListerMain.cs:149-164 | writes one line per block, in order, and counts each block name as it is written |
| DungeonReport.WriteBreakdown | Scripts/LocationInfoListerMain.cs:174-179 | writes one line per entry of the sorted dictionary |
| DungeonReport.WriteDungeonRegion | Scripts/LocationInfoListerMain.cs:134-186 | writes exactly the region's report lines and leaves the dictionary empty, so no counts carry into the next region |
| World.RegionReportsIndex | Scripts/LocationInfoListerMain.cs:121-130 | the j-th report is the report of the j-th listed region, and there is one report per listed region |
| DungeonReport.ScrapeAllDungeonInfo | Scripts/LocationInfoListerMain.cs:97-189 | the reports are those of the selected regions, in ascending region order |
| DungeonReport.ExampleIndices | Scripts/LocationInfoListerMain.cs:111 | in a region holding a mine and a hamlet, the dungeon scan picks the mine only and the settlement scan the hamlet only |
| DungeonReport.ExampleReport | Scripts/LocationInfoListerMain.cs:134-182 | an undiscovered mine with two blocks of the same name yields exactly the expected fifteen lines, including "Type: Mine" and "BLOCK_A:  2" |
| DungeonReport.ExampleRegionReport | Scripts/LocationInfoListerMain.cs:97-182 | the whole report of the example region, from the classifier on, is the fifteen expected lines |
| CityReport.Checklist | Scripts/LocationInfoListerMain.cs:324-339 | the four checklist counters; `CityReport.ChecklistCounts` states each is positive exactly when a kept building ticks its slot |
| CityReport.SettlementQualifies | Scripts/LocationInfoListerMain.cs:302-341 | the tests before a settlement is written; `CityReport.SettlementEmittedIff` states them in terms of the buildings |
| CityReport.ChecklistSlotMeaning | Scripts/LocationInfoListerMain.cs:334-337 | the four slots count pawn shops, banks, Dark Brotherhood houses and Mages Guild halls, and every building that ticks a slot is kept |
| CityReport.ChecklistCounts | Scripts/LocationInfoListerMain.cs:324-339 | a checklist counter is positive exactly when some kept building ticks its slot |
| CityReport.BankIsKeptBuilding | Scripts/LocationInfoListerMain.cs:308-322 | a settlement with a bank always has a kept building |
| CityReport.SettlementEmittedIff | Scripts/LocationInfoListerMain.cs:302-341 | a settlement is written exactly when it is not a large city and has a bank, a Dark Brotherhood house and a Mages Guild hall |
| CityReport.PawnShopNotRequired | Scripts/LocationInfoListerMain.cs:334-341 | adding a pawn shop never changes whether a settlement is written |
| CityReport.KeptBuildingsExact | Scripts/LocationInfoListerMain.cs:348-352 | the j-th listed building is the building at the j-th kept position; the kept positions are ascending and are exactly those of the buildings the exclusion rule keeps, so every kept building is listed, in order, duplicates included |
| CityReport.KeptBuildingLinesInOrder | Scripts/LocationInfoListerMain.cs:348-361 | the building lines are those of the kept buildings, all of them, in their order |
| CityReport.ChunksIndex | Scripts/LocationInfoListerMain.cs:357-360 | with four lines per element, the j-th element's lines are at positions 4j to 4j + 3 |
| CityReport.AllBuildingLinesIndex | Scripts/LocationInfoListerMain.cs:357-360 | the j-th building's four lines are at positions 4j to 4j + 3 |
| CityReport.SettlementHeadReadsBack | Scripts/LocationInfoListerMain.cs:343-346 | a settlement's first lines are its name, a type line that reads back as its settlement type, a building-count line that reads back as the number of all its buildings, and a blank line |
| CityReport.SettlementSectionLayout | Scripts/LocationInfoListerMain.cs:343-364 | a settlement's section is its four head lines, the four lines of the j-th kept building at positions 4 + 4j to 7 + 4j, and two blank lines |
| CityReport.CityReportLines | Scripts/LocationInfoListerMain.cs:294-373 | the lines of a settlement report; `CityReport.WriteCityRegion` is proved to write them |
| CityReport.ListedTypeNames | Scripts/LocationInfoListerMain.cs:348-358 | every listed building's type name is one of the five names a kept building can have |
| CityReport.FindValidBuilding | Scripts/LocationInfoListerMain.cs:306-322 | the loop yields 0 or 1, and 1 exactly when the settlement has a kept building |
| CityReport.TallyChecklist | Scripts/LocationInfoListerMain.cs:324-339 | the four-slot array holds the checklist counts of the kept buildings |
| CityReport.WriteBuildings | Scripts/LocationInfoListerMain.cs:348-361 | writes the four lines of every kept building, in order |
| CityReport.WriteSettlement | Scripts/LocationInfoListerMain.cs:299-364 | writes a settlement's section when it qualifies and nothing otherwise |
| CityReport.WriteCityRegion | Scripts/LocationInfoListerMain.cs:294-373 | writes exactly the region's settlement report, ending with an empty breakdown |
| CityReport.ScrapeAllCityInfo | Scripts/LocationInfoListerMain.cs:258-378 | the reports are those of the selected regions, in ascending region order |

## Left out

- File output is left out. That covers the `c:\dfutesting\<region>.txt` path, `StreamWriter`, `Flush` and the `Debug.Log` messages. Each report is modelled as a region name and its lines.
- Mod start-up is left out: `Init`, the console command registration, and the `Execute` wrappers with their result strings. They only call the two commands.
- The map file reader is left out. The 62 regions are a parameter, the catalogue. Each location merges its map-table entry (type, dungeon type, discovered flag) with its location record (name, blocks, buildings).
- The building-name generator is external code. It is the `Namer` parameter, and nothing is assumed about its results.
- Numeric enum values and faction IDs are left out. Types and factions are named constructors, and `OtherFaction(id)` stands for every unnamed faction. Any type a switch does not list is represented by the unlisted constructors `Ship` and `NoBuilding` for buildings, and by `NoDungeon` and `NoLocationType`.
- Coordinates, quality and counts are unbounded integers. C# `int` overflow cannot arise from real map data.
- The .NET dictionary is modelled as an insertion-ordered association list. No claim is made about any other enumeration order.
- Nothing is modelled for a region or location that cannot be read. The source does not handle that case.
