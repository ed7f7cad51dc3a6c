/** The read-only world data the lister consumes: the region catalogue, the
    per-location summary (type, dungeon type, discovered flag) and detail
    (dungeon blocks or exterior buildings). The enumerations carry the members
    of the game's enums the lister mentions, plus one member standing for every
    value its switch statements do not list. Numeric enum and faction values
    are abstract: only their distinctness matters. */
module World {

  /** The catalogue always has this many regions (the scan runs p = 0 .. 61). */
  const RegionCount: nat := 62

  datatype Option<T> = None | Some(value: T)

  datatype LocationType =
    | TownCity | TownHamlet | TownVillage | HomeFarms | DungeonLabyrinth
    | ReligionTemple | Tavern | DungeonKeep | HomeWealthy | ReligionCult
    | DungeonRuin | HomePoor | Graveyard | Coven | HomeYourShips
    | NoLocationType

  datatype DungeonType =
    | Crypt | OrcStronghold | HumanStronghold | Prison | DesecratedTemple
    | Mine | NaturalCave | Coven | VampireHaunt | Laboratory | HarpyNest
    | RuinedCastle | SpiderNest | GiantStronghold | DragonsDen
    | BarbarianStronghold | VolcanicCaves | ScorpionNest | Cemetery
    | NoDungeon

  datatype BuildingType =
    | Alchemist | HouseForSale | Armorer | Bank | Town4 | Bookseller
    | ClothingStore | FurnitureStore | GemStore | GeneralStore | Library
    | GuildHall | PawnShop | WeaponSmith | Temple | Tavern | Palace
    | House1 | House2 | House3 | House4 | House5 | House6 | Town23
    | Special1 | Special2 | Special3 | Special4
    | Ship | NoBuilding

  /** The 16-bit faction identifier of a building. The fourteen factions the
      lister tests for are named; every other identifier is an OtherFaction. */
  datatype Faction =
    | ThievesGuild | DarkBrotherhood | MagesGuild | FightersGuild
    | HostOfTheHorn | KnightsOfTheDragon | KnightsOfTheFlame | KnightsOfTheHawk
    | KnightsOfTheOwl | KnightsOfTheRose | KnightsOfTheWheel
    | OrderOfTheCandle | OrderOfTheRaven | OrderOfTheScarab
    | OtherFaction(id: nat)

  /** One sub-block of a dungeon interior. */
  datatype DungeonBlock = DungeonBlock(blockName: string, x: int, z: int)

  /** One exterior building; the name seed only feeds the name generator. */
  datatype Building = Building(buildingType: BuildingType, factionId: Faction, quality: int, nameSeed: int)

  /** A location: its map-table summary and its detail record. */
  datatype Location = Location(
    name: string,
    locationType: LocationType,
    dungeonType: DungeonType,
    discovered: bool,
    blocks: seq<DungeonBlock>,
    buildings: seq<Building>)

  datatype Region = Region(name: string, locations: seq<Location>)
  {
    function LocationCount(): nat { |locations| }
  }

  /** Location indices that all point into the region. */
  predicate IndicesInRange(region: Region, indices: seq<nat>)
  {
    forall j :: 0 <= j < |indices| ==> indices[j] < region.LocationCount()
  }

  /** The report written for one region (the file named after the region). */
  datatype RegionReport = RegionReport(regionName: string, lines: seq<string>)

  /** The reports of the listed regions, in their order, each rendered by
      the pipeline's report function. */
  function RegionReports(catalogue: seq<Region>, regions: seq<nat>, render: Region -> RegionReport): (r: seq<RegionReport>)
    requires forall j :: 0 <= j < |regions| ==> regions[j] < |catalogue|
    ensures |r| == |regions|
  {
    if regions == [] then []
    else
      var k := |regions| - 1;
      RegionReports(catalogue, regions[..k], render) + [render(catalogue[regions[k]])]
  }

  lemma RegionReportsStep(catalogue: seq<Region>, regions: seq<nat>, render: Region -> RegionReport, n: nat)
    requires forall j :: 0 <= j < |regions| ==> regions[j] < |catalogue|
    requires n < |regions|
    ensures RegionReports(catalogue, regions[..n + 1], render)
      == RegionReports(catalogue, regions[..n], render) + [render(catalogue[regions[n]])]
  {
    assert regions[..n + 1][..n] == regions[..n];
  }

  /** One report per listed region: the j-th report is that of the j-th
      listed region. */
  lemma {:induction false} RegionReportsIndex(catalogue: seq<Region>, regions: seq<nat>, render: Region -> RegionReport)
    requires forall j :: 0 <= j < |regions| ==> regions[j] < |catalogue|
    ensures forall j :: 0 <= j < |regions| ==> RegionReports(catalogue, regions, render)[j] == render(catalogue[regions[j]])
  {
    if regions != [] {
      var k := |regions| - 1;
      RegionReportsIndex(catalogue, regions[..k], render);
    }
  }

  /** The lines after a region's locations, before its breakdown entries;
      both pipelines write them. */
  const BreakdownHeading: seq<string> := ["", "", "Block Count Breakdown For This Region:", ""]

  /** The closing lines of every report. */
  const ReportEnd: seq<string> := ["", "END"]
}
