/** The static classifiers, display-name tables and the building exclusion
    rule of the lister. All of them are stateless switches. */
module Tables {
  import opened World

  // ---------------------------------------------------------------------
  // Location classifiers

  /** The three major dungeon types and graveyards count as dungeons. */
  predicate IsDungeonLocationType(t: LocationType)
  {
    t == DungeonKeep || t == DungeonLabyrinth || t == DungeonRuin || t == Graveyard
  }

  /** Cities, hamlets, villages, temples and taverns count as settlements. */
  predicate IsCityLocationType(t: LocationType)
  {
    t == TownCity || t == TownHamlet || t == TownVillage || t == ReligionTemple || t == LocationType.Tavern
  }

  /** No location type is both, so a location feeds at most one pipeline. */
  lemma ClassifiersDisjoint(t: LocationType)
    ensures !(IsDungeonLocationType(t) && IsCityLocationType(t))
  {
  }

  // ---------------------------------------------------------------------
  // Dungeon type names

  /** The display name of a dungeon type; only a Cemetery's name depends on
      whether it has been discovered. */
  function GetDungeonTypeName(t: DungeonType, discovered: bool): (r: string)
    ensures r == "None" <==> t == NoDungeon
    ensures t == Cemetery ==> (r == "Cemetery" <==> discovered)
    ensures t == Cemetery ==> (r == "Forgotten Cemetery" <==> !discovered)
  {
    match t
    case ScorpionNest => "Scorpion Nest"
    case VolcanicCaves => "Volcanic Caves"
    case BarbarianStronghold => "Barbarian Stronghold"
    case DragonsDen => "Dragon's Den"
    case GiantStronghold => "Giant Stronghold"
    case SpiderNest => "Spider Nest"
    case RuinedCastle => "Ruined Castle"
    case HarpyNest => "Harpy Nest"
    case Laboratory => "Laboratory"
    case VampireHaunt => "Vampire Haunt"
    case Coven => "Coven"
    case NaturalCave => "Natural Cave"
    case Mine => "Mine"
    case DesecratedTemple => "Desecrated Temple"
    case Prison => "Prison"
    case HumanStronghold => "Human Stronghold"
    case OrcStronghold => "Orc Stronghold"
    case Crypt => "Crypt"
    case Cemetery => if discovered then "Cemetery" else "Forgotten Cemetery"
    case NoDungeon => "None"
  }

  /** Reads a dungeon type back from its display name. */
  function DungeonTypeOfName(name: string): Option<DungeonType>
  {
    if name == "Scorpion Nest" then Some(ScorpionNest)
    else if name == "Volcanic Caves" then Some(VolcanicCaves)
    else if name == "Barbarian Stronghold" then Some(BarbarianStronghold)
    else if name == "Dragon's Den" then Some(DragonsDen)
    else if name == "Giant Stronghold" then Some(GiantStronghold)
    else if name == "Spider Nest" then Some(SpiderNest)
    else if name == "Ruined Castle" then Some(RuinedCastle)
    else if name == "Harpy Nest" then Some(HarpyNest)
    else if name == "Laboratory" then Some(Laboratory)
    else if name == "Vampire Haunt" then Some(VampireHaunt)
    else if name == "Coven" then Some(DungeonType.Coven)
    else if name == "Natural Cave" then Some(NaturalCave)
    else if name == "Mine" then Some(Mine)
    else if name == "Desecrated Temple" then Some(DesecratedTemple)
    else if name == "Prison" then Some(Prison)
    else if name == "Human Stronghold" then Some(HumanStronghold)
    else if name == "Orc Stronghold" then Some(OrcStronghold)
    else if name == "Crypt" then Some(Crypt)
    else if name == "Cemetery" || name == "Forgotten Cemetery" then Some(Cemetery)
    else None
  }

  /** Every listed dungeon type is recovered from its name, so the 19 listed
      types have pairwise distinct names; every other type reads as "None". */
  lemma DungeonTypeNameRoundTrip(t: DungeonType, discovered: bool)
    ensures DungeonTypeOfName(GetDungeonTypeName(t, discovered)) == if t == NoDungeon then None else Some(t)
  {
    match t
    case Cemetery => CemeteryAndNoneNamesRead();
    case NoDungeon => CemeteryAndNoneNamesRead();
    case ScorpionNest => DungeonNamesRead1(t);
    case VolcanicCaves => DungeonNamesRead1(t);
    case BarbarianStronghold => DungeonNamesRead1(t);
    case DragonsDen => DungeonNamesRead1(t);
    case GiantStronghold => DungeonNamesRead1(t);
    case SpiderNest => DungeonNamesRead1(t);
    case RuinedCastle => DungeonNamesRead1(t);
    case HarpyNest => DungeonNamesRead1(t);
    case Laboratory => DungeonNamesRead2(t);
    case VampireHaunt => DungeonNamesRead2(t);
    case Coven => DungeonNamesRead2(t);
    case NaturalCave => DungeonNamesRead2(t);
    case Mine => DungeonNamesRead2(t);
    case DesecratedTemple => DungeonNamesRead3(t);
    case Prison => DungeonNamesRead3(t);
    case HumanStronghold => DungeonNamesRead3(t);
    case OrcStronghold => DungeonNamesRead4(t);
    case Crypt => DungeonNamesRead4(t);
  }

  lemma CemeteryAndNoneNamesRead()
    ensures DungeonTypeOfName("Cemetery") == Some(Cemetery)
    ensures DungeonTypeOfName("Forgotten Cemetery") == Some(Cemetery)
    ensures DungeonTypeOfName("None") == None
  {
  }

  lemma DungeonNamesRead1(t: DungeonType)
    requires t == DungeonType.ScorpionNest || t == DungeonType.VolcanicCaves || t == DungeonType.BarbarianStronghold || t == DungeonType.DragonsDen || t == DungeonType.GiantStronghold || t == DungeonType.SpiderNest || t == DungeonType.RuinedCastle || t == DungeonType.HarpyNest
    ensures DungeonTypeOfName(GetDungeonTypeName(t, false)) == Some(t)
  {
    match t
    case ScorpionNest => assert DungeonTypeOfName("Scorpion Nest") == Some(DungeonType.ScorpionNest);
    case VolcanicCaves => assert DungeonTypeOfName("Volcanic Caves") == Some(DungeonType.VolcanicCaves);
    case BarbarianStronghold => assert DungeonTypeOfName("Barbarian Stronghold") == Some(DungeonType.BarbarianStronghold);
    case DragonsDen => assert DungeonTypeOfName("Dragon's Den") == Some(DungeonType.DragonsDen);
    case GiantStronghold => assert DungeonTypeOfName("Giant Stronghold") == Some(DungeonType.GiantStronghold);
    case SpiderNest => assert DungeonTypeOfName("Spider Nest") == Some(DungeonType.SpiderNest);
    case RuinedCastle => assert DungeonTypeOfName("Ruined Castle") == Some(DungeonType.RuinedCastle);
    case HarpyNest => assert DungeonTypeOfName("Harpy Nest") == Some(DungeonType.HarpyNest);
  }

  lemma DungeonNamesRead2(t: DungeonType)
    requires t == DungeonType.Laboratory || t == DungeonType.VampireHaunt || t == DungeonType.Coven || t == DungeonType.NaturalCave || t == DungeonType.Mine
    ensures DungeonTypeOfName(GetDungeonTypeName(t, false)) == Some(t)
  {
    match t
    case Laboratory => assert DungeonTypeOfName("Laboratory") == Some(DungeonType.Laboratory);
    case VampireHaunt => assert DungeonTypeOfName("Vampire Haunt") == Some(DungeonType.VampireHaunt);
    case Coven => assert DungeonTypeOfName("Coven") == Some(DungeonType.Coven);
    case NaturalCave => assert DungeonTypeOfName("Natural Cave") == Some(DungeonType.NaturalCave);
    case Mine => assert DungeonTypeOfName("Mine") == Some(DungeonType.Mine);
  }

  lemma DungeonNamesRead3(t: DungeonType)
    requires t == DungeonType.DesecratedTemple || t == DungeonType.Prison || t == DungeonType.HumanStronghold
    ensures DungeonTypeOfName(GetDungeonTypeName(t, false)) == Some(t)
  {
    match t
    case DesecratedTemple => assert DungeonTypeOfName("Desecrated Temple") == Some(DungeonType.DesecratedTemple);
    case Prison => assert DungeonTypeOfName("Prison") == Some(DungeonType.Prison);
    case HumanStronghold => assert DungeonTypeOfName("Human Stronghold") == Some(DungeonType.HumanStronghold);
  }

  lemma DungeonNamesRead4(t: DungeonType)
    requires t == DungeonType.OrcStronghold || t == DungeonType.Crypt
    ensures DungeonTypeOfName(GetDungeonTypeName(t, false)) == Some(t)
  {
    match t
    case OrcStronghold => assert DungeonTypeOfName("Orc Stronghold") == Some(DungeonType.OrcStronghold);
    case Crypt => assert DungeonTypeOfName("Crypt") == Some(DungeonType.Crypt);
  }

  /** The discovered flag changes the name of a Cemetery and of nothing else. */
  lemma DiscoveredOnlyNamesCemetery(t: DungeonType)
    ensures (GetDungeonTypeName(t, true) == GetDungeonTypeName(t, false)) <==> t != Cemetery
  {
  }

  // ---------------------------------------------------------------------
  // Settlement type names

  /** The display name of a settlement type. */
  function GetCityTypeName(t: LocationType): (r: string)
    ensures r != "None" <==> IsCityLocationType(t)
    ensures r == "City (Large)" <==> t == TownCity
  {
    match t
    case TownCity => "City (Large)"
    case TownHamlet => "Hamlet (Medium)"
    case TownVillage => "Village (Small)"
    case ReligionTemple => "Temple"
    case Tavern => "Tavern"
    case _ => "None"
  }

  /** Reads a settlement type back from its display name. */
  function CityTypeOfName(name: string): Option<LocationType>
  {
    if name == "City (Large)" then Some(TownCity)
    else if name == "Hamlet (Medium)" then Some(TownHamlet)
    else if name == "Village (Small)" then Some(TownVillage)
    else if name == "Temple" then Some(ReligionTemple)
    else if name == "Tavern" then Some(LocationType.Tavern)
    else None
  }

  /** The settlement name table is injective on exactly the settlement types. */
  lemma CityTypeNameRoundTrip(t: LocationType)
    ensures CityTypeOfName(GetCityTypeName(t)) == if IsCityLocationType(t) then Some(t) else None
  {
  }

  // ---------------------------------------------------------------------
  // Factions

  /** The ten knightly orders. */
  const KnightlyOrders: set<Faction> := {
    HostOfTheHorn, KnightsOfTheDragon, KnightsOfTheFlame, KnightsOfTheHawk,
    KnightsOfTheOwl, KnightsOfTheRose, KnightsOfTheWheel,
    OrderOfTheCandle, OrderOfTheRaven, OrderOfTheScarab }

  predicate OwnedByKnightlyOrder(f: Faction)
  {
    match f
    case HostOfTheHorn => true
    case KnightsOfTheDragon => true
    case KnightsOfTheFlame => true
    case KnightsOfTheHawk => true
    case KnightsOfTheOwl => true
    case KnightsOfTheRose => true
    case KnightsOfTheWheel => true
    case OrderOfTheCandle => true
    case OrderOfTheRaven => true
    case OrderOfTheScarab => true
    case _ => false
  }

  /** The switch accepts exactly the ten knightly orders, and none of them is
      a guild the guild-hall naming tests first. */
  lemma KnightlyOrderMembership(f: Faction)
    ensures OwnedByKnightlyOrder(f) <==> f in KnightlyOrders
    ensures OwnedByKnightlyOrder(f) ==> f != MagesGuild && f != FightersGuild
  {
  }

  // ---------------------------------------------------------------------
  // Buildings

  /** The building types neither table lists; the exclusion rule keeps them
      and the name table calls them "None". */
  predicate UnlistedBuildingType(t: BuildingType)
  {
    t == Ship || t == NoBuilding
  }

  /** True when the building is left out of a settlement's listing. */
  predicate FilterOut(t: BuildingType, f: Faction)
  {
    match t
    case Bank => false
    case PawnShop => false
    case House1 => true
    case House3 => true
    case House4 => true
    case House5 => true
    case House6 => true
    case HouseForSale => true
    case Town4 => true
    case Town23 => true
    case Special1 => true
    case Special2 => true
    case Special3 => true
    case Special4 => true
    case Alchemist => true
    case Armorer => true
    case Bookseller => true
    case ClothingStore => true
    case FurnitureStore => true
    case GemStore => true
    case GeneralStore => true
    case Library => true
    case WeaponSmith => true
    case Tavern => true
    case Palace => true
    case Temple => true
    case House2 =>
      if f == ThievesGuild then true
      else if f == DarkBrotherhood then false
      else true
    case GuildHall => if f == MagesGuild then false else true
    case _ => false
  }

  /** A building is kept exactly when it is a bank or pawn shop, a Dark
      Brotherhood House2, a Mages Guild hall, or of a type the switch does not
      list; every other type and faction pair is excluded. */
  lemma FilterOutKeeps(t: BuildingType, f: Faction)
    ensures !FilterOut(t, f) <==>
      || t == Bank || t == PawnShop
      || (t == House2 && f == DarkBrotherhood)
      || (t == GuildHall && f == MagesGuild)
      || UnlistedBuildingType(t)
  {
  }

  /** The building types the display-name table names. */
  predicate NamedBuildingType(t: BuildingType)
  {
    t !in {HouseForSale, Town4, Town23, Special1, Special2, Special3, Special4, Ship, NoBuilding}
  }

  predicate IsPlainHouse(t: BuildingType)
  {
    t == House1 || t == House3 || t == House4 || t == House5 || t == House6
  }

  /** The display name of a building type, with faction overrides for House2
      (guild houses) and GuildHall (Mages, then Fighters, then knightly
      orders, then a plain guild hall). */
  function GetBuildingTypeName(t: BuildingType, f: Faction): (r: string)
  {
    match t
    case Alchemist => "Alchemist"
    case Armorer => "Armorer"
    case Bank => "Bank"
    case Bookseller => "Book Store"
    case ClothingStore => "Clothing Store"
    case FurnitureStore => "Furniture Store"
    case GemStore => "Gem Store"
    case GeneralStore => "General Store"
    case Library => "Library"
    case PawnShop => "Pawn Shop"
    case WeaponSmith => "Weapon Smith"
    case Tavern => "Tavern"
    case Palace => "Palace"
    case House1 => "House"
    case House3 => "House"
    case House4 => "House"
    case House5 => "House"
    case House6 => "House"
    case House2 =>
      if f == ThievesGuild then "Thieves Guildhall"
      else if f == DarkBrotherhood then "Dark Brotherhood Guildhall"
      else "House"
    case GuildHall =>
      if f == MagesGuild then "Mages Guildhall"
      else if f == FightersGuild then "Fighters Guildhall"
      else if OwnedByKnightlyOrder(f) then "Knightly Order Guildhall"
      else "Guildhall"
    case Temple => "Temple"
    case _ => "None"
  }

  /** What a displayed building type name reveals: "None" exactly for the
      types the table does not name, and each house or guild-hall name exactly
      for its types and factions. */
  lemma BuildingTypeNameMeaning(t: BuildingType, f: Faction)
    ensures GetBuildingTypeName(t, f) == "None" <==> !NamedBuildingType(t)
    ensures GetBuildingTypeName(t, f) == "Thieves Guildhall" <==> t == House2 && f == ThievesGuild
    ensures GetBuildingTypeName(t, f) == "Dark Brotherhood Guildhall" <==> t == House2 && f == DarkBrotherhood
    ensures GetBuildingTypeName(t, f) == "House" <==> IsPlainHouse(t) || (t == House2 && f != ThievesGuild && f != DarkBrotherhood)
    ensures GetBuildingTypeName(t, f) == "Mages Guildhall" <==> t == GuildHall && f == MagesGuild
    ensures GetBuildingTypeName(t, f) == "Fighters Guildhall" <==> t == GuildHall && f == FightersGuild
    ensures GetBuildingTypeName(t, f) == "Knightly Order Guildhall" <==> t == GuildHall && f in KnightlyOrders
    ensures GetBuildingTypeName(t, f) == "Guildhall" <==> t == GuildHall && f != MagesGuild && f != FightersGuild && f !in KnightlyOrders
  {
    BuildingNoneName(t, f);
    BuildingThievesGuildhallName(t, f);
    BuildingDarkBrotherhoodGuildhallName(t, f);
    BuildingHouseName(t, f);
    BuildingMagesGuildhallName(t, f);
    BuildingFightersGuildhallName(t, f);
    BuildingKnightlyOrderGuildhallName(t, f);
    BuildingPlainGuildhallName(t, f);
  }

  lemma BuildingNoneName(t: BuildingType, f: Faction)
    ensures GetBuildingTypeName(t, f) == "None" <==> !NamedBuildingType(t)
  {
  }

  lemma BuildingThievesGuildhallName(t: BuildingType, f: Faction)
    ensures GetBuildingTypeName(t, f) == "Thieves Guildhall" <==> t == House2 && f == ThievesGuild
  {
  }

  lemma BuildingDarkBrotherhoodGuildhallName(t: BuildingType, f: Faction)
    ensures GetBuildingTypeName(t, f) == "Dark Brotherhood Guildhall" <==> t == House2 && f == DarkBrotherhood
  {
  }

  lemma BuildingHouseName(t: BuildingType, f: Faction)
    ensures GetBuildingTypeName(t, f) == "House" <==> IsPlainHouse(t) || (t == House2 && f != ThievesGuild && f != DarkBrotherhood)
  {
    match t
    case Alchemist => {}
    case HouseForSale => {}
    case Armorer => {}
    case Bank => {}
    case Town4 => {}
    case Bookseller => {}
    case ClothingStore => {}
    case FurnitureStore => {}
    case GemStore => {}
    case GeneralStore => {}
    case Library => {}
    case GuildHall => {}
    case PawnShop => {}
    case WeaponSmith => {}
    case Temple => {}
    case Tavern => {}
    case Palace => {}
    case House1 => {}
    case House2 => {}
    case House3 => {}
    case House4 => {}
    case House5 => {}
    case House6 => {}
    case Town23 => {}
    case Special1 => {}
    case Special2 => {}
    case Special3 => {}
    case Special4 => {}
    case Ship => {}
    case NoBuilding => {}
  }

  lemma BuildingMagesGuildhallName(t: BuildingType, f: Faction)
    ensures GetBuildingTypeName(t, f) == "Mages Guildhall" <==> t == GuildHall && f == MagesGuild
  {
  }

  lemma BuildingFightersGuildhallName(t: BuildingType, f: Faction)
    ensures GetBuildingTypeName(t, f) == "Fighters Guildhall" <==> t == GuildHall && f == FightersGuild
  {
  }

  lemma BuildingKnightlyOrderGuildhallName(t: BuildingType, f: Faction)
    ensures GetBuildingTypeName(t, f) == "Knightly Order Guildhall" <==> t == GuildHall && f in KnightlyOrders
  {
    KnightlyOrderMembership(f);
  }

  lemma BuildingPlainGuildhallName(t: BuildingType, f: Faction)
    ensures GetBuildingTypeName(t, f) == "Guildhall" <==> t == GuildHall && f != MagesGuild && f != FightersGuild && f !in KnightlyOrders
  {
    KnightlyOrderMembership(f);
  }

  /** What a kept building can be listed as: of the guild halls only the
      Dark Brotherhood's and the Mages Guild's ever appear, and a kept
      building named "None" is of an unlisted type. */
  lemma KeptBuildingTypeNames(t: BuildingType, f: Faction)
    requires !FilterOut(t, f)
    ensures GetBuildingTypeName(t, f) in {"Bank", "Pawn Shop", "Dark Brotherhood Guildhall", "Mages Guildhall", "None"}
    ensures GetBuildingTypeName(t, f) == "None" <==> UnlistedBuildingType(t)
  {
    FilterOutKeeps(t, f);
  }
}
