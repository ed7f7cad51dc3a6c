/** The settlement pipeline: one report per region with settlements, listing
    every settlement that is not a large city and has a bank, a Dark
    Brotherhood house and a Mages Guild hall, with its kept buildings. */
module CityReport {
  import opened World
  import opened Text
  import opened Tables
  import opened Scan

  /** The building-name generator: name seed, type, faction, settlement name
      and region name to a display name. */
  type Namer = (int, BuildingType, Faction, string, string) -> string

  // ---------------------------------------------------------------------
  // Which buildings and settlements are listed

  predicate Kept(b: Building)
  {
    !FilterOut(b.buildingType, b.factionId)
  }

  /** The kept buildings of a settlement, in their order. */
  function KeptBuildings(bs: seq<Building>): seq<Building>
  {
    if bs == [] then []
    else
      var k := |bs| - 1;
      KeptBuildings(bs[..k]) + (if Kept(bs[k]) then [bs[k]] else [])
  }

  predicate HasKeptBuilding(bs: seq<Building>)
  {
    exists i :: 0 <= i < |bs| && Kept(bs[i])
  }

  /** The checklist slot a kept building ticks: pawn shop, bank, Dark
      Brotherhood house, Mages Guild hall; tested in that order. */
  function ChecklistSlot(b: Building): (slot: Option<nat>)
    ensures slot.Some? ==> slot.value < 4
  {
    if b.buildingType == PawnShop then Some(0)
    else if b.buildingType == Bank then Some(1)
    else if b.buildingType == House2 && b.factionId == DarkBrotherhood then Some(2)
    else if b.buildingType == GuildHall && b.factionId == MagesGuild then Some(3)
    else None
  }

  /** The four checklist counters after scanning the buildings. */
  function Checklist(bs: seq<Building>): (c: seq<int>)
    ensures |c| == 4
  {
    if bs == [] then [0, 0, 0, 0]
    else
      var k := |bs| - 1;
      var before := Checklist(bs[..k]);
      var slot := ChecklistSlot(bs[k]);
      if Kept(bs[k]) && slot.Some? then before[slot.value := before[slot.value] + 1] else before
  }

  /** Some kept building ticks the given slot. */
  predicate Ticks(bs: seq<Building>, s: nat)
  {
    exists i :: 0 <= i < |bs| && Kept(bs[i]) && ChecklistSlot(bs[i]) == Some(s)
  }

  /** The tests a settlement passes before it is written. */
  predicate SettlementQualifies(loc: Location)
  {
    && GetCityTypeName(loc.locationType) != "City (Large)"
    && HasKeptBuilding(loc.buildings)
    && Checklist(loc.buildings)[1] > 0
    && Checklist(loc.buildings)[2] > 0
    && Checklist(loc.buildings)[3] > 0
  }

  // ---------------------------------------------------------------------
  // The text of a report

  function BuildingLines(b: Building, namer: Namer, cityName: string, regionName: string): seq<string>
  {
    [ "Building Name: " + namer(b.nameSeed, b.buildingType, b.factionId, cityName, regionName),
      "Type: " + GetBuildingTypeName(b.buildingType, b.factionId),
      "Quality: " + IntToString(b.quality),
      "" ]
  }

  /** The lines of each element rendered, one element after another. */
  function Chunks<T>(xs: seq<T>, render: T -> seq<string>): seq<string>
  {
    if xs == [] then [] else Chunks(xs[..|xs| - 1], render) + render(xs[|xs| - 1])
  }

  function BuildingRenderer(namer: Namer, cityName: string, regionName: string): Building -> seq<string>
  {
    (b: Building) => BuildingLines(b, namer, cityName, regionName)
  }

  /** The lines of every building given, in order. */
  function AllBuildingLines(bs: seq<Building>, namer: Namer, cityName: string, regionName: string): seq<string>
  {
    Chunks(bs, BuildingRenderer(namer, cityName, regionName))
  }

  /** The building lines of a settlement: excluded buildings are skipped. */
  function KeptBuildingLines(bs: seq<Building>, namer: Namer, cityName: string, regionName: string): seq<string>
  {
    if bs == [] then []
    else
      var k := |bs| - 1;
      KeptBuildingLines(bs[..k], namer, cityName, regionName)
        + (if Kept(bs[k]) then BuildingLines(bs[k], namer, cityName, regionName) else [])
  }

  /** A settlement's section; the building count is that of all its
      buildings, excluded ones included. */
  function SettlementSection(loc: Location, regionName: string, namer: Namer): seq<string>
  {
    SettlementHead(loc) + KeptBuildingLines(loc.buildings, namer, loc.name, regionName) + ["", ""]
  }

  function SettlementHead(loc: Location): seq<string>
  {
    [ "Location Name: " + loc.name,
      "Type: " + GetCityTypeName(loc.locationType),
      "Building Count: " + IntToString(|loc.buildings|),
      "" ]
  }

  /** What a settlement contributes to its region's report. */
  function SettlementOutput(loc: Location, regionName: string, namer: Namer): seq<string>
  {
    if SettlementQualifies(loc) then SettlementSection(loc, regionName, namer) else []
  }

  function CitySections(region: Region, indices: seq<nat>, namer: Namer): seq<string>
    requires IndicesInRange(region, indices)
  {
    if indices == [] then []
    else
      var k := |indices| - 1;
      CitySections(region, indices[..k], namer) + SettlementOutput(region.locations[indices[k]], region.name, namer)
  }

  /** A settlement report ends with the breakdown heading and no entries. */
  function CityReportLines(region: Region, indices: seq<nat>, namer: Namer): seq<string>
    requires IndicesInRange(region, indices)
  {
    ["Region: " + region.name, ""] + CitySections(region, indices, namer) + BreakdownHeading + ReportEnd
  }

  function CityRegionReport(region: Region, namer: Namer): RegionReport
  {
    RegionReport(region.name, CityReportLines(region, MatchingIndices(region.locations, Settlements), namer))
  }

  // ---------------------------------------------------------------------
  // Properties

  /** The slots mean what their comments say, and every building that ticks
      one is also kept. */
  lemma ChecklistSlotMeaning(b: Building)
    ensures ChecklistSlot(b) == Some(0) <==> b.buildingType == PawnShop
    ensures ChecklistSlot(b) == Some(1) <==> b.buildingType == Bank
    ensures ChecklistSlot(b) == Some(2) <==> b.buildingType == House2 && b.factionId == DarkBrotherhood
    ensures ChecklistSlot(b) == Some(3) <==> b.buildingType == GuildHall && b.factionId == MagesGuild
    ensures ChecklistSlot(b).Some? ==> Kept(b)
  {
    FilterOutKeeps(b.buildingType, b.factionId);
  }

  /** A counter is positive exactly when some kept building ticks its slot. */
  lemma {:induction false} ChecklistCounts(bs: seq<Building>, s: nat)
    requires s < 4
    ensures Checklist(bs)[s] >= 0
    ensures Checklist(bs)[s] > 0 <==> Ticks(bs, s)
  {
    if bs != [] {
      var k := |bs| - 1;
      ChecklistCounts(bs[..k], s);
      assert Ticks(bs, s) <==> Ticks(bs[..k], s) || (Kept(bs[k]) && ChecklistSlot(bs[k]) == Some(s)) by {
        if Ticks(bs, s) {
          var i :| 0 <= i < |bs| && Kept(bs[i]) && ChecklistSlot(bs[i]) == Some(s);
          if i < k {
            assert bs[..k][i] == bs[i];
          }
        }
        if Ticks(bs[..k], s) {
          var i :| 0 <= i < k && Kept(bs[..k][i]) && ChecklistSlot(bs[..k][i]) == Some(s);
          assert bs[i] == bs[..k][i];
        }
      }
    }
  }

  /** Some building of the given kind exists. */
  predicate HasBank(bs: seq<Building>)
  {
    exists i :: 0 <= i < |bs| && bs[i].buildingType == Bank
  }

  predicate HasDarkBrotherhoodHouse(bs: seq<Building>)
  {
    exists i :: 0 <= i < |bs| && bs[i].buildingType == House2 && bs[i].factionId == DarkBrotherhood
  }

  predicate HasMagesGuildhall(bs: seq<Building>)
  {
    exists i :: 0 <= i < |bs| && bs[i].buildingType == GuildHall && bs[i].factionId == MagesGuild
  }

  lemma TicksBank(bs: seq<Building>)
    ensures Ticks(bs, 1) <==> HasBank(bs)
  {
    forall i | 0 <= i < |bs| ensures (Kept(bs[i]) && ChecklistSlot(bs[i]) == Some(1)) <==> bs[i].buildingType == Bank {
      ChecklistSlotMeaning(bs[i]);
    }
  }

  lemma TicksDarkBrotherhoodHouse(bs: seq<Building>)
    ensures Ticks(bs, 2) <==> HasDarkBrotherhoodHouse(bs)
  {
    forall i | 0 <= i < |bs|
      ensures (Kept(bs[i]) && ChecklistSlot(bs[i]) == Some(2)) <==> bs[i].buildingType == House2 && bs[i].factionId == DarkBrotherhood
    {
      ChecklistSlotMeaning(bs[i]);
    }
  }

  lemma TicksMagesGuildhall(bs: seq<Building>)
    ensures Ticks(bs, 3) <==> HasMagesGuildhall(bs)
  {
    forall i | 0 <= i < |bs|
      ensures (Kept(bs[i]) && ChecklistSlot(bs[i]) == Some(3)) <==> bs[i].buildingType == GuildHall && bs[i].factionId == MagesGuild
    {
      ChecklistSlotMeaning(bs[i]);
    }
  }

  /** A bank is always kept, so the kept-building test never rejects a
      settlement that the checklist test would accept. */
  lemma BankIsKeptBuilding(bs: seq<Building>)
    ensures HasBank(bs) ==> HasKeptBuilding(bs)
  {
    if HasBank(bs) {
      var i :| 0 <= i < |bs| && bs[i].buildingType == Bank;
      ChecklistSlotMeaning(bs[i]);
    }
  }

  /** A settlement is written exactly when it is not a large city and has a
      bank, a Dark Brotherhood house and a Mages Guild hall; pawn shops are
      counted but not required. */
  lemma SettlementEmittedIff(loc: Location)
    ensures SettlementQualifies(loc) <==>
      && loc.locationType != TownCity
      && HasBank(loc.buildings)
      && HasDarkBrotherhoodHouse(loc.buildings)
      && HasMagesGuildhall(loc.buildings)
  {
    var bs := loc.buildings;
    ChecklistCounts(bs, 1);
    ChecklistCounts(bs, 2);
    ChecklistCounts(bs, 3);
    TicksBank(bs);
    TicksDarkBrotherhoodHouse(bs);
    TicksMagesGuildhall(bs);
    BankIsKeptBuilding(bs);
  }

  /** Adding a pawn shop never changes whether a settlement is written. */
  lemma PawnShopNotRequired(loc: Location, shop: Building)
    requires shop.buildingType == PawnShop
    ensures SettlementQualifies(loc.(buildings := loc.buildings + [shop])) <==> SettlementQualifies(loc)
  {
    var bs := loc.buildings;
    var more := bs + [shop];
    SettlementEmittedIff(loc);
    SettlementEmittedIff(loc.(buildings := more));
    assert forall i :: 0 <= i < |bs| ==> more[i] == bs[i];
    assert HasBank(more) ==> HasBank(bs);
    assert HasDarkBrotherhoodHouse(more) ==> HasDarkBrotherhoodHouse(bs);
    assert HasMagesGuildhall(more) ==> HasMagesGuildhall(bs);
  }

  /** The kept buildings are exactly the buildings not filtered out: the
      j-th kept building is the building at the j-th kept position, and the
      kept positions are ascending and are those of the kept buildings. */
  lemma {:induction false} KeptBuildingsExact(bs: seq<Building>)
    ensures forall b :: b in KeptBuildings(bs) <==> b in bs && Kept(b)
    ensures |KeptBuildings(bs)| == |Positions(bs, Kept)|
    ensures forall j :: 0 <= j < |Positions(bs, Kept)| ==> KeptBuildings(bs)[j] == bs[Positions(bs, Kept)[j]]
    ensures StrictlyAscending(Positions(bs, Kept))
    ensures forall i :: 0 <= i < |bs| ==> (i in Positions(bs, Kept) <==> Kept(bs[i]))
  {
    PositionsExact(bs, Kept);
    if bs != [] {
      var k := |bs| - 1;
      KeptBuildingsExact(bs[..k]);
      assert bs == bs[..k] + [bs[k]];
      KeptBuildingsStep(bs[..k], bs[k]);
    }
  }

  lemma KeptBuildingsStep(init: seq<Building>, last: Building)
    requires |KeptBuildings(init)| == |Positions(init, Kept)|
    requires forall j :: 0 <= j < |Positions(init, Kept)| ==> KeptBuildings(init)[j] == init[Positions(init, Kept)[j]]
    ensures |KeptBuildings(init + [last])| == |Positions(init + [last], Kept)|
    ensures forall j :: 0 <= j < |Positions(init + [last], Kept)| ==>
              KeptBuildings(init + [last])[j] == (init + [last])[Positions(init + [last], Kept)[j]]
  {
    var bs := init + [last];
    assert bs[..|init|] == init;
    var pos := Positions(init, Kept);
    assert forall j :: 0 <= j < |pos| ==> bs[pos[j]] == init[pos[j]];
  }

  /** A settlement lists its kept buildings, all of them and in order. */
  lemma {:induction false} KeptBuildingLinesInOrder(bs: seq<Building>, namer: Namer, cityName: string, regionName: string)
    ensures KeptBuildingLines(bs, namer, cityName, regionName) == AllBuildingLines(KeptBuildings(bs), namer, cityName, regionName)
  {
    if bs != [] {
      var k := |bs| - 1;
      KeptBuildingLinesInOrder(bs[..k], namer, cityName, regionName);
      var before := KeptBuildings(bs[..k]);
      if Kept(bs[k]) {
        var kept := before + [bs[k]];
        assert kept[..|kept| - 1] == before;
      } else {
        assert before + [] == before;
      }
    }
  }

  /** With four lines per element, the j-th element's lines are at
      positions 4j .. 4j + 3. */
  lemma {:induction false} ChunksIndex<T>(xs: seq<T>, render: T -> seq<string>)
    requires forall x :: |render(x)| == 4
    ensures |Chunks(xs, render)| == 4 * |xs|
    ensures forall j :: 0 <= j < |xs| ==> Chunks(xs, render)[4 * j..4 * j + 4] == render(xs[j])
  {
    if xs != [] {
      var k := |xs| - 1;
      ChunksIndex(xs[..k], render);
      var before, last := Chunks(xs[..k], render), render(xs[k]);
      forall j | 0 <= j < |xs|
        ensures (before + last)[4 * j..4 * j + 4] == render(xs[j])
      {
        if j < k {
          assert xs[..k][j] == xs[j];
          assert (before + last)[4 * j..4 * j + 4] == before[4 * j..4 * j + 4];
        } else {
          assert (before + last)[4 * j..4 * j + 4] == last;
        }
      }
    }
  }

  /** Each building writes four lines: the j-th building's lines are at
      positions 4j .. 4j + 3. */
  lemma AllBuildingLinesIndex(bs: seq<Building>, namer: Namer, cityName: string, regionName: string)
    ensures |AllBuildingLines(bs, namer, cityName, regionName)| == 4 * |bs|
    ensures forall j :: 0 <= j < |bs| ==>
              AllBuildingLines(bs, namer, cityName, regionName)[4 * j..4 * j + 4] == BuildingLines(bs[j], namer, cityName, regionName)
  {
    var render := BuildingRenderer(namer, cityName, regionName);
    assert forall b :: |render(b)| == 4;
    ChunksIndex(bs, render);
  }

  /** The layout of a settlement's section: its name line, a type line that
      reads back as its settlement type, a building-count line whose number
      reads back as the count of all its buildings, a blank line, the four
      lines of the j-th kept building at positions 4 + 4j .. 7 + 4j, and two
      closing blank lines. */
  lemma SettlementSectionLayout(loc: Location, regionName: string, namer: Namer)
    ensures var lines := SettlementSection(loc, regionName, namer);
      var kept := KeptBuildings(loc.buildings);
      && |lines| == 4 * |kept| + 6
      && lines[0] == "Location Name: " + loc.name
      && lines[1][..6] == "Type: "
      && CityTypeOfName(lines[1][6..]) == (if IsCityLocationType(loc.locationType) then Some(loc.locationType) else None)
      && lines[2][..16] == "Building Count: " && ParseInt(lines[2][16..]) == Some(|loc.buildings|)
      && lines[3] == ""
      && (forall j :: 0 <= j < |kept| ==>
            lines[4 + 4 * j..8 + 4 * j] == BuildingLines(kept[j], namer, loc.name, regionName))
      && lines[4 * |kept| + 4..] == ["", ""]
  {
    var kept := KeptBuildings(loc.buildings);
    var head := SettlementHead(loc);
    var body := KeptBuildingLines(loc.buildings, namer, loc.name, regionName);
    KeptBuildingLinesInOrder(loc.buildings, namer, loc.name, regionName);
    AllBuildingLinesIndex(kept, namer, loc.name, regionName);
    SettlementHeadReadsBack(loc);
    var lines := head + body + ["", ""];
    forall j | 0 <= j < |kept|
      ensures lines[4 + 4 * j..8 + 4 * j] == body[4 * j..4 * j + 4]
    {
      SliceOfMiddle(head, body, ["", ""], 4 * j, 4 * j + 4);
    }
  }

  /** The head of a settlement's section: its name, a type line that reads
      back as its type, and a building-count line that reads back as the
      count of all its buildings. */
  lemma SettlementHeadReadsBack(loc: Location)
    ensures var head := SettlementHead(loc);
      && |head| == 4
      && head[0] == "Location Name: " + loc.name
      && head[1][..6] == "Type: "
      && CityTypeOfName(head[1][6..]) == (if IsCityLocationType(loc.locationType) then Some(loc.locationType) else None)
      && head[2][..16] == "Building Count: " && ParseInt(head[2][16..]) == Some(|loc.buildings|)
      && head[3] == ""
  {
    TagSplits("Type: ", GetCityTypeName(loc.locationType));
    LabelledNumberReadsBack("Building Count: ", |loc.buildings|);
    CityTypeNameRoundTrip(loc.locationType);
    assert |"Type: "| == 6 && |"Building Count: "| == 16;
  }

  lemma SliceOfMiddle<T>(a: seq<T>, b: seq<T>, c: seq<T>, lo: nat, hi: nat)
    requires lo <= hi <= |b|
    ensures (a + b + c)[|a| + lo..|a| + hi] == b[lo..hi]
  {
    assert (a + b + c)[|a|..|a| + |b|] == b;
  }

  /** Every listed building is described by its type name: one of the five
      names a kept building can have. */
  lemma ListedTypeNames(loc: Location, b: Building)
    requires b in KeptBuildings(loc.buildings)
    ensures GetBuildingTypeName(b.buildingType, b.factionId) in {"Bank", "Pawn Shop", "Dark Brotherhood Guildhall", "Mages Guildhall", "None"}
  {
    KeptBuildingsExact(loc.buildings);
    KeptBuildingTypeNames(b.buildingType, b.factionId);
  }

  // ---------------------------------------------------------------------
  // Writing the reports

  lemma ChecklistStep(bs: seq<Building>, m: nat)
    requires m < |bs|
    ensures Checklist(bs[..m + 1]) ==
      var before := Checklist(bs[..m]);
      var slot := ChecklistSlot(bs[m]);
      if Kept(bs[m]) && slot.Some? then before[slot.value := before[slot.value] + 1] else before
  {
    assert bs[..m + 1][..m] == bs[..m];
  }

  lemma KeptBuildingLinesStep(bs: seq<Building>, k: nat, namer: Namer, cityName: string, regionName: string)
    requires k < |bs|
    ensures KeptBuildingLines(bs[..k + 1], namer, cityName, regionName)
      == KeptBuildingLines(bs[..k], namer, cityName, regionName)
         + (if Kept(bs[k]) then BuildingLines(bs[k], namer, cityName, regionName) else [])
  {
    assert bs[..k + 1][..k] == bs[..k];
  }

  lemma CitySectionsStep(region: Region, indices: seq<nat>, r: nat, namer: Namer)
    requires IndicesInRange(region, indices) && r < |indices|
    ensures CitySections(region, indices[..r + 1], namer)
      == CitySections(region, indices[..r], namer) + SettlementOutput(region.locations[indices[r]], region.name, namer)
  {
    assert indices[..r + 1][..r] == indices[..r];
  }

  /** The first building loop: stops at the first kept building. */
  method FindValidBuilding(bs: seq<Building>) returns (validBuildingsInLocation: int)
    ensures validBuildingsInLocation == 0 || validBuildingsInLocation == 1
    ensures validBuildingsInLocation == 1 <==> HasKeptBuilding(bs)
  {
    validBuildingsInLocation := 0;
    for m := 0 to |bs|
      invariant validBuildingsInLocation == 0
      invariant forall i :: 0 <= i < m ==> !Kept(bs[i])
    {
      if FilterOut(bs[m].buildingType, bs[m].factionId) {
        continue;
      } else {
        validBuildingsInLocation := validBuildingsInLocation + 1;
        break;
      }
    }
  }

  /** The second building loop, over a four-slot counter array. */
  method TallyChecklist(bs: seq<Building>) returns (checklist: seq<int>)
    ensures checklist == Checklist(bs)
  {
    var buildingChecklist := new int[4];
    buildingChecklist[0], buildingChecklist[1], buildingChecklist[2], buildingChecklist[3] := 0, 0, 0, 0;
    for m := 0 to |bs|
      invariant buildingChecklist[..] == Checklist(bs[..m])
    {
      ChecklistStep(bs, m);
      var b := bs[m];
      if FilterOut(b.buildingType, b.factionId) {
        continue;
      } else {
        if b.buildingType == PawnShop {
          buildingChecklist[0] := buildingChecklist[0] + 1;
        } else if b.buildingType == Bank {
          buildingChecklist[1] := buildingChecklist[1] + 1;
        } else if b.buildingType == House2 && b.factionId == DarkBrotherhood {
          buildingChecklist[2] := buildingChecklist[2] + 1;
        } else if b.buildingType == GuildHall && b.factionId == MagesGuild {
          buildingChecklist[3] := buildingChecklist[3] + 1;
        }
      }
    }
    assert bs[..|bs|] == bs;
    checklist := buildingChecklist[..];
  }

  /** The third building loop: the lines of the kept buildings. */
  method WriteBuildings(bs: seq<Building>, namer: Namer, cityName: string, regionName: string) returns (lines: seq<string>)
    ensures lines == KeptBuildingLines(bs, namer, cityName, regionName)
  {
    lines := [];
    for k := 0 to |bs|
      invariant lines == KeptBuildingLines(bs[..k], namer, cityName, regionName)
    {
      KeptBuildingLinesStep(bs, k, namer, cityName, regionName);
      var b := bs[k];
      if FilterOut(b.buildingType, b.factionId) {
        continue;
      }
      var buildingName := namer(b.nameSeed, b.buildingType, b.factionId, cityName, regionName);
      var buildingTypeName := GetBuildingTypeName(b.buildingType, b.factionId);
      var quality := b.quality;
      lines := lines + ["Building Name: " + buildingName, "Type: " + buildingTypeName,
                        "Quality: " + IntToString(quality), ""];
    }
    assert bs[..|bs|] == bs;
  }

  /** One settlement: skipped when it is a large city, has no kept building,
      or misses a bank, a Dark Brotherhood house or a Mages Guild hall. */
  method WriteSettlement(loc: Location, regionName: string, namer: Namer) returns (lines: seq<string>)
    ensures lines == SettlementOutput(loc, regionName, namer)
  {
    lines := [];
    var cityName := loc.name;
    var city := loc.buildings;
    var cityTypeName := GetCityTypeName(loc.locationType);
    if cityTypeName == "City (Large)" {
      return;
    }
    var validBuildingsInLocation := FindValidBuilding(city);
    if validBuildingsInLocation <= 0 {
      return;
    }
    var buildingChecklist := TallyChecklist(city);
    if buildingChecklist[1] <= 0 || buildingChecklist[2] <= 0 || buildingChecklist[3] <= 0 {
      return;
    }
    var buildingLines := WriteBuildings(city, namer, cityName, regionName);
    lines := ["Location Name: " + cityName, "Type: " + cityTypeName,
              "Building Count: " + IntToString(|city|), ""] + buildingLines + ["", ""];
  }

  /** Renders one region's settlement report. */
  method WriteCityRegion(region: Region, indices: seq<nat>, namer: Namer) returns (lines: seq<string>)
    requires IndicesInRange(region, indices)
    ensures lines == CityReportLines(region, indices, namer)
  {
    var sections := [];
    for r := 0 to |indices|
      invariant sections == CitySections(region, indices[..r], namer)
    {
      CitySectionsStep(region, indices, r, namer);
      var section := WriteSettlement(region.locations[indices[r]], region.name, namer);
      sections := sections + section;
    }
    assert indices[..|indices|] == indices;
    lines := ["Region: " + region.name, ""] + sections + BreakdownHeading + ReportEnd;
  }

  /** The whole settlement command: scan the 62 regions, then write one
      report per selected region. */
  method ScrapeAllCityInfo(catalogue: seq<Region>, namer: Namer) returns (reports: seq<RegionReport>)
    requires |catalogue| == RegionCount
    ensures reports == RegionReports(catalogue, SelectedRegions(catalogue, Settlements, RegionCount),
                                     (region: Region) => CityRegionReport(region, namer))
  {
    var validRegionIndexes, regionValidCityGrabBag := ScanRegions(catalogue, Settlements);
    ghost var render := (region: Region) => CityRegionReport(region, namer);
    reports := [];
    for n := 0 to |validRegionIndexes|
      invariant reports == RegionReports(catalogue, validRegionIndexes[..n], render)
    {
      RegionReportsStep(catalogue, validRegionIndexes, render, n);
      var locList := validRegionIndexes[n];
      var regionInfo := catalogue[locList];
      GrabBagLookup(catalogue, Settlements, validRegionIndexes, n);
      var foundIndices := regionValidCityGrabBag[locList];
      var lines := WriteCityRegion(regionInfo, foundIndices, namer);
      reports := reports + [RegionReport(regionInfo.name, lines)];
    }
    assert validRegionIndexes[..|validRegionIndexes|] == validRegionIndexes;
  }
}
