/** The dungeon pipeline: one report per selected region, listing every
    dungeon with its blocks, then the region's block-count breakdown. */
module DungeonReport {
  import opened World
  import opened Text
  import opened Tables
  import opened Scan
  import opened Tally

  // ---------------------------------------------------------------------
  // The text of a report

  function BlockLine(b: DungeonBlock): string
  {
    b.blockName + ",   X:" + IntToString(b.x) + ", Z:" + IntToString(b.z)
  }

  /** One line per element, in order. */
  function LinesOf<T>(xs: seq<T>, line: T -> string): (r: seq<string>)
    ensures |r| == |xs|
  {
    if xs == [] then [] else LinesOf(xs[..|xs| - 1], line) + [line(xs[|xs| - 1])]
  }

  function BlockLines(bs: seq<DungeonBlock>): (r: seq<string>)
    ensures |r| == |bs|
  {
    LinesOf(bs, BlockLine)
  }

  /** The block names of a dungeon, in the order they are counted. */
  function BlockNames(bs: seq<DungeonBlock>): (r: seq<string>)
    ensures |r| == |bs|
  {
    if bs == [] then [] else BlockNames(bs[..|bs| - 1]) + [bs[|bs| - 1].blockName]
  }

  function DungeonHeader(loc: Location): seq<string>
  {
    [ "Dungeon: " + loc.name,
      "Type: " + GetDungeonTypeName(loc.dungeonType, loc.discovered),
      "Total Size: " + IntToString(|loc.blocks|) ]
  }

  function DungeonSection(loc: Location): seq<string>
  {
    DungeonHeader(loc) + BlockLines(loc.blocks) + [""]
  }

  function DungeonSections(region: Region, indices: seq<nat>): seq<string>
    requires IndicesInRange(region, indices)
  {
    if indices == [] then []
    else
      var k := |indices| - 1;
      DungeonSections(region, indices[..k]) + DungeonSection(region.locations[indices[k]])
  }

  /** Every block name written for the listed dungeons, in order. */
  function RegionBlockNames(region: Region, indices: seq<nat>): seq<string>
    requires IndicesInRange(region, indices)
  {
    if indices == [] then []
    else
      var k := |indices| - 1;
      RegionBlockNames(region, indices[..k]) + BlockNames(region.locations[indices[k]].blocks)
  }

  /** The sum of the listed dungeons' "Total Size" values. */
  function TotalSize(region: Region, indices: seq<nat>): nat
    requires IndicesInRange(region, indices)
  {
    if indices == [] then 0
    else
      var k := |indices| - 1;
      TotalSize(region, indices[..k]) + |region.locations[indices[k]].blocks|
  }

  function BreakdownLine(e: Entry): string
  {
    e.name + ":  " + IntToString(e.count)
  }

  function BreakdownLines(es: seq<Entry>): (r: seq<string>)
    ensures |r| == |es|
  {
    if es == [] then [] else BreakdownLines(es[..|es| - 1]) + [BreakdownLine(es[|es| - 1])]
  }

  /** The region's block counts, sorted by descending count. */
  function Breakdown(region: Region, indices: seq<nat>): seq<Entry>
    requires IndicesInRange(region, indices)
  {
    SortByCountDescending(TallyOf(RegionBlockNames(region, indices)))
  }

  function DungeonReportLines(region: Region, indices: seq<nat>): seq<string>
    requires IndicesInRange(region, indices)
  {
    ["Region: " + region.name, ""] + DungeonSections(region, indices)
      + BreakdownHeading + BreakdownLines(Breakdown(region, indices)) + ReportEnd
  }

  /** The report of one region: its dungeons in location order. */
  function DungeonRegionReport(region: Region): RegionReport
  {
    RegionReport(region.name, DungeonReportLines(region, MatchingIndices(region.locations, Dungeons)))
  }

  // ---------------------------------------------------------------------
  // Properties of a report

  lemma {:induction false} RegionBlockNamesCount(region: Region, indices: seq<nat>)
    requires IndicesInRange(region, indices)
    ensures |RegionBlockNames(region, indices)| == TotalSize(region, indices)
  {
    if indices != [] {
      RegionBlockNamesCount(region, indices[..|indices| - 1]);
    }
  }

  /** The breakdown of a region: its names are the distinct block names
      written, each with the number of block lines carrying it (so at least
      one), its counts add up to the region's total size, it is ordered by
      non-increasing count, and it is a permutation of the counting
      dictionary in which equal counts keep their first-insertion order. */
  lemma BreakdownCorrect(region: Region, indices: seq<nat>)
    requires IndicesInRange(region, indices)
    ensures var names := RegionBlockNames(region, indices);
      var b := Breakdown(region, indices);
      && Distinct(Names(b))
      && (forall n :: n in Names(b) <==> n in names)
      && (forall j :: 0 <= j < |b| ==> b[j].count == Occurrences(names, b[j].name) && b[j].count >= 1)
      && SumCounts(b) == TotalSize(region, indices)
      && NonIncreasing(b)
      && multiset(b) == multiset(TallyOf(names))
      && (forall c :: WithCount(b, c) == WithCount(TallyOf(names), c))
  {
    var names := RegionBlockNames(region, indices);
    var t := TallyOf(names);
    var b := Breakdown(region, indices);
    TallyWellFormed(names);
    TallyCountsOccurrences(names);
    TallySum(names);
    RegionBlockNamesCount(region, indices);
    SortByCountDescendingCorrect(t);
    SortKeepsSum(t);
    forall j | 0 <= j < |b| ensures b[j].count == Occurrences(names, b[j].name) && b[j].count >= 1 {
      assert b[j] in multiset(t);
      var i :| 0 <= i < |t| && t[i] == b[j];
    }
    SortKeepsNames(t);
  }

  lemma {:induction false} LinesOfIndex<T>(xs: seq<T>, line: T -> string)
    ensures forall i :: 0 <= i < |xs| ==> LinesOf(xs, line)[i] == line(xs[i])
  {
    if xs != [] {
      var k := |xs| - 1;
      LinesOfIndex(xs[..k], line);
      assert forall i :: 0 <= i < k ==> xs[..k][i] == xs[i];
    }
  }

  lemma BlockLinesIndex(bs: seq<DungeonBlock>)
    ensures forall i :: 0 <= i < |bs| ==> BlockLines(bs)[i] == BlockLine(bs[i])
  {
    LinesOfIndex(bs, BlockLine);
  }

  /** The layout of a dungeon's section: its name line, a type line that
      reads back as its dungeon type, a size line whose number reads back as
      the block count, then block i's
      line at position 3 + i, and a closing blank line. */
  lemma DungeonSectionLayout(loc: Location)
    ensures var lines := DungeonSection(loc);
      && |lines| == |loc.blocks| + 4
      && lines[0] == "Dungeon: " + loc.name
      && lines[1] == "Type: " + GetDungeonTypeName(loc.dungeonType, loc.discovered)
      && lines[1][..6] == "Type: "
      && DungeonTypeOfName(lines[1][6..]) == (if loc.dungeonType == NoDungeon then None else Some(loc.dungeonType))
      && lines[2][..12] == "Total Size: " && ParseInt(lines[2][12..]) == Some(|loc.blocks|)
      && (forall i :: 0 <= i < |loc.blocks| ==> lines[3 + i] == BlockLine(loc.blocks[i]))
      && lines[|loc.blocks| + 3] == ""
  {
    var header, blocks := DungeonHeader(loc), BlockLines(loc.blocks);
    BlockLinesIndex(loc.blocks);
    DungeonHeaderReadsBack(loc);
    Framed(header, blocks, "");
  }

  /** Where the parts of a framed sequence land. */
  lemma Framed<T>(head: seq<T>, body: seq<T>, last: T)
    ensures var s := head + body + [last];
      && |s| == |head| + |body| + 1
      && (forall i :: 0 <= i < |head| ==> s[i] == head[i])
      && (forall i :: 0 <= i < |body| ==> s[|head| + i] == body[i])
      && s[|head| + |body|] == last
  {
  }

  lemma DungeonHeaderReadsBack(loc: Location)
    ensures var header := DungeonHeader(loc);
      && |header| == 3
      && header[0] == "Dungeon: " + loc.name
      && header[1] == "Type: " + GetDungeonTypeName(loc.dungeonType, loc.discovered)
      && header[1][..6] == "Type: "
      && DungeonTypeOfName(header[1][6..]) == (if loc.dungeonType == NoDungeon then None else Some(loc.dungeonType))
      && header[2][..12] == "Total Size: " && ParseInt(header[2][12..]) == Some(|loc.blocks|)
  {
    TagSplits("Type: ", GetDungeonTypeName(loc.dungeonType, loc.discovered));
    DungeonTypeNameRoundTrip(loc.dungeonType, loc.discovered);
    LabelledNumberReadsBack("Total Size: ", |loc.blocks|);
    assert |"Type: "| == 6 && |"Total Size: "| == 12;
  }

  // ---------------------------------------------------------------------
  // Writing the reports

  lemma BlocksStep(bs: seq<DungeonBlock>, k: nat)
    requires k < |bs|
    ensures BlockLines(bs[..k + 1]) == BlockLines(bs[..k]) + [BlockLine(bs[k])]
    ensures BlockNames(bs[..k + 1]) == BlockNames(bs[..k]) + [bs[k].blockName]
  {
    assert bs[..k + 1][..k] == bs[..k];
  }

  lemma BreakdownLinesStep(es: seq<Entry>, j: nat)
    requires j < |es|
    ensures BreakdownLines(es[..j + 1]) == BreakdownLines(es[..j]) + [BreakdownLine(es[j])]
  {
    assert es[..j + 1][..j] == es[..j];
  }

  lemma SectionsStep(region: Region, indices: seq<nat>, r: nat)
    requires IndicesInRange(region, indices) && r < |indices|
    ensures DungeonSections(region, indices[..r + 1])
      == DungeonSections(region, indices[..r]) + DungeonSection(region.locations[indices[r]])
    ensures RegionBlockNames(region, indices[..r + 1])
      == RegionBlockNames(region, indices[..r]) + BlockNames(region.locations[indices[r]].blocks)
  {
    assert indices[..r + 1][..r] == indices[..r];
  }

  /** Renders one dungeon's section, counting each of its blocks. */
  method WriteDungeon(loc: Location, tally: BlockTally) returns (lines: seq<string>)
    requires tally.Valid()
    modifies tally
    ensures lines == DungeonSection(loc)
    ensures tally.Valid() && tally.counted == old(tally.counted) + BlockNames(loc.blocks)
  {
    var blockLines := WriteBlocks(loc.blocks, tally);
    lines := DungeonHeader(loc) + blockLines + [""];
  }

  /** The block loop of a dungeon: one line per block, each block's name
      counted as it is written. */
  method WriteBlocks(blocks: seq<DungeonBlock>, tally: BlockTally) returns (blockLines: seq<string>)
    requires tally.Valid()
    modifies tally
    ensures blockLines == BlockLines(blocks)
    ensures tally.Valid() && tally.counted == old(tally.counted) + BlockNames(blocks)
  {
    blockLines := [];
    for k := 0 to |blocks|
      invariant tally.Valid()
      invariant blockLines == BlockLines(blocks[..k])
      invariant tally.counted == old(tally.counted) + BlockNames(blocks[..k])
    {
      BlocksStep(blocks, k);
      var block := blocks[k];
      tally.Add(block.blockName);
      blockLines := blockLines + [BlockLine(block)];
    }
    assert blocks[..|blocks|] == blocks;
  }

  /** Renders the breakdown lines of a dictionary. */
  method WriteBreakdown(entries: seq<Entry>) returns (lines: seq<string>)
    ensures lines == BreakdownLines(SortByCountDescending(entries))
  {
    var sortedDict := SortByCountDescending(entries);
    lines := [];
    for j := 0 to |sortedDict|
      invariant lines == BreakdownLines(sortedDict[..j])
    {
      BreakdownLinesStep(sortedDict, j);
      lines := lines + [sortedDict[j].name + ":  " + IntToString(sortedDict[j].count)];
    }
    assert sortedDict[..|sortedDict|] == sortedDict;
  }

  /** Renders one region's dungeon report, counting every block into the
      dictionary and clearing it at the end, as the region loop does. */
  method WriteDungeonRegion(region: Region, indices: seq<nat>, tally: BlockTally) returns (lines: seq<string>)
    requires IndicesInRange(region, indices)
    requires tally.Valid() && tally.counted == []
    modifies tally
    ensures lines == DungeonReportLines(region, indices)
    ensures tally.Valid() && tally.counted == []
  {
    var sections := [];
    for r := 0 to |indices|
      invariant tally.Valid()
      invariant sections == DungeonSections(region, indices[..r])
      invariant tally.counted == RegionBlockNames(region, indices[..r])
    {
      SectionsStep(region, indices, r);
      var section := WriteDungeon(region.locations[indices[r]], tally);
      sections := sections + section;
    }
    assert indices[..|indices|] == indices;
    var breakdown := WriteBreakdown(tally.entries);
    lines := ["Region: " + region.name, ""] + sections + BreakdownHeading + breakdown + ReportEnd;
    tally.Clear();
  }

  /** The whole dungeon command: scan the 62 regions, then write one report
      per selected region, sharing one dictionary that is empty whenever a
      region starts. */
  method ScrapeAllDungeonInfo(catalogue: seq<Region>) returns (reports: seq<RegionReport>)
    requires |catalogue| == RegionCount
    ensures reports == RegionReports(catalogue, SelectedRegions(catalogue, Dungeons, RegionCount), DungeonRegionReport)
  {
    var validRegionIndexes, grabBag := ScanRegions(catalogue, Dungeons);
    var blockCountingList := new BlockTally();
    reports := [];
    for n := 0 to |validRegionIndexes|
      invariant blockCountingList.Valid() && blockCountingList.counted == []
      invariant reports == RegionReports(catalogue, validRegionIndexes[..n], DungeonRegionReport)
    {
      RegionReportsStep(catalogue, validRegionIndexes, DungeonRegionReport, n);
      var p := validRegionIndexes[n];
      var region := catalogue[p];
      GrabBagLookup(catalogue, Dungeons, validRegionIndexes, n);
      var foundIndices := grabBag[p];
      var lines := WriteDungeonRegion(region, foundIndices, blockCountingList);
      reports := reports + [RegionReport(region.name, lines)];
    }
    assert validRegionIndexes[..|validRegionIndexes|] == validRegionIndexes;
  }

  // ---------------------------------------------------------------------
  // A worked example: one region holding one undiscovered mine of two
  // blocks with the same name.

  const ExampleMine: Location :=
    Location("Example Mine", DungeonKeep, Mine, false,
             [DungeonBlock("BLOCK_A", 1, 2), DungeonBlock("BLOCK_A", 3, 4)], [])

  const ExampleHamlet: Location := Location("Example Hamlet", TownHamlet, NoDungeon, true, [], [])

  /** A region whose first location is the mine and whose second is a
      settlement, which the dungeon scan passes over. */
  const ExampleRegion: Region := Region("TestRegion", [ExampleMine, ExampleHamlet])

  lemma ExampleBlockLines()
    ensures BlockLines(ExampleMine.blocks) == ["BLOCK_A,   X:1, Z:2", "BLOCK_A,   X:3, Z:4"]
    ensures BlockNames(ExampleMine.blocks) == ["BLOCK_A", "BLOCK_A"]
  {
    var bs := ExampleMine.blocks;
    assert bs[..1] == [bs[0]];
    assert bs[..1][..0] == [];
    assert IntToString(1) == "1" && IntToString(2) == "2";
    assert IntToString(3) == "3" && IntToString(4) == "4";
    assert BlockLine(bs[0]) == "BLOCK_A,   X:1, Z:2";
    assert BlockLine(bs[1]) == "BLOCK_A,   X:3, Z:4";
    assert BlockLines(bs[..1]) == ["BLOCK_A,   X:1, Z:2"];
    assert BlockNames(bs[..1]) == ["BLOCK_A"];
  }

  lemma ExampleBreakdown()
    ensures RegionBlockNames(ExampleRegion, [0]) == ["BLOCK_A", "BLOCK_A"]
    ensures Breakdown(ExampleRegion, [0]) == [Entry("BLOCK_A", 2)]
  {
    ExampleBlockLines();
    assert [0][..0] == [];
    assert ExampleRegion.locations[0] == ExampleMine;
    var names := RegionBlockNames(ExampleRegion, [0]);
    assert names == RegionBlockNames(ExampleRegion, []) + BlockNames(ExampleMine.blocks);
    assert names == ["BLOCK_A", "BLOCK_A"];
    assert names[..1] == ["BLOCK_A"];
    assert names[..1][..0] == [];
    assert TallyOf(["BLOCK_A"]) == [Entry("BLOCK_A", 1)];
    assert IndexOfName([Entry("BLOCK_A", 1)], "BLOCK_A") == 0;
    assert TallyOf(names) == [Entry("BLOCK_A", 2)];
    var t := [Entry("BLOCK_A", 2)];
    assert t[1..] == [];
    assert SortByCountDescending(t) == InsertByCount(t[0], []);
  }

  lemma ExampleSection()
    ensures DungeonSections(ExampleRegion, [0]) == [
      "Dungeon: Example Mine", "Type: Mine", "Total Size: 2",
      "BLOCK_A,   X:1, Z:2", "BLOCK_A,   X:3, Z:4", ""]
  {
    ExampleBlockLines();
    assert [0][..0] == [];
    assert ExampleRegion.locations[0] == ExampleMine;
    assert DungeonSections(ExampleRegion, [0]) == DungeonSections(ExampleRegion, []) + DungeonSection(ExampleMine);
    assert |ExampleMine.blocks| == 2;
    assert IntToString(2) == "2";
    assert ExampleMine.dungeonType == Mine && !ExampleMine.discovered;
    assert GetDungeonTypeName(Mine, false) == "Mine";
    assert "Dungeon: " + ExampleMine.name == "Dungeon: Example Mine";
    assert "Type: " + GetDungeonTypeName(Mine, false) == "Type: Mine";
    assert "Total Size: " + IntToString(2) == "Total Size: 2";
    assert DungeonHeader(ExampleMine) == ["Dungeon: Example Mine", "Type: Mine", "Total Size: 2"];
  }

  /** The report of a region holding one undiscovered mine of two blocks
      with the same name: the mine is named and typed "Mine" (the discovered
      flag only matters for cemeteries), every block is listed, and the
      breakdown counts the shared name twice. */
  lemma ExampleReport()
    ensures DungeonReportLines(ExampleRegion, [0]) == [
      "Region: TestRegion", "",
      "Dungeon: Example Mine", "Type: Mine", "Total Size: 2",
      "BLOCK_A,   X:1, Z:2", "BLOCK_A,   X:3, Z:4", "",
      "", "", "Block Count Breakdown For This Region:", "",
      "BLOCK_A:  2",
      "", "END"]
  {
    ExampleSection();
    ExampleBreakdown();
    var es := [Entry("BLOCK_A", 2)];
    assert es[..0] == [];
    assert IntToString(2) == "2";
    assert BreakdownLine(es[0]) == "BLOCK_A:  2";
    assert BreakdownLines(es) == ["BLOCK_A:  2"];
    assert "Region: " + ExampleRegion.name == "Region: TestRegion";
    assert BreakdownHeading + BreakdownLines(es) + ReportEnd == [
      "", "", "Block Count Breakdown For This Region:", "", "BLOCK_A:  2", "", "END"];
  }

  /** The dungeon scan picks the mine and not the hamlet; the settlement
      scan picks the hamlet. */
  lemma ExampleIndices()
    ensures MatchingIndices(ExampleRegion.locations, Dungeons) == [0]
    ensures MatchingIndices(ExampleRegion.locations, Settlements) == [1]
  {
    var locs := ExampleRegion.locations;
    assert locs[..0] == [] && locs[..2] == locs;
    assert locs[0].locationType == DungeonKeep && locs[1].locationType == TownHamlet;
    MatchingIndicesStep(locs, Dungeons, 0);
    MatchingIndicesStep(locs, Dungeons, 1);
    MatchingIndicesStep(locs, Settlements, 0);
    MatchingIndicesStep(locs, Settlements, 1);
  }

  /** The whole report of the example region, from the classifier on. */
  lemma ExampleRegionReport()
    ensures DungeonRegionReport(ExampleRegion) == RegionReport("TestRegion", [
      "Region: TestRegion", "",
      "Dungeon: Example Mine", "Type: Mine", "Total Size: 2",
      "BLOCK_A,   X:1, Z:2", "BLOCK_A,   X:3, Z:4", "",
      "", "", "Block Count Breakdown For This Region:", "",
      "BLOCK_A:  2",
      "", "END"])
  {
    ExampleIndices();
    ExampleReport();
  }
}
