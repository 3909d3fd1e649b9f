/** The file-level page (src/app/dashboard/file/page.tsx): the four
    File/Facets count pairs, the balanced verdict and scorecard badges, the
    error text, the mismatch breakdown and the balanced-vs-unmatched pie. */
module FilePage {
  import opened FileData
  import opened Arith

  /** One bar of a File-vs-Facets chart. */
  datatype CountRow = CountRow(category: string, file: nat, facets: nat)

  /** The four count pairs, in the page's order. */
  function GroupedCounts(f: FileRecord): (rows: seq<CountRow>)
    ensures |rows| == 4
    ensures rows[0] == CountRow("Total", f.fileCount, f.facetsCount)
    ensures rows[1] == CountRow("Active", f.activeFile, f.activeFacets)
    ensures rows[2] == CountRow("Termed", f.termedFile, f.termedFacets)
    ensures rows[3] == CountRow("Future", f.futureFile, f.futureFacets)
  {
    [ CountRow("Total", f.fileCount, f.facetsCount),
      CountRow("Active", f.activeFile, f.activeFacets),
      CountRow("Termed", f.termedFile, f.termedFacets),
      CountRow("Future", f.futureFile, f.futureFacets) ]
  }

  /** `groupedCounts.every(row => row.File === row.Facets)`. */
  predicate IsBalanced(f: FileRecord)
    ensures IsBalanced(f) ==> f.fileCount == f.facetsCount && f.activeFile == f.activeFacets
    ensures f.fileCount != f.facetsCount ==> !IsBalanced(f)
  {
    var rows := GroupedCounts(f);
    forall i :: 0 <= i < |rows| ==> rows[i].file == rows[i].facets
  }

  /** Balanced exactly when each of the four File counts equals its Facets
      count. */
  lemma BalancedIffAllPairsEqual(f: FileRecord)
    ensures IsBalanced(f) <==>
              && f.fileCount == f.facetsCount
              && f.activeFile == f.activeFacets
              && f.termedFile == f.termedFacets
              && f.futureFile == f.futureFacets
  {
    var rows := GroupedCounts(f);
    if IsBalanced(f) {
      assert rows[0].file == rows[0].facets && rows[1].file == rows[1].facets;
      assert rows[2].file == rows[2].facets && rows[3].file == rows[3].facets;
    } else {
      var i :| 0 <= i < |rows| && rows[i].file != rows[i].facets;
      assert i == 0 || i == 1 || i == 2 || i == 3;
    }
  }

  datatype BadgeColor = Green | Red

  datatype Badge = Badge(colorScheme: BadgeColor, text: string)

  /** A scorecard row's badge. */
  function ScorecardBadge(row: CountRow): (b: Badge)
    ensures b.text == "Balanced" <==> row.file == row.facets
    ensures b.colorScheme == Green <==> b.text == "Balanced"
    ensures row.file != row.facets ==> b == Badge(Red, "Mismatch")
  {
    if row.file == row.facets then Badge(Green, "Balanced") else Badge(Red, "Mismatch")
  }

  /** The "Balanced" tile says "Yes" exactly when every scorecard badge reads
      "Balanced". */
  lemma TileAgreesWithScorecard(f: FileRecord)
    ensures BalancedTile(f) == "Yes" <==>
              forall i :: 0 <= i < 4 ==> ScorecardBadge(GroupedCounts(f)[i]).text == "Balanced"
  {
  }

  function BalancedTile(f: FileRecord): (s: string)
    ensures s == "Yes" <==> IsBalanced(f)
    ensures s == "No" <==> !IsBalanced(f)
  {
    if IsBalanced(f) then "Yes" else "No"
  }

  /** The error panel's text: the description, or a fixed default when it is
      empty. */
  function ErrorText(description: string): (s: string)
    ensures |s| > 0
    ensures description != "" ==> s == description
    ensures description == "" ==> s == "No errors reported."
  {
    if description == "" then "No errors reported." else description
  }

  // ---------------------------------------------------------------------
  // Mismatch breakdown and pie

  /** `mismatchReason.reduce((acc, r) => acc + r.count, 0)`. */
  function UnmatchedCount(reasons: seq<MismatchReason>): (n: nat)
    ensures |reasons| == 0 ==> n == 0
    ensures forall i :: 0 <= i < |reasons| ==> reasons[i].count <= n
  {
    if |reasons| == 0 then 0
    else
      var init := reasons[..|reasons| - 1];
      assert forall i :: 0 <= i < |init| ==> init[i] == reasons[i];
      UnmatchedCount(init) + reasons[|reasons| - 1].count
  }

  /** The unmatched count is additive over concatenated reason lists. */
  lemma {:induction false} UnmatchedCountAppend(a: seq<MismatchReason>, b: seq<MismatchReason>)
    ensures UnmatchedCount(a + b) == UnmatchedCount(a) + UnmatchedCount(b)
  {
    if |b| == 0 {
      assert a + b == a;
    } else {
      var b' := b[..|b| - 1];
      assert (a + b)[..|a + b| - 1] == a + b';
      UnmatchedCountAppend(a, b');
    }
  }

  /** The breakdown chart: one bar per reason, in order, with the reason's
      count on the File side and 0 on the Facets side. */
  function MismatchRows(reasons: seq<MismatchReason>): (rows: seq<CountRow>)
    ensures |rows| == |reasons|
    ensures forall i :: 0 <= i < |rows| ==>
              rows[i] == CountRow(reasons[i].category, reasons[i].count, 0)
  {
    if |reasons| == 0 then []
    else [CountRow(reasons[0].category, reasons[0].count, 0)] + MismatchRows(reasons[1..])
  }

  /** The breakdown's File column adds up to the unmatched count. */
  lemma {:induction false} MismatchRowsTotal(reasons: seq<MismatchReason>)
    ensures FileColumnTotal(MismatchRows(reasons)) == UnmatchedCount(reasons)
  {
    if |reasons| > 0 {
      var n := |reasons| - 1;
      MismatchRowsTotal(reasons[..n]);
      var rows := MismatchRows(reasons);
      assert rows[..n] == MismatchRows(reasons[..n]);
    }
  }

  function FileColumnTotal(rows: seq<CountRow>): nat
  {
    if |rows| == 0 then 0 else FileColumnTotal(rows[..|rows| - 1]) + rows[|rows| - 1].file
  }

  /** The breakdown and pie section is rendered only for a nonempty list. */
  predicate ShowsMismatchSection(f: FileRecord)
    ensures !ShowsMismatchSection(f) ==> UnmatchedCount(f.mismatchReason) == 0
  {
    |f.mismatchReason| > 0
  }

  /** A positive unmatched count always comes with the section shown, and the
      section shows exactly when there are bars to draw. */
  lemma MismatchSectionShown(f: FileRecord)
    ensures UnmatchedCount(f.mismatchReason) > 0 ==> ShowsMismatchSection(f)
    ensures ShowsMismatchSection(f) <==> |MismatchRows(f.mismatchReason)| > 0
  {
  }

  /** The pie's series: facets on the "Balanced" slice, the unmatched count on
      the "Unmatched" one. */
  function PieSeries(f: FileRecord): (series: seq<nat>)
    ensures |series| == 2
    ensures series[0] == f.facetsCount && series[1] == UnmatchedCount(f.mismatchReason)
  {
    [f.facetsCount, UnmatchedCount(f.mismatchReason)]
  }

  /** The pie's "Total" label, `series.reduce((a, b) => a + b, 0)`, is
      facets plus unmatched. */
  lemma PieTotal(f: FileRecord)
    ensures Total(PieSeries(f)) == f.facetsCount + UnmatchedCount(f.mismatchReason)
  {
    var s := PieSeries(f);
    assert s[..1][..0] == [];
    assert s[..2][..1] == s[..1];
    assert s[..2] == s;
  }

  // ---------------------------------------------------------------------
  // The page's inline data (its reasons carry only a category and a count)

  const F001 := FileRecord("F001", "Client A", "2024-12-01",
    5800, 5000, 5000, 4000, 500, 500, 500, 500, 12, "Missing DOB, Invalid Plan",
    [MismatchReason("Not in Facets", 120, 0, ""), MismatchReason("Not in File", 80, 0, "")],
    "Processed")

  const F002 := FileRecord("F002", "Client B", "2024-12-05",
    6000, 6000, 4500, 4500, 800, 800, 700, 700, 0, "", [], "Processed")

  const F003 := FileRecord("F003", "Client C", "2024-12-10",
    5200, 5200, 4100, 4100, 600, 600, 500, 500, 0, "", [], "Processed")

  const Files: seq<FileRecord> := [F001, F002, F003]

  /** F001 is a mismatch (5800 in the file against 5000 in Facets) with 200
      unmatched records; F002 and F003 balance and show no breakdown. */
  lemma InlineFiles()
    ensures !IsBalanced(F001) && BalancedTile(F001) == "No"
    ensures UnmatchedCount(F001.mismatchReason) == 200
    ensures Total(PieSeries(F001)) == 5200
    ensures ShowsMismatchSection(F001)
    ensures IsBalanced(F002) && IsBalanced(F003)
    ensures !ShowsMismatchSection(F002) && !ShowsMismatchSection(F003)
    ensures ErrorText(F002.errorDescription) == "No errors reported."
  {
    BalancedIffAllPairsEqual(F001);
    BalancedIffAllPairsEqual(F002);
    BalancedIffAllPairsEqual(F003);
    var r := F001.mismatchReason;
    assert r[..1][..0] == [];
    assert r[..2][..1] == r[..1];
    assert r[..2] == r;
    PieTotal(F001);
  }
}
