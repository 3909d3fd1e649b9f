/** The home page (src/app/dashboard/home/page.tsx): the summary tiles and
    the per-client table for one month selection, the balance badge, its
    colour and the percent-difference text. */
module HomePage {
  import opened Options
  import opened ClientData
  import opened HomeSums
  import opened Arith

  /** |a - b| / b * 100, as the page computes it for a positive divisor. */
  function RawPercent(a: nat, b: nat): (r: real)
    requires b > 0
    ensures r >= 0.0
    ensures r * b as real == AbsInt(a - b) as real * 100.0
    ensures r > 2.0 <==> 50 * AbsInt(a - b) > b
    ensures r < 2.0 <==> 50 * AbsInt(a - b) < b
    ensures r <= 100.0 <==> AbsInt(a - b) <= b
  {
    var r := AbsReal((a - b) as real / b as real * 100.0);
    PercentScale(a - b, b);
    r
  }

  /** |d / b * 100| is |d| * 100 / b, compared with 2 and 100 through |d|. */
  lemma PercentScale(d: int, b: nat)
    requires b > 0
    ensures var r := AbsReal(d as real / b as real * 100.0);
            && r * b as real == AbsInt(d) as real * 100.0
            && (r > 2.0 <==> 50 * AbsInt(d) > b)
            && (r < 2.0 <==> 50 * AbsInt(d) < b)
            && (r <= 100.0 <==> AbsInt(d) <= b)
  {
    var B := b as real;
    var r := AbsReal(d as real / B * 100.0);
    var D := AbsInt(d) as real;
    ScaleProduct(d as real, B);
    assert r * B == D * 100.0;
    CompareScaled(r, D, B);
  }

  /** |x / B * 100| * B == |x| * 100 for a positive B. */
  lemma ScaleProduct(x: real, B: real)
    requires B > 0.0
    ensures AbsReal(x / B * 100.0) * B == AbsReal(x) * 100.0
  {
    var q := x / B;
    assert q * B == x;
    assert AbsReal(q * 100.0) == AbsReal(q) * 100.0;
    if q >= 0.0 {
      assert q * B >= 0.0;
      assert AbsReal(q) * B == AbsReal(x);
    } else {
      assert q * B < 0.0;
      assert AbsReal(q) * B == AbsReal(x);
    }
  }

  /** With r * B == D * 100, r against 2 and 100 is D against B / 50 and B. */
  lemma CompareScaled(r: real, D: real, B: real)
    requires B > 0.0 && r * B == D * 100.0
    ensures r > 2.0 <==> D * 50.0 > B
    ensures r < 2.0 <==> D * 50.0 < B
    ensures r <= 100.0 <==> D <= B
  {
    CompareWith(r, 2.0, D, B);
    CompareWith(r, 100.0, D, B);
  }

  /** With r * B == D * 100, comparing r with c compares D * 100 with c * B. */
  lemma CompareWith(r: real, c: real, D: real, B: real)
    requires B > 0.0 && r * B == D * 100.0
    ensures r > c <==> D * 100.0 > c * B
    ensures r < c <==> D * 100.0 < c * B
    ensures r <= c <==> D * 100.0 <= c * B
  {
    ProductOrder(r, c, B);
    ProductOrder(c, r, B);
  }

  // ---------------------------------------------------------------------
  // Summary tiles

  /** The value the unbalanced test compares with 2: 100 when nothing was
      loaded, the received-vs-loaded percent otherwise. */
  function DiffPercent(t: Totals): (r: real)
    ensures r >= 0.0
    ensures t.loaded == 0 ==> r == 100.0
  {
    if t.loaded == 0 then 100.0 else RawPercent(t.received, t.loaded)
  }

  predicate IsUnbalanced(t: Totals)
    ensures t.loaded == 0 ==> IsUnbalanced(t)
    ensures t.loaded > 0 && t.received == t.loaded ==> !IsUnbalanced(t)
  {
    DiffPercent(t) > 2.0
  }

  /** A client with nothing loaded is always unbalanced; otherwise it is
      unbalanced exactly when |received - loaded| exceeds 2% of loaded. */
  lemma UnbalancedRule(t: Totals)
    ensures t.loaded == 0 ==> IsUnbalanced(t)
    ensures t.loaded > 0 ==> (IsUnbalanced(t) <==> 50 * AbsInt(t.received - t.loaded) > t.loaded)
  {
  }

  /** Exactly 2% is not counted as unbalanced. */
  lemma ExactlyTwoPercentIsNotUnbalanced()
    ensures !IsUnbalanced(Totals(102, 100, 0))
    ensures IsUnbalanced(Totals(103, 100, 0))
  {
    UnbalancedRule(Totals(102, 100, 0));
    UnbalancedRule(Totals(103, 100, 0));
  }

  /** The tile totals, folded over the clients in order. */
  ghost function TotalOver(clients: seq<Client>, sel: MonthSelection): Totals
  {
    if |clients| == 0 then Zero
    else Add(TotalOver(clients[..|clients| - 1], sel), ClientTotals(clients[|clients| - 1].lobMonthData, sel))
  }

  /** The number of clients the unbalanced test counts. */
  ghost function UnbalancedCount(clients: seq<Client>, sel: MonthSelection): nat
  {
    if |clients| == 0 then 0
    else UnbalancedCount(clients[..|clients| - 1], sel)
         + (if IsUnbalanced(ClientTotals(clients[|clients| - 1].lobMonthData, sel)) then 1 else 0)
  }

  /** One more client folded into the tiles. */
  lemma TileStep(clients: seq<Client>, sel: MonthSelection, i: nat)
    requires i < |clients|
    ensures var t := ClientTotals(clients[i].lobMonthData, sel);
            && TotalOver(clients[..i + 1], sel) == Add(TotalOver(clients[..i], sel), t)
            && UnbalancedCount(clients[..i + 1], sel) ==
               UnbalancedCount(clients[..i], sel) + (if IsUnbalanced(t) then 1 else 0)
  {
    assert clients[..i + 1][..i] == clients[..i];
  }

  lemma {:induction false} UnbalancedCountBound(clients: seq<Client>, sel: MonthSelection)
    ensures UnbalancedCount(clients, sel) <= |clients|
  {
    if |clients| > 0 {
      UnbalancedCountBound(clients[..|clients| - 1], sel);
    }
  }

  datatype Tile = Tile(received: nat, loaded: nat, billed: nat, totalClients: nat, unbalancedClients: nat)

  /** The buckets of every month of one LOB, added up; months are visited
      in an arbitrary order. */
  method SumMonths(monthData: map<string, MonthBucket>) returns (t: Totals)
    ensures t == Sum(MonthTotals(monthData))
  {
    ghost var perMonth := MonthTotals(monthData);
    var receivedSum: nat, loadedSum: nat, billedSum: nat := 0, 0, 0;
    var months := monthData.Keys;
    ghost var done: set<string> := {};
    while months != {}
      invariant months !! done && months + done == monthData.Keys
      invariant Totals(receivedSum, loadedSum, billedSum) == Sum(Restrict(perMonth, done))
      decreases months
    {
      var month :| month in months;
      var mData := monthData[month];
      AccumulateStep(perMonth, done, month, receivedSum, loadedSum, billedSum);
      receivedSum := receivedSum + mData.received;
      loadedSum := loadedSum + mData.loaded;
      billedSum := billedSum + mData.billed;
      months := months - {month};
      done := done + {month};
    }
    RestrictAll(perMonth);
    t := Totals(receivedSum, loadedSum, billedSum);
  }

  /** "All Months": every bucket of every LOB of one client. */
  method SumAllMonths(lobMonthData: LobMonthData) returns (t: Totals)
    ensures t == Sum(LobTotalsAllMonths(lobMonthData))
  {
    ghost var perLob := LobTotalsAllMonths(lobMonthData);
    var receivedSum: nat, loadedSum: nat, billedSum: nat := 0, 0, 0;
    var lobs := lobMonthData.Keys;
    ghost var done: set<string> := {};
    while lobs != {}
      invariant lobs !! done && lobs + done == lobMonthData.Keys
      invariant Totals(receivedSum, loadedSum, billedSum) == Sum(Restrict(perLob, done))
      decreases lobs
    {
      var lob :| lob in lobs;
      var lobSums := SumMonths(lobMonthData[lob]);
      LobTotalsAllMonthsAt(lobMonthData, lob);
      AccumulateStep(perLob, done, lob, receivedSum, loadedSum, billedSum);
      receivedSum := receivedSum + lobSums.received;
      loadedSum := loadedSum + lobSums.loaded;
      billedSum := billedSum + lobSums.billed;
      lobs := lobs - {lob};
      done := done + {lob};
    }
    RestrictAll(perLob);
    t := Totals(receivedSum, loadedSum, billedSum);
  }

  /** One month: that month's bucket of each LOB that has one. */
  method SumInMonth(lobMonthData: LobMonthData, selectedMonth: string) returns (t: Totals)
    ensures t == Sum(LobTotalsInMonth(lobMonthData, selectedMonth))
  {
    ghost var perLob := LobTotalsInMonth(lobMonthData, selectedMonth);
    var receivedSum: nat, loadedSum: nat, billedSum: nat := 0, 0, 0;
    var lobs := lobMonthData.Keys;
    ghost var done: set<string> := {};
    while lobs != {}
      invariant lobs !! done && lobs + done == lobMonthData.Keys
      invariant Totals(receivedSum, loadedSum, billedSum) == Sum(Restrict(perLob, done))
      decreases lobs
    {
      var lob :| lob in lobs;
      if selectedMonth in lobMonthData[lob] {
        var mData := lobMonthData[lob][selectedMonth];
        AccumulateStep(perLob, done, lob, receivedSum, loadedSum, billedSum);
        receivedSum := receivedSum + mData.received;
        loadedSum := loadedSum + mData.loaded;
        billedSum := billedSum + mData.billed;
      } else {
        SumRestrictStep(perLob, done, lob);
      }
      lobs := lobs - {lob};
      done := done + {lob};
    }
    assert Restrict(perLob, done) == perLob;
    t := Totals(receivedSum, loadedSum, billedSum);
  }

  /** One client's (receivedSum, loadedSum, billedSum) under a selection. */
  method SumClient(lobMonthData: LobMonthData, sel: MonthSelection) returns (sums: Totals)
    ensures sums == ClientTotals(lobMonthData, sel)
  {
    if sel.AllMonths? {
      sums := SumAllMonths(lobMonthData);
    } else {
      sums := SumInMonth(lobMonthData, sel.name);
    }
  }

  /** The four summary tiles. */
  method TileData(clients: seq<Client>, sel: MonthSelection) returns (tile: Tile)
    ensures Totals(tile.received, tile.loaded, tile.billed) == TotalOver(clients, sel)
    ensures tile.totalClients == |clients|
    ensures tile.unbalancedClients == UnbalancedCount(clients, sel)
    ensures tile.unbalancedClients <= tile.totalClients
  {
    var received: nat, loaded: nat, billed: nat := 0, 0, 0;
    var totalClients, unbalancedClients := |clients|, 0;
    for i := 0 to |clients|
      invariant Totals(received, loaded, billed) == TotalOver(clients[..i], sel)
      invariant unbalancedClients == UnbalancedCount(clients[..i], sel)
    {
      var sums := SumClient(clients[i].lobMonthData, sel);
      TileStep(clients, sel, i);
      received := received + sums.received;
      loaded := loaded + sums.loaded;
      billed := billed + sums.billed;
      var diffPercent := DiffPercent(sums);
      if diffPercent > 2.0 {
        unbalancedClients := unbalancedClients + 1;
      }
    }
    assert clients[..|clients|] == clients;
    UnbalancedCountBound(clients, sel);
    tile := Tile(received, loaded, billed, totalClients, unbalancedClients);
  }

  // ---------------------------------------------------------------------
  // Table rows

  /** A percentage difference shown in the table: absent when the divisor is
      zero, capped at 100 otherwise. */
  function ClampedPercent(a: nat, b: nat): (p: Option<real>)
    ensures p.None? <==> b == 0
    ensures p.Some? ==> 0.0 <= p.value <= 100.0
    ensures p.Some? ==> (p.value > 2.0 <==> 50 * AbsInt(a - b) > b)
    ensures p.Some? && AbsInt(a - b) <= b ==> p.value == RawPercent(a, b)
    ensures p.Some? && AbsInt(a - b) > b ==> p.value == 100.0
  {
    if b == 0 then None
    else
      var raw := RawPercent(a, b);
      Some(if raw < 100.0 then raw else 100.0)
  }

  datatype TableRow = TableRow(
    id: string,
    name: string,
    received: nat,
    loaded: nat,
    billed: nat,
    recVsLoadPercent: Option<real>,
    recVsBillPercent: Option<real>)

  /** `row` is the table row the page builds for `client`. */
  ghost predicate IsRowOf(row: TableRow, client: Client, sel: MonthSelection)
  {
    var t := ClientTotals(client.lobMonthData, sel);
    && row.id == client.id
    && row.name == client.name
    && Totals(row.received, row.loaded, row.billed) == t
    && row.recVsLoadPercent == ClampedPercent(t.received, t.loaded)
    && row.recVsBillPercent == ClampedPercent(t.received, t.billed)
  }

  /** The table: one row per client, in the clients' order. */
  method TableData(clients: seq<Client>, sel: MonthSelection) returns (rows: seq<TableRow>)
    ensures |rows| == |clients|
    ensures forall i :: 0 <= i < |rows| ==> IsRowOf(rows[i], clients[i], sel)
  {
    rows := [];
    for i := 0 to |clients|
      invariant |rows| == i
      invariant forall j :: 0 <= j < i ==> IsRowOf(rows[j], clients[j], sel)
    {
      var client := clients[i];
      var sums := SumClient(client.lobMonthData, sel);
      var recVsLoadPercent := ClampedPercent(sums.received, sums.loaded);
      var recVsBillPercent := ClampedPercent(sums.received, sums.billed);
      rows := rows + [TableRow(client.id, client.name, sums.received, sums.loaded, sums.billed,
                               recVsLoadPercent, recVsBillPercent)];
    }
  }

  /** Each row's percentages: absent exactly when their divisor is zero, in
      [0, 100] otherwise. */
  lemma RowPercents(row: TableRow, client: Client, sel: MonthSelection)
    requires IsRowOf(row, client, sel)
    ensures row.recVsLoadPercent.None? <==> row.loaded == 0
    ensures row.recVsBillPercent.None? <==> row.billed == 0
    ensures row.recVsLoadPercent.Some? ==> 0.0 <= row.recVsLoadPercent.value <= 100.0
    ensures row.recVsBillPercent.Some? ==> 0.0 <= row.recVsBillPercent.value <= 100.0
  {
  }

  /** The received/loaded/billed columns added up over the rows. */
  function RowsTotal(rows: seq<TableRow>): Totals
  {
    if |rows| == 0 then Zero
    else Add(RowsTotal(rows[..|rows| - 1]), Totals(rows[|rows| - 1].received, rows[|rows| - 1].loaded, rows[|rows| - 1].billed))
  }

  /** A row the unbalanced tile counts: no loaded percent, or one above 2. */
  predicate Flagged(row: TableRow)
  {
    row.recVsLoadPercent.None? || row.recVsLoadPercent.value > 2.0
  }

  function FlaggedCount(rows: seq<TableRow>): nat
  {
    if |rows| == 0 then 0
    else FlaggedCount(rows[..|rows| - 1]) + (if Flagged(rows[|rows| - 1]) then 1 else 0)
  }

  /** The tiles agree with the table: their totals are the column sums, and
      the unbalanced count is the number of flagged rows (the cap at 100 does
      not change the "> 2" test). */
  lemma {:induction false} TilesAgreeWithTable(clients: seq<Client>, sel: MonthSelection, rows: seq<TableRow>)
    requires |rows| == |clients|
    requires forall i :: 0 <= i < |rows| ==> IsRowOf(rows[i], clients[i], sel)
    ensures TotalOver(clients, sel) == RowsTotal(rows)
    ensures UnbalancedCount(clients, sel) == FlaggedCount(rows)
  {
    if |rows| > 0 {
      var n := |rows| - 1;
      TilesAgreeWithTable(clients[..n], sel, rows[..n]);
      var t := ClientTotals(clients[n].lobMonthData, sel);
      assert IsRowOf(rows[n], clients[n], sel);
      UnbalancedRule(t);
      assert Flagged(rows[n]) <==> IsUnbalanced(t);
    }
  }

  // ---------------------------------------------------------------------
  // Badge, colour and text

  datatype Color = Gray | Green | Orange | Red

  datatype Badge = Badge(colorScheme: Color, text: string)

  /** The badge's colour scale: gray without a percent, green below 2,
      orange up to and including 5, red above. */
  function GetBadgeColor(percent: Option<real>): (c: Color)
    ensures c == Gray <==> percent.None?
    ensures c == Green <==> percent.Some? && percent.value < 2.0
    ensures c == Orange <==> percent.Some? && 2.0 <= percent.value <= 5.0
    ensures c == Red <==> percent.Some? && percent.value > 5.0
  {
    if percent.None? then Gray
    else if percent.value < 2.0 then Green
    else if percent.value <= 5.0 then Orange
    else Red
  }

  /** The "Balanced" column's badge; its colour always agrees with
      GetBadgeColor. */
  function RenderBalancedBadge(percent: Option<real>): (b: Badge)
    ensures b.colorScheme == GetBadgeColor(percent)
    ensures b.text == "N/A" <==> percent.None?
    ensures b.text == "Yes" <==> percent.Some? && percent.value < 2.0
    ensures b.text == "Partial" <==> percent.Some? && 2.0 <= percent.value <= 5.0
    ensures b.text == "No" <==> percent.Some? && percent.value > 5.0
  {
    if percent.None? then Badge(Gray, "N/A")
    else if percent.value < 2.0 then Badge(Green, "Yes")
    else if percent.value <= 5.0 then Badge(Orange, "Partial")
    else Badge(Red, "No")
  }

  /** A "Yes" badge is never counted unbalanced; a counted row shows N/A,
      Partial or No.  The converse fails at exactly 2%: Partial, not counted. */
  lemma BadgeVersusTile(row: TableRow)
    ensures RenderBalancedBadge(row.recVsLoadPercent).text == "Yes" ==> !Flagged(row)
    ensures Flagged(row) ==> RenderBalancedBadge(row.recVsLoadPercent).text in {"N/A", "Partial", "No"}
    ensures row.recVsLoadPercent == Some(2.0) ==>
              !Flagged(row) && RenderBalancedBadge(row.recVsLoadPercent).text == "Partial"
  {
  }

  /** The colour scale's boundaries: 1.999 is green, 2 and 5 are orange,
      5.001 is red. */
  lemma BadgeBoundaries()
    ensures GetBadgeColor(Some(1.999)) == Green
    ensures GetBadgeColor(Some(2.0)) == Orange && GetBadgeColor(Some(5.0)) == Orange
    ensures GetBadgeColor(Some(5.001)) == Red
    ensures GetBadgeColor(None) == Gray
  {
  }

  /** 6200 received against 6100 loaded is about 1.64%: not counted
      unbalanced, and its badge is a green "Yes". */
  lemma SmallDifferenceIsGreen()
    ensures !IsUnbalanced(Totals(6200, 6100, 0))
    ensures RenderBalancedBadge(ClampedPercent(6200, 6100)) == Badge(Green, "Yes")
  {
    UnbalancedRule(Totals(6200, 6100, 0));
  }

  /** The percent-difference cell, without its digits: "N/A", or the percent,
      the explicit sign prefix and the signed difference. */
  datatype PercentDiffText = NotAvailable | Shown(percent: real, sign: string, diff: int)

  function FormatPercentDiff(percent: Option<real>, received: int, compared: int): (t: PercentDiffText)
    ensures t == NotAvailable <==> percent.None?
    ensures t.Shown? ==> t.percent == percent.value && t.diff == received - compared
    ensures t.Shown? ==> (t.sign == "+" <==> received >= compared)
    ensures t.Shown? ==> (t.sign == "" <==> received < compared)
  {
    if percent.None? then NotAvailable
    else
      var diff := received - compared;
      var sign := if diff >= 0 then "+" else "";
      Shown(percent.value, sign, diff)
  }
}
