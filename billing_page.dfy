/** The billing page (src/app/dashboard/billing/page.tsx): per-period
    totals, signed percentage differences rounded to two decimals, the
    balanced tag, the difference trends, the members-billed and amount
    indicators and the auto-insight note. */
module BillingPage {
  import opened Arith

  /** One view (monthly or weekly) of a billing record: parallel arrays,
      one entry per period. */
  datatype PeriodData = PeriodData(
    periods: seq<string>,
    facetsMembers: seq<nat>,
    selfMembers: seq<nat>,
    facetsAmount: seq<nat>,
    selfAmount: seq<nat>)

  datatype View = Monthly | Weekly

  datatype BillingRecord = BillingRecord(
    client: string,
    lob: string,
    billingType: string,
    monthly: PeriodData,
    weekly: PeriodData)

  function ViewOf(rec: BillingRecord, view: View): PeriodData
  {
    match view
    case Monthly => rec.monthly
    case Weekly => rec.weekly
  }

  // ---------------------------------------------------------------------
  // Signed percentage differences

  /** `(facets - self) / facets * 100`, for a positive facets total. */
  function PercentDiff(facets: nat, self: nat): (p: real)
    requires facets > 0
    ensures p < 0.0 <==> self > facets
    ensures p == 0.0 <==> self == facets
    ensures p > 0.0 <==> self < facets
    ensures p <= 100.0
    ensures p == 100.0 <==> self == 0
  {
    var p := (facets - self) as real / facets as real * 100.0;
    PercentSign(facets, self);
    p
  }

  /** q = (F - S) / F has q * F = F - S, so q's sign is that of F - S and
      q <= 1 always. */
  lemma PercentSign(facets: nat, self: nat)
    requires facets > 0
    ensures var q := (facets - self) as real / facets as real;
            && (q < 0.0 <==> self > facets)
            && (q == 0.0 <==> self == facets)
            && q <= 1.0
            && (q == 1.0 <==> self == 0)
  {
    var F := facets as real;
    var q := (facets - self) as real / F;
    assert q * F == (facets - self) as real;
    ProductOrder(q, 0.0, F);
    ProductOrder(0.0, q, F);
    ProductOrder(q, 1.0, F);
    ProductOrder(1.0, q, F);
  }

  /** `Number(x.toFixed(2))` on exact reals: the nearest multiple of 0.01,
      ties rounded away from zero. */
  function Round2(x: real): (r: real)
    ensures (r * 100.0).Floor as real == r * 100.0
    ensures x >= 0.0 ==> r >= 0.0
    ensures x < 0.0 ==> r <= 0.0
  {
    var n := if x >= 0.0 then (100.0 * x + 0.5).Floor else -(-100.0 * x + 0.5).Floor;
    Hundredths(n);
    n as real / 100.0
  }

  lemma Hundredths(n: int)
    ensures (n as real / 100.0 * 100.0).Floor == n
  {
    assert n as real / 100.0 * 100.0 == n as real;
  }

  /** The rounding moves a value by at most half a hundredth and keeps its
      sign. */
  lemma Round2Close(x: real)
    ensures x - 0.005 < Round2(x) <= x + 0.005 || x < 0.0
    ensures x < 0.0 ==> x - 0.005 <= Round2(x) < x + 0.005
    ensures x >= 0.0 ==> Round2(x) >= 0.0
    ensures x < 0.0 ==> Round2(x) <= 0.0
  {
    if x >= 0.0 {
      var y := 100.0 * x + 0.5;
      assert y.Floor as real <= y < y.Floor as real + 1.0;
    } else {
      var y := -100.0 * x + 0.5;
      assert y.Floor as real <= y < y.Floor as real + 1.0;
    }
  }

  /** A rounded value is below 2 exactly when the unrounded one is below
      1.995: 1.995 itself rounds up to 2.00. */
  lemma Round2Below2(x: real)
    ensures Round2(x) < 2.0 <==> x < 1.995
  {
    if x >= 0.0 {
      var y := 100.0 * x + 0.5;
      var n := y.Floor;
      assert n as real <= y < n as real + 1.0;
      assert Round2(x) < 2.0 <==> n < 200;
    } else {
      Round2Close(x);
    }
  }

  /** The page's `isBalanced`: both rounded differences below 2. */
  predicate IsBalanced(d: PeriodData)
    requires Total(d.facetsMembers) > 0 && Total(d.facetsAmount) > 0
    ensures IsBalanced(d) <==>
              && 20000 * Total(d.selfMembers) > 19601 * Total(d.facetsMembers)
              && 20000 * Total(d.selfAmount) > 19601 * Total(d.facetsAmount)
  {
    PercentBelowThreshold(Total(d.facetsMembers), Total(d.selfMembers));
    PercentBelowThreshold(Total(d.facetsAmount), Total(d.selfAmount));
    && Round2(PercentDiff(Total(d.facetsMembers), Total(d.selfMembers))) < 2.0
    && Round2(PercentDiff(Total(d.facetsAmount), Total(d.selfAmount))) < 2.0
  }

  /** One rounded difference is below 2 exactly when the shortfall is below
      1.995% of facets, an integer comparison. */
  lemma PercentBelowThreshold(facets: nat, self: nat)
    requires facets > 0
    ensures Round2(PercentDiff(facets, self)) < 2.0 <==> 20000 * (facets - self) < 399 * facets
  {
    var F := facets as real;
    var q := (facets - self) as real / F;
    assert PercentDiff(facets, self) == q * 100.0;
    var D := (facets - self) as real;
    Round2Below2(q * 100.0);
    assert q * 100.0 < 1.995 <==> q < 0.01995;
    assert q * F == D;
    ScaledBelow(q, 0.01995, F, D);
    assert D < 0.01995 * F <==> 20000.0 * D < 399.0 * F;
    assert 20000.0 * D < 399.0 * F <==> 20000 * (facets - self) < 399 * facets;
  }

  /** With q * F == D and F positive, q < c exactly when D < c * F. */
  lemma ScaledBelow(q: real, c: real, F: real, D: real)
    requires F > 0.0 && q * F == D
    ensures q < c <==> D < c * F
  {
    ProductOrder(c, q, F);
  }

  /** The balanced rule in integer terms, for both totals. */
  lemma BalancedRule(d: PeriodData)
    requires Total(d.facetsMembers) > 0 && Total(d.facetsAmount) > 0
    ensures var fm, sm := Total(d.facetsMembers), Total(d.selfMembers);
            var fa, sa := Total(d.facetsAmount), Total(d.selfAmount);
            IsBalanced(d) <==> 20000 * (fm - sm) < 399 * fm && 20000 * (fa - sa) < 399 * fa
  {
    PercentBelowThreshold(Total(d.facetsMembers), Total(d.selfMembers));
    PercentBelowThreshold(Total(d.facetsAmount), Total(d.selfAmount));
  }

  /** The differences are signed: billing at least the facets totals, in
      members and in amount, is always balanced, however large the excess. */
  lemma OverbillingIsBalanced(d: PeriodData)
    requires Total(d.facetsMembers) > 0 && Total(d.facetsAmount) > 0
    requires Total(d.selfMembers) >= Total(d.facetsMembers)
    requires Total(d.selfAmount) >= Total(d.facetsAmount)
    ensures IsBalanced(d)
  {
    BalancedRule(d);
  }

  // ---------------------------------------------------------------------
  // Difference trends

  /** `facets.map((f, i) => f - self[i])`; `self` must be at least as long
      (a shorter one would yield NaN entries). */
  function DiffTrend(facets: seq<nat>, self: seq<nat>): (d: seq<int>)
    requires |self| >= |facets|
    ensures |d| == |facets|
    ensures forall i :: 0 <= i < |d| ==> d[i] == facets[i] as int - self[i]
  {
    if |facets| == 0 then []
    else [facets[0] as int - self[0]] + DiffTrend(facets[1..], self[1..])
  }

  predicate AllZero(d: seq<int>)
  {
    forall i :: 0 <= i < |d| ==> d[i] == 0
  }

  /** `memberDiffTrend`: one entry per period. */
  function MemberDiffTrend(d: PeriodData): (t: seq<int>)
    requires |d.selfMembers| >= |d.facetsMembers|
    ensures |t| == |d.facetsMembers|
    ensures AllZero(t) <==> d.facetsMembers == d.selfMembers[..|d.facetsMembers|]
  {
    ZeroTrendIffSame(d.facetsMembers, d.selfMembers);
    DiffTrend(d.facetsMembers, d.selfMembers)
  }

  /** `amountDiffTrend`: one entry per period. */
  function AmountDiffTrend(d: PeriodData): (t: seq<int>)
    requires |d.selfAmount| >= |d.facetsAmount|
    ensures |t| == |d.facetsAmount|
    ensures AllZero(t) <==> d.facetsAmount == d.selfAmount[..|d.facetsAmount|]
  {
    ZeroTrendIffSame(d.facetsAmount, d.selfAmount);
    DiffTrend(d.facetsAmount, d.selfAmount)
  }

  /** A trend is all zero exactly when the two arrays agree period by
      period. */
  lemma ZeroTrendIffSame(facets: seq<nat>, self: seq<nat>)
    requires |self| >= |facets|
    ensures AllZero(DiffTrend(facets, self)) <==> facets == self[..|facets|]
  {
    var d := DiffTrend(facets, self);
    if AllZero(d) {
      assert forall i :: 0 <= i < |facets| ==> facets[i] == self[..|facets|][i];
    }
  }

  // ---------------------------------------------------------------------
  // Auto-insight note

  datatype Note = PerfectAlignment | Reducing | Spike

  /** Perfect when every difference is zero; otherwise "reducing" when the
      last member difference is below the first, compared as signed values
      (an empty member trend has neither, so the test fails); otherwise
      "spike".  The amount trend only matters for "perfect". */
  function Notes(memberDiff: seq<int>, amountDiff: seq<int>): (n: Note)
    ensures n == PerfectAlignment <==> AllZero(memberDiff) && AllZero(amountDiff)
    ensures n == Reducing ==> |memberDiff| >= 2
    ensures n == Spike ==> |memberDiff| == 0 || memberDiff[|memberDiff| - 1] >= memberDiff[0]
  {
    if AllZero(memberDiff) && AllZero(amountDiff) then PerfectAlignment
    else if |memberDiff| > 0 && memberDiff[|memberDiff| - 1] < memberDiff[0] then Reducing
    else Spike
  }

  function NoteText(n: Note): (s: string)
    ensures |s| > 0
  {
    match n
    case PerfectAlignment => "Perfect alignment between self and facets billing."
    case Reducing => "Difference is reducing – alignment improving."
    case Spike => "Recent spike in mismatch – review self billing logic."
  }

  /** The three texts differ, so the text shown names the note. */
  lemma NoteTextNamesNote(n: Note, m: Note)
    ensures NoteText(n) == NoteText(m) <==> n == m
  {
    assert |NoteText(PerfectAlignment)| == 50;
    assert |NoteText(Reducing)| == 45;
    assert |NoteText(Spike)| == 53;
  }

  /** The three notes partition the views: perfect iff self equals facets in
      every period; reducing needs at least two periods, since with one the
      last and first differences coincide. */
  lemma NotesOfView(d: PeriodData)
    requires |d.selfMembers| >= |d.facetsMembers| && |d.selfAmount| >= |d.facetsAmount|
    ensures var n := Notes(MemberDiffTrend(d), AmountDiffTrend(d));
            && (n == PerfectAlignment <==>
                  d.facetsMembers == d.selfMembers[..|d.facetsMembers|] &&
                  d.facetsAmount == d.selfAmount[..|d.facetsAmount|])
            && (n == Reducing ==> |d.facetsMembers| >= 2)
            && (n == Reducing <==>
                  && n != PerfectAlignment
                  && |d.facetsMembers| > 0
                  && d.facetsMembers[|d.facetsMembers| - 1] as int - d.selfMembers[|d.facetsMembers| - 1]
                     < d.facetsMembers[0] as int - d.selfMembers[0])
  {
    ZeroTrendIffSame(d.facetsMembers, d.selfMembers);
    ZeroTrendIffSame(d.facetsAmount, d.selfAmount);
  }

  /** A single period with any nonzero difference is always a spike. */
  lemma SinglePeriodIsSpike(memberDiff: seq<int>, amountDiff: seq<int>)
    requires |memberDiff| <= 1
    requires !(AllZero(memberDiff) && AllZero(amountDiff))
    ensures Notes(memberDiff, amountDiff) == Spike
  {
  }

  /** Only the sign-aware order of the member trend's ends matters: a trend
      going from a surplus to a larger shortfall still reads as "reducing". */
  lemma SignedComparison()
    ensures Notes([100, -300], []) == Reducing
  {
    assert [100, -300][0] != 0;
  }

  /** The endpoint rule on small trends: [5, 3, 1] is reducing, [1, 3, 5]
      a spike, [0, 0, 0] perfect. */
  lemma NarratorEndpoints()
    ensures Notes([5, 3, 1], [5, 3, 1]) == Reducing
    ensures Notes([1, 3, 5], [1, 3, 5]) == Spike
    ensures Notes([0, 0, 0], [0, 0, 0]) == PerfectAlignment
    ensures Notes([], []) == PerfectAlignment
    ensures Notes([], [7]) == Spike
  {
    assert [5, 3, 1][0] != 0;
    assert [1, 3, 5][0] != 0;
    assert [7][0] != 0;
  }

  // ---------------------------------------------------------------------
  // Indicators

  /** `totalSelfMembers / totalFacetsMembers * 100`. */
  function MembersBilledPercent(facets: nat, self: nat): (p: real)
    requires facets > 0
    ensures p >= 0.0
    ensures p <= 100.0 <==> self <= facets
  {
    var F := facets as real;
    var q := self as real / F;
    assert q * F == self as real;
    ProductOrder(0.0, q, F);
    ProductOrder(q, 1.0, F);
    q * 100.0
  }

  /** The members-billed check mark: green and a check, or orange and a
      warning. */
  datatype MemberIndicator = CheckGreen | WarningOrange

  function MembersIndicator(facets: nat, self: nat): (m: MemberIndicator)
    requires facets > 0
    ensures m == CheckGreen <==> self <= facets
  {
    if MembersBilledPercent(facets, self) <= 100.0 then CheckGreen else WarningOrange
  }

  datatype Arrow = Up | Down

  /** The self-billed amount indicator: the arrow and the colour come from
      two different comparisons. */
  datatype AmountIndicator = AmountIndicator(arrow: Arrow, green: bool)

  function AmountIndicatorOf(facets: nat, self: nat): (a: AmountIndicator)
    ensures facets > 0 ==> (a.arrow == Down <==> PercentDiff(facets, self) > 0.0)
    ensures facets > 0 ==> (a.green <==> PercentDiff(facets, self) >= 0.0)
  {
    AmountIndicator(if self >= facets then Up else Down, self <= facets)
  }

  /** The percentage printed beside the arrow is the rounded difference. A
      down arrow never sits beside a negative printed value, and a positive
      printed value always comes with a down arrow. The colour agrees with
      the printed sign the same way. A difference too small to show, such as
      Facets 100000 against 99999 self-billed, prints "0.00" beside a down
      arrow. */
  lemma AmountIndicatorShownValue(facets: nat, self: nat)
    requires facets > 0
    ensures var a := AmountIndicatorOf(facets, self);
            var shown := Round2(PercentDiff(facets, self));
            && (a.arrow == Down ==> shown >= 0.0)
            && (shown > 0.0 ==> a.arrow == Down)
            && (!a.green ==> shown <= 0.0)
            && (shown < 0.0 ==> !a.green)
  {
    if self == facets {
      assert PercentDiff(facets, self) == 0.0;
      assert Round2(0.0) == 0.0;
    }
  }

  /** Equal totals give an up arrow in green; red always comes with an up
      arrow and a down arrow always with green. */
  lemma AmountIndicatorCases(facets: nat, self: nat)
    ensures var a := AmountIndicatorOf(facets, self);
            && (self == facets <==> a.arrow == Up && a.green)
            && (!a.green ==> a.arrow == Up)
            && (a.arrow == Down ==> a.green)
            && (a.arrow == Down <==> self < facets)
            && (!a.green <==> self > facets)
  {
  }

  // ---------------------------------------------------------------------
  // The page's inline data

  const ClientA := BillingRecord("Client A", "Commercial", "Capitation",
    PeriodData(["Jan", "Feb", "Mar"], [9500, 9800, 9900], [9400, 9600, 9800],
               [190000, 195000, 198000], [185000, 293000, 197000]),
    PeriodData(["W1", "W2", "W3", "W4"], [2500, 2600, 2550, 2650], [2400, 2700, 2500, 2600],
               [50000, 52000, 51000, 53000], [49000, 52500, 50500, 52000]))

  const ClientB := BillingRecord("Client B", "Medicare", "Claims",
    PeriodData(["Jan", "Feb", "Mar"], [8500, 8800, 8900], [8400, 8500, 8800],
               [170000, 176000, 178000], [168000, 172000, 175000]),
    PeriodData(["W1", "W2", "W3", "W4"], [2200, 2300, 2150, 2250], [2100, 2250, 2100, 2200],
               [43000, 45000, 44000, 46000], [42000, 44000, 43000, 45000]))

  const ClientC := BillingRecord("Client C", "Medicaid", "Capitation",
    PeriodData(["Jan", "Feb", "Mar"], [7000, 7100, 7200], [7000, 7100, 7200],
               [140000, 142000, 144000], [140000, 142000, 144000]),
    PeriodData(["W1", "W2", "W3", "W4"], [1750, 1800, 1820, 1850], [1750, 1800, 1820, 1850],
               [35000, 36000, 36400, 37000], [35000, 36000, 36400, 37000]))

  const ClientD := BillingRecord("Client D", "Exchange", "Claims",
    PeriodData(["Jan", "Feb", "Mar"], [6000, 6200, 6100], [5900, 6000, 6000],
               [120000, 124000, 122000], [118000, 122000, 121000]),
    PeriodData(["W1", "W2", "W3", "W4"], [1500, 1550, 1520, 1530], [1450, 1500, 1500, 1500],
               [30000, 31000, 30500, 30600], [29000, 30500, 30000, 30300]))

  const BillingData: seq<BillingRecord> := [ClientA, ClientB, ClientC, ClientD]

  /** What the page's percentages and trends need of a view: positive Facets
      totals and self-billed arrays no shorter than the Facets arrays. */
  predicate WellFormed(d: PeriodData)
  {
    && Total(d.facetsMembers) > 0 && Total(d.facetsAmount) > 0
    && |d.selfMembers| >= |d.facetsMembers| && |d.selfAmount| >= |d.facetsAmount|
  }

  /** Every view of every inline record meets that, so the divisions and the
      trends are defined for every selection the page offers. */
  lemma InlineRecordsWellFormed()
    ensures forall i, v :: 0 <= i < |BillingData| ==> WellFormed(ViewOf(BillingData[i], v))
  {
    forall i, v | 0 <= i < |BillingData|
      ensures WellFormed(ViewOf(BillingData[i], v))
    {
      RecordWellFormed(BillingData[i], v);
    }
  }

  lemma RecordWellFormed(r: BillingRecord, v: View)
    requires r in BillingData
    ensures WellFormed(ViewOf(r, v))
  {
    var d := ViewOf(r, v);
    NonzeroHead(d.facetsMembers);
    NonzeroHead(d.facetsAmount);
  }

  /** A nonempty array whose first entry is positive has a positive total. */
  lemma NonzeroHead(xs: seq<nat>)
    requires |xs| > 0 && xs[0] > 0
    ensures Total(xs) > 0
  {
    assert xs[0] <= Total(xs);
  }

  /** Client C's monthly view matches period by period: perfect alignment. */
  lemma ClientCMonthlyIsPerfect()
    ensures Notes(MemberDiffTrend(ClientC.monthly), AmountDiffTrend(ClientC.monthly)) == PerfectAlignment
  {
    NotesOfView(ClientC.monthly);
  }

  /** Client A's weekly member trend is [100, -100, 50, 50]: the last
      difference is below the first, so the note reads "reducing". */
  lemma ClientAWeeklyIsReducing()
    ensures MemberDiffTrend(ClientA.weekly) == [100, -100, 50, 50]
    ensures Notes(MemberDiffTrend(ClientA.weekly), AmountDiffTrend(ClientA.weekly)) == Reducing
  {
    var t := MemberDiffTrend(ClientA.weekly);
    assert t[0] == 100 && t[1] == -100 && t[2] == 50 && t[3] == 50;
  }

  /** Client A's monthly member trend is [100, 200, 100]: equal ends, so the
      note reads "spike". */
  lemma ClientAMonthlyIsSpike()
    ensures MemberDiffTrend(ClientA.monthly) == [100, 200, 100]
    ensures Notes(MemberDiffTrend(ClientA.monthly), AmountDiffTrend(ClientA.monthly)) == Spike
  {
    var t := MemberDiffTrend(ClientA.monthly);
    assert t[0] == 100 && t[1] == 200 && t[2] == 100;
  }

  /** Client A's monthly view is balanced although its self-billed amount
      (675000) exceeds facets (583000) by far; Client D's monthly members
      (17900 of 18300, 2.19% short) make it unbalanced. */
  lemma MonthlyBalance()
    ensures Total(ClientA.monthly.facetsMembers) == 29200 && Total(ClientA.monthly.selfMembers) == 28800
    ensures Total(ClientA.monthly.facetsAmount) == 583000 && Total(ClientA.monthly.selfAmount) == 675000
    ensures IsBalanced(ClientA.monthly)
    ensures Total(ClientD.monthly.facetsMembers) == 18300 && Total(ClientD.monthly.selfMembers) == 17900
    ensures Total(ClientD.monthly.facetsAmount) == 366000
    ensures !IsBalanced(ClientD.monthly)
  {
    BalancedRule(ClientA.monthly);
    BalancedRule(ClientD.monthly);
  }
}
