/** The sums the home page computes for one client: received, loaded and
    billed counters added up over the client's LOB -> month -> bucket map,
    either for one chosen month or for every month.  The specification is a
    sum over a map, which does not depend on the order in which the keys are
    visited. */
module HomeSums {
  import opened ClientData

  /** The month selector: "All Months" or one month label. */
  datatype MonthSelection = AllMonths | Month(name: string)

  /** The selector's string value as the page compares it. */
  function SelectionOf(s: string): (sel: MonthSelection)
    ensures sel.AllMonths? <==> s == "All Months"
    ensures sel.Month? ==> sel.name == s
  {
    if s == "All Months" then AllMonths else Month(s)
  }

  /** The three counters the home page accumulates. */
  datatype Totals = Totals(received: nat, loaded: nat, billed: nat)

  const Zero := Totals(0, 0, 0)

  function Add(a: Totals, b: Totals): Totals
  {
    Totals(a.received + b.received, a.loaded + b.loaded, a.billed + b.billed)
  }

  function BucketTotals(b: MonthBucket): Totals
  {
    Totals(b.received, b.loaded, b.billed)
  }

  /** The sum of the values of a map, in no particular key order. */
  ghost function Sum<K>(m: map<K, Totals>): Totals
    decreases m.Keys
  {
    if m.Keys == {} then Zero
    else
      var k :| k in m;
      Add(m[k], Sum(m - {k}))
  }

  /** Any key can be taken out first: the sum does not depend on the order
      of the keys. */
  lemma {:induction false} SumRemove<K>(m: map<K, Totals>, k: K)
    requires k in m
    ensures Sum(m) == Add(m[k], Sum(m - {k}))
    decreases m.Keys
  {
    var j :| j in m && Sum(m) == Add(m[j], Sum(m - {j}));
    if j != k {
      var mj, mk := m - {j}, m - {k};
      SumRemove(mj, k);
      SumRemove(mk, j);
      assert mj - {k} == mk - {j};
      assert mj[k] == m[k] && mk[j] == m[j];
      var rest := Sum(mj - {k});
      assert Sum(m) == Add(m[j], Add(m[k], rest));
      assert Sum(mk) == Add(m[j], rest);
      assert Add(m[j], Add(m[k], rest)) == Add(m[k], Add(m[j], rest));
    }
  }

  /** The entries of `m` whose keys are in `s`. */
  function Restrict<K, V>(m: map<K, V>, s: set<K>): (r: map<K, V>)
    ensures r.Keys == m.Keys * s
    ensures forall k :: k in r ==> r[k] == m[k]
  {
    map k | k in m && k in s :: m[k]
  }

  /** One more key visited: its value is added if it is a key of `m`, and
      nothing is added otherwise. */
  lemma SumRestrictStep<K>(m: map<K, Totals>, done: set<K>, k: K)
    requires k !in done
    ensures Sum(Restrict(m, done + {k})) ==
            if k in m then Add(Sum(Restrict(m, done)), m[k]) else Sum(Restrict(m, done))
  {
    var big := Restrict(m, done + {k});
    if k in m {
      SumRemove(big, k);
      assert big - {k} == Restrict(m, done);
    } else {
      assert big == Restrict(m, done);
    }
  }

  /** The loop step of the home page's sums: adding the value of a key not
      yet visited to the three counters gives the sum over the visited keys
      with that key added. */
  lemma AccumulateStep<K>(m: map<K, Totals>, done: set<K>, k: K, r: nat, l: nat, b: nat)
    requires k !in done && k in m
    requires Totals(r, l, b) == Sum(Restrict(m, done))
    ensures Totals(r + m[k].received, l + m[k].loaded, b + m[k].billed) == Sum(Restrict(m, done + {k}))
  {
    SumRestrictStep(m, done, k);
  }

  /** Adding a new key adds its value. */
  lemma SumInsert<K>(m: map<K, Totals>, k: K, v: Totals)
    requires k !in m
    ensures Sum(m[k := v]) == Add(v, Sum(m))
  {
    var big := m[k := v];
    SumRemove(big, k);
    assert big - {k} == m;
  }

  lemma RestrictAll<K>(m: map<K, Totals>)
    ensures Restrict(m, m.Keys) == m
  {
  }

  lemma AddShuffle(x: Totals, y: Totals, z: Totals)
    ensures Add(x, Add(y, z)) == Add(y, Add(x, z))
  {
  }

  lemma AddZero(x: Totals)
    ensures Add(x, Zero) == x
  {
  }

  lemma UnionRemoveKey<K, V>(a: map<K, V>, b: map<K, V>, k: K)
    requires a.Keys !! b.Keys && k in b
    ensures k in a + b && (a + b)[k] == b[k] && (a + b) - {k} == a + (b - {k})
  {
  }

  lemma UnionEmpty<K, V>(a: map<K, V>, b: map<K, V>)
    requires b.Keys == {}
    ensures a + b == a
  {
  }

  /** Sums are additive over maps with disjoint keys. */
  lemma {:induction false} SumUnion<K>(a: map<K, Totals>, b: map<K, Totals>)
    requires a.Keys !! b.Keys
    ensures Sum(a + b) == Add(Sum(a), Sum(b))
    decreases b.Keys
  {
    if b.Keys != {} {
      var k :| k in b;
      var b' := b - {k};
      UnionRemoveKey(a, b, k);
      SumRemove(a + b, k);
      SumUnion(a, b');
      SumRemove(b, k);
      var x, y, z := b[k], Sum(a), Sum(b');
      assert Sum(a + b) == Add(x, Sum(a + b'));
      assert Sum(a + b) == Add(x, Add(y, z));
      AddShuffle(x, y, z);
    } else {
      UnionEmpty(a, b);
      assert Sum(b) == Zero;
      AddZero(Sum(a));
    }
  }

  /** Month totals of one LOB. */
  function MonthTotals(months: map<string, MonthBucket>): (r: map<string, Totals>)
    ensures r.Keys == months.Keys
  {
    map mo | mo in months :: BucketTotals(months[mo])
  }

  /** Per-LOB totals over all of each LOB's months. */
  ghost function LobTotalsAllMonths(lmd: LobMonthData): (r: map<string, Totals>)
    ensures r.Keys == lmd.Keys
  {
    map lob | lob in lmd :: Sum(MonthTotals(lmd[lob]))
  }

  lemma LobTotalsAllMonthsAt(lmd: LobMonthData, lob: string)
    requires lob in lmd
    ensures LobTotalsAllMonths(lmd)[lob] == Sum(MonthTotals(lmd[lob]))
  {
  }

  /** Per-LOB totals for one month: only the LOBs that hold a bucket for it. */
  function LobTotalsInMonth(lmd: LobMonthData, month: string): (r: map<string, Totals>)
    ensures forall lob :: lob in r <==> lob in lmd && month in lmd[lob]
  {
    map lob | lob in lmd && month in lmd[lob] :: BucketTotals(lmd[lob][month])
  }

  /** A client's (receivedSum, loadedSum, billedSum) under a month selection. */
  ghost function ClientTotals(lmd: LobMonthData, sel: MonthSelection): Totals
  {
    match sel
    case AllMonths => Sum(LobTotalsAllMonths(lmd))
    case Month(m) => Sum(LobTotalsInMonth(lmd, m))
  }

  /** Every (LOB, month) cell of a client, keyed by the pair. */
  function CellKeys(lmd: LobMonthData): (r: set<(string, string)>)
    ensures forall p :: p in r <==> p.0 in lmd && p.1 in lmd[p.0]
  {
    set lob, mo | lob in lmd && mo in lmd[lob] :: (lob, mo)
  }

  function Cells(lmd: LobMonthData): (r: map<(string, string), Totals>)
    ensures forall p :: p in r <==> p.0 in lmd && p.1 in lmd[p.0]
    ensures forall p :: p in r ==> r[p] == BucketTotals(lmd[p.0][p.1])
  {
    map p | p in CellKeys(lmd) :: BucketTotals(lmd[p.0][p.1])
  }

  /** The cells of one LOB, keyed by (lob, month). */
  function LobCells(lob: string, months: map<string, MonthBucket>): (r: map<(string, string), Totals>)
    ensures forall p :: p in r <==> p.0 == lob && p.1 in months
    ensures forall p :: p in r ==> r[p] == BucketTotals(months[p.1])
  {
    map p | p in (set mo | mo in months :: (lob, mo)) :: BucketTotals(months[p.1])
  }

  lemma LobCellsUpdate(lob: string, months: map<string, MonthBucket>, mo: string)
    requires mo in months
    ensures (lob, mo) !in LobCells(lob, months - {mo})
    ensures LobCells(lob, months) == LobCells(lob, months - {mo})[(lob, mo) := BucketTotals(months[mo])]
  {
  }

  lemma MonthTotalsUpdate(months: map<string, MonthBucket>, mo: string)
    requires mo in months
    ensures mo !in MonthTotals(months - {mo})
    ensures MonthTotals(months) == MonthTotals(months - {mo})[mo := BucketTotals(months[mo])]
  {
  }

  lemma {:induction false} LobCellsSum(lob: string, months: map<string, MonthBucket>)
    ensures Sum(LobCells(lob, months)) == Sum(MonthTotals(months))
    decreases months.Keys
  {
    if months.Keys != {} {
      var mo :| mo in months;
      var rest := months - {mo};
      LobCellsUpdate(lob, months, mo);
      SumInsert(LobCells(lob, rest), (lob, mo), BucketTotals(months[mo]));
      MonthTotalsUpdate(months, mo);
      SumInsert(MonthTotals(rest), mo, BucketTotals(months[mo]));
      LobCellsSum(lob, rest);
    } else {
      assert LobCells(lob, months) == map[];
      assert MonthTotals(months) == map[];
    }
  }

  lemma LobTotalsAllMonthsUpdate(lmd: LobMonthData, lob: string, months: map<string, MonthBucket>)
    requires lob !in lmd
    ensures LobTotalsAllMonths(lmd[lob := months]) ==
            LobTotalsAllMonths(lmd)[lob := Sum(MonthTotals(months))]
  {
  }

  lemma LobTotalsInMonthUpdate(lmd: LobMonthData, lob: string, months: map<string, MonthBucket>, month: string)
    requires lob !in lmd
    ensures LobTotalsInMonth(lmd[lob := months], month) ==
            if month in months then LobTotalsInMonth(lmd, month)[lob := BucketTotals(months[month])]
            else LobTotalsInMonth(lmd, month)
  {
  }

  lemma CellKeysUpdate(lmd: LobMonthData, lob: string, months: map<string, MonthBucket>, p: (string, string))
    requires lob !in lmd
    ensures p in CellKeys(lmd[lob := months]) <==> p in CellKeys(lmd) || (p.0 == lob && p.1 in months)
  {
  }

  lemma CellsKeysUpdate(lmd: LobMonthData, lob: string, months: map<string, MonthBucket>)
    requires lob !in lmd
    ensures Cells(lmd[lob := months]).Keys == Cells(lmd).Keys + LobCells(lob, months).Keys
  {
    var big, small, one := Cells(lmd[lob := months]), Cells(lmd), LobCells(lob, months);
    forall p: (string, string)
      ensures p in big <==> p in small || p in one
    {
      CellKeysUpdate(lmd, lob, months, p);
    }
  }

  lemma CellsUpdate(lmd: LobMonthData, lob: string, months: map<string, MonthBucket>)
    requires lob !in lmd
    ensures Cells(lmd[lob := months]) == Cells(lmd) + LobCells(lob, months)
    ensures Cells(lmd).Keys !! LobCells(lob, months).Keys
  {
    var big, small, one := Cells(lmd[lob := months]), Cells(lmd), LobCells(lob, months);
    CellsKeysUpdate(lmd, lob, months);
    forall p | p in big
      ensures big[p] == (small + one)[p]
    {
      if p.0 == lob { assert p in one; } else { assert p in small; }
    }
  }

  /** With "All Months" a client's sums cover every (LOB, month) bucket exactly once. */
  lemma {:induction false} AllMonthsCoversEveryCell(lmd: LobMonthData)
    ensures ClientTotals(lmd, AllMonths) == Sum(Cells(lmd))
    decreases lmd.Keys
  {
    if lmd.Keys != {} {
      var lob :| lob in lmd;
      var rest := lmd - {lob};
      assert lmd == rest[lob := lmd[lob]];
      AllMonthsAddLob(rest, lob, lmd[lob]);
      CellsUpdate(rest, lob, lmd[lob]);
      SumUnion(Cells(rest), LobCells(lob, lmd[lob]));
      LobCellsSum(lob, lmd[lob]);
      AllMonthsCoversEveryCell(rest);
      var x, y := Sum(MonthTotals(lmd[lob])), Sum(Cells(rest));
      assert ClientTotals(lmd, AllMonths) == Add(x, y);
      assert Sum(Cells(lmd)) == Add(y, x);
    } else {
      assert Cells(lmd) == map[];
      assert LobTotalsAllMonths(lmd) == map[];
    }
  }

  /** For a specific month, adding a LOB with no bucket for that month changes
      nothing, and adding a LOB with one adds exactly that bucket. */
  lemma MonthSumAddLob(lmd: LobMonthData, lob: string, months: map<string, MonthBucket>, month: string)
    requires lob !in lmd
    ensures ClientTotals(lmd[lob := months], Month(month)) ==
            if month in months then Add(BucketTotals(months[month]), ClientTotals(lmd, Month(month)))
            else ClientTotals(lmd, Month(month))
  {
    LobTotalsInMonthUpdate(lmd, lob, months, month);
    if month in months {
      SumInsert(LobTotalsInMonth(lmd, month), lob, BucketTotals(months[month]));
    }
  }

  /** With "All Months", adding a LOB adds the sum of all of its months. */
  lemma AllMonthsAddLob(lmd: LobMonthData, lob: string, months: map<string, MonthBucket>)
    requires lob !in lmd
    ensures ClientTotals(lmd[lob := months], AllMonths) ==
            Add(Sum(MonthTotals(months)), ClientTotals(lmd, AllMonths))
  {
    LobTotalsAllMonthsUpdate(lmd, lob, months);
    SumInsert(LobTotalsAllMonths(lmd), lob, Sum(MonthTotals(months)));
  }
}
