/** The client page (src/app/dashboard/client/page.tsx): the balance test
    on one client's source and Facets member counts, the signed difference,
    the membership tile, the "Balanced" tile's label and the pie data. */
module ClientPage {

  /** The fields of the page's inline client records that its tiles and
      pie read; the chart series are left out. */
  datatype ClientSummary = ClientSummary(
    name: string,
    id: string,
    lob: string,
    source: nat,
    facets: nat,
    unbalanced: nat)

  /** Balanced means exact equality, with no tolerance. */
  predicate IsBalanced(c: ClientSummary)
    ensures IsBalanced(c) <==> MembershipCount(c) == 2 * c.source
    ensures IsBalanced(c) <==> MembershipCount(c) == 2 * c.facets
  {
    c.source == c.facets
  }

  /** `source - facets`, signed. */
  function Diff(c: ClientSummary): (d: int)
    ensures d == 0 <==> IsBalanced(c)
    ensures d > 0 <==> c.source > c.facets
    ensures c.facets + d == c.source
  {
    c.source - c.facets
  }

  /** The "Membership Count" tile: both counts added together. */
  function MembershipCount(c: ClientSummary): (n: nat)
    ensures n >= c.source && n >= c.facets
  {
    c.source + c.facets
  }

  // ---------------------------------------------------------------------
  // Decimal text of an integer, as a template literal prints it

  function DigitChar(d: nat): (c: char)
    requires d < 10
    ensures '0' <= c <= '9'
  {
    "0123456789"[d]
  }

  function DigitValue(c: char): nat
  {
    if '0' <= c <= '9' then (c - '0') as nat else 0
  }

  /** Decimal digits of `n`, most significant first, without leading zeros. */
  function NatToString(n: nat): (s: string)
    ensures |s| > 0
    ensures forall i :: 0 <= i < |s| ==> '0' <= s[i] <= '9'
    ensures |s| > 1 ==> s[0] != '0'
    decreases n
  {
    if n < 10 then [DigitChar(n)]
    else
      var prefix := NatToString(n / 10);
      prefix + [DigitChar(n % 10)]
  }

  /** Reads a digit string back, most significant digit first. */
  function ParseNat(s: string): nat
  {
    if |s| == 0 then 0 else ParseNat(s[..|s| - 1]) * 10 + DigitValue(s[|s| - 1])
  }

  lemma DigitRoundTrip(d: nat)
    requires d < 10
    ensures DigitValue(DigitChar(d)) == d
  {
  }

  /** The digits say `n`. */
  lemma {:induction false} NatToStringRoundTrip(n: nat)
    ensures ParseNat(NatToString(n)) == n
    decreases n
  {
    DigitRoundTrip(n % 10);
    if n < 10 {
      assert NatToString(n)[..0] == [];
    } else {
      var prefix := NatToString(n / 10);
      NatToStringRoundTrip(n / 10);
      assert (prefix + [DigitChar(n % 10)])[..|prefix|] == prefix;
    }
  }

  function IntToString(i: int): (s: string)
    ensures i < 0 <==> |s| > 0 && s[0] == '-'
  {
    if i < 0 then "-" + NatToString(-i) else NatToString(i)
  }

  /** Reads `IntToString`'s output back. */
  function ParseInt(s: string): int
  {
    if |s| > 0 && s[0] == '-' then -(ParseNat(s[1..]) as int) else ParseNat(s)
  }

  lemma IntToStringRoundTrip(i: int)
    ensures ParseInt(IntToString(i)) == i
  {
    var s := IntToString(i);
    if i < 0 {
      var digits := NatToString(-i);
      assert s == "-" + digits;
      assert s[1..] == digits;
      NatToStringRoundTrip(-i);
    } else {
      var digits := NatToString(i);
      assert s == digits && '0' <= digits[0] <= '9';
      NatToStringRoundTrip(i);
    }
  }

  // ---------------------------------------------------------------------
  // Tiles and pie

  /** The "Balanced" tile: "Yes", or "No (" + the signed difference + ")". */
  function BalancedLabel(c: ClientSummary): (s: string)
    ensures s == "Yes" <==> IsBalanced(c)
    ensures !IsBalanced(c) ==> s == "No (" + IntToString(Diff(c)) + ")"
  {
    if IsBalanced(c) then "Yes" else "No (" + IntToString(Diff(c)) + ")"
  }

  /** The number inside an unbalanced label is the difference itself. */
  lemma LabelShowsDiff(c: ClientSummary)
    requires !IsBalanced(c)
    ensures var s := BalancedLabel(c);
            && |s| >= 6
            && s[..4] == "No (" && s[|s| - 1] == ')'
            && ParseInt(s[4..|s| - 1]) == Diff(c)
  {
    var s := BalancedLabel(c);
    var t := IntToString(Diff(c));
    assert s == "No (" + t + ")";
    assert s[4..|s| - 1] == t;
    IntToStringRoundTrip(Diff(c));
  }

  datatype PieSlice = PieSlice(name: string, value: nat)

  /** The "Balanced vs Unbalanced" pie: the Facets count and the record's own
      unbalanced figure, in that order. */
  function PieData(c: ClientSummary): (slices: seq<PieSlice>)
    ensures |slices| == 2
    ensures slices[0].name == "Balanced" && slices[1].name == "Unbalanced"
    ensures slices[0].value == c.facets && slices[1].value == c.unbalanced
  {
    [PieSlice("Balanced", c.facets), PieSlice("Unbalanced", c.unbalanced)]
  }

  // ---------------------------------------------------------------------
  // The page's inline data

  const ClientA := ClientSummary("Client A", "1001", "Commercial", 5000, 5000, 0)
  const ClientB := ClientSummary("Client B", "1002", "Medicare", 6200, 6100, 100)
  const ClientC := ClientSummary("Client C", "1003", "Medicaid", 3100, 3000, 100)

  const Clients: seq<ClientSummary> := [ClientA, ClientB, ClientC]

  /** Client A balances; Client B shows "No (100)" and 12300 members; in all
      three records the stored unbalanced figure equals the difference. */
  lemma InlineClients()
    ensures BalancedLabel(ClientA) == "Yes"
    ensures BalancedLabel(ClientB) == "No (100)"
    ensures MembershipCount(ClientB) == 12300
    ensures forall i :: 0 <= i < |Clients| ==> Clients[i].unbalanced == Diff(Clients[i])
  {
    assert NatToString(1) == "1";
    assert NatToString(10) == "10";
    assert NatToString(100) == "100";
  }
}
