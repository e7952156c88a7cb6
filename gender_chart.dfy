/** The data behind the gender pie chart: per gender its row count and a
    label made of an icon, the gender and the count in parentheses. */
module GenderChart {
  import opened Seqs
  import opened Wrappers
  import opened Orders
  import opened Events
  import opened Grouping
  import opened Aggregates

  const MALE_ICON: string := "\U{1F468}"
  const FEMALE_ICON: string := "\U{1F469}"
  const OTHER_ICON: string := "\U{26A7}"
  const UNKNOWN_ICON: string := "\U{2753}"

  /** `gender_icons.get(gender, '❓')`: the icon of the three known genders,
      the question-mark icon for any other value. */
  function Icon(g: string): (icon: string)
    ensures icon == UNKNOWN_ICON <==> g != "Male" && g != "Female" && g != "Other"
  {
    if g == "Male" then MALE_ICON
    else if g == "Female" then FEMALE_ICON
    else if g == "Other" then OTHER_ICON
    else UNKNOWN_ICON
  }

  predicate IsDigit(c: char)
  {
    '0' <= c <= '9'
  }

  function DigitChar(d: int): (c: char)
    requires 0 <= d < 10
    ensures IsDigit(c) && c as int - '0' as int == d
  {
    "0123456789"[d]
  }

  /** Python's `str` of a non-negative int: decimal digits, no leading zero. */
  function NatToString(n: nat): (s: string)
    ensures |s| > 0
    ensures forall i :: 0 <= i < |s| ==> IsDigit(s[i])
    ensures (s[0] == '0') == (n == 0)
    decreases n
  {
    if n < 10 then [DigitChar(n)] else NatToString(n / 10) + [DigitChar(n % 10)]
  }

  /** The value of a string of decimal digits. */
  function ParseDigits(s: string): nat
    requires forall i :: 0 <= i < |s| ==> IsDigit(s[i])
  {
    if |s| == 0 then 0
    else
      assert IsDigit(s[|s| - 1]);
      10 * ParseDigits(s[..|s| - 1]) + (s[|s| - 1] as int - '0' as int)
  }

  /** Reading the digits back gives the number. */
  lemma {:induction false} ParseNatToString(n: nat)
    ensures ParseDigits(NatToString(n)) == n
  {
    if n >= 10 {
      var s := NatToString(n);
      assert s[..|s| - 1] == NatToString(n / 10);
      ParseNatToString(n / 10);
    }
  }


  /** The number of decimal digits at the end of `s`. */
  function TrailingDigits(s: string): (k: nat)
    ensures k <= |s|
    ensures forall i :: |s| - k <= i < |s| ==> IsDigit(s[i])
  {
    if |s| == 0 || !IsDigit(s[|s| - 1]) then 0 else 1 + TrailingDigits(s[..|s| - 1])
  }

  /** The count shown in a label: the digits before its closing parenthesis. */
  function LabelCount(text: string): Option<nat>
  {
    if |text| == 0 || text[|text| - 1] != ')' then None
    else
      var body := text[..|text| - 1];
      var k := TrailingDigits(body);
      if k == 0 then None else Some(ParseDigits(body[|body| - k..]))
  }

  lemma {:induction false} TrailingDigitsAfter(p: string, d: string)
    requires |p| > 0 && !IsDigit(p[|p| - 1])
    requires forall i :: 0 <= i < |d| ==> IsDigit(d[i])
    ensures TrailingDigits(p + d) == |d|
  {
    if |d| == 0 {
      assert p + d == p;
    } else {
      assert (p + d)[..|p + d| - 1] == p + d[..|d| - 1];
      TrailingDigitsAfter(p, d[..|d| - 1]);
    }
  }

  /** A count written after any text that does not end in a digit, and
      followed by `)`, is read back unchanged. */
  lemma CountAfterPrefix(p: string, count: nat)
    requires |p| > 0 && !IsDigit(p[|p| - 1])
    ensures LabelCount(p + NatToString(count) + ")") == Some(count)
  {
    var digits := NatToString(count);
    var text := p + digits + ")";
    var body := text[..|text| - 1];
    assert body == p + digits;
    TrailingDigitsAfter(p, digits);
    assert body[|body| - |digits|..] == digits;
    ParseNatToString(count);
  }

  /** The pie-chart label `icon gender (count)` of a gender with `count` rows. */
  function Label(g: string, count: nat): string
  {
    Icon(g) + " " + g + " (" + NatToString(count) + ")"
  }

  /** A label gives back the count it was built from, whatever the gender. */
  lemma LabelCountRoundTrip(g: string, count: nat)
    ensures LabelCount(Label(g, count)) == Some(count)
  {
    var p := Icon(g) + " " + g + " (";
    assert Label(g, count) == p + NatToString(count) + ")";
    CountAfterPrefix(p, count);
  }

  /** One slice of the pie: `Gender`, `Count` and `Label` of `gender_count`. */
  datatype Slice = Slice(gender: string, count: nat, labelText: string)

  function CountOf(s: Slice): nat
  {
    s.count
  }

  /** The sum of the slice counts. */
  function SliceTotal(d: seq<Slice>): nat
  {
    Total(d, CountOf)
  }

  function Slices(gc: seq<(string, nat)>): (d: seq<Slice>)
    ensures |d| == |gc|
    ensures forall i :: 0 <= i < |gc| ==> d[i] == Slice(gc[i].0, gc[i].1, Label(gc[i].0, gc[i].1))
    ensures SliceTotal(d) == SumValues(gc)
  {
    if |gc| == 0 then [] else [Slice(gc[0].0, gc[0].1, Label(gc[0].0, gc[0].1))] + Slices(gc[1..])
  }

  /** `gender_count`: one slice per gender of the view, holding that
      gender's row count (always positive) and its label; the counts add up
      to the number of rows. */
  function GenderDistribution(view: seq<Event>): (d: seq<Slice>)
    ensures |d| == |KeysOf(view, GenderOf)|
    ensures forall i, j :: 0 <= i < j < |d| ==> d[i].gender != d[j].gender
    ensures forall g :: g in KeysOf(view, GenderOf) <==> exists i :: 0 <= i < |d| && d[i].gender == g
    ensures forall i :: 0 <= i < |d| ==>
      && d[i].count == GenderCount(view, d[i].gender)
      && d[i].count >= 1
      && d[i].labelText == Label(d[i].gender, d[i].count)
    ensures SliceTotal(d) == |view|
  {
    var gc := GenderCounts(view);
    StrLtIsStrictTotal();
    AscendingNoDup(gc, StrLt);
    var d := Slices(gc);
    forall g | g in KeysOf(view, GenderOf) ensures exists i :: 0 <= i < |d| && d[i].gender == g {
      var i :| 0 <= i < |gc| && GroupKeys(gc)[i] == g;
      assert d[i].gender == g;
    }
    forall i | 0 <= i < |d| ensures d[i].gender in KeysOf(view, GenderOf) {
      assert GroupKeys(gc)[i] == d[i].gender;
    }
    d
  }
}
