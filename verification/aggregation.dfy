/** The aggregation functions a page summary is reduced with
    (`calculateSummary` of DataColumn and SerialColumn). */
module Aggregation {
  import opened Values

  /** The `pageSummaryFunc` setting. `NoFunc` is a `null` setting, which the
      `switch` of `calculateSummary` treats exactly like `Sum`; `Unknown` is any other
      value that matches none of the cases. */
  datatype AggFunc = Sum | Count | Avg | Max | Min | NoFunc | Unknown(name: string)

  /** `array_sum` over integer cells. */
  function Total(s: seq<int>): (r: int)
    ensures |s| == 0 ==> r == 0
    ensures (forall i :: 0 <= i < |s| ==> s[i] >= 0) ==> r >= 0
    ensures (forall i :: 0 <= i < |s| ==> s[i] <= 0) ==> r <= 0
  {
    if |s| == 0 then 0 else Total(s[..|s| - 1]) + s[|s| - 1]
  }

  /** `max` over a non-empty list of integer cells. */
  function Largest(s: seq<int>): (m: int)
    requires |s| > 0
    ensures m in s
    ensures forall x :: x in s ==> x <= m
  {
    if |s| == 1 then s[0]
    else
      var n := |s| - 1;
      assert s == s[..n] + [s[n]];
      var rest := Largest(s[..n]);
      if s[n] > rest then s[n] else rest
  }

  /** `min` over a non-empty list of integer cells. */
  function Smallest(s: seq<int>): (m: int)
    requires |s| > 0
    ensures m in s
    ensures forall x :: x in s ==> m <= x
  {
    if |s| == 1 then s[0]
    else
      var n := |s| - 1;
      assert s == s[..n] + [s[n]];
      var rest := Smallest(s[..n]);
      if s[n] < rest then s[n] else rest
  }

  /** The summary of the collected rows under aggregation function `f`.
      An empty list of rows, and a function the `switch` does not know,
      both give the empty string; nothing else does. */
  function CalculateSummary(rows: seq<int>, f: AggFunc): (r: Val)
    ensures r == Str("") <==> |rows| == 0 || f.Unknown?
    ensures |rows| > 0 && (f.Sum? || f.NoFunc?) ==> r == Int(Total(rows))
    ensures |rows| > 0 && f.Count? ==> r == Int(|rows|)
    ensures |rows| > 0 && f.Avg? ==> r.Real? && r.x * (|rows| as real) == Total(rows) as real
    ensures |rows| > 0 && f.Max? ==> r.Int? && r.n in rows && forall x :: x in rows ==> x <= r.n
    ensures |rows| > 0 && f.Min? ==> r.Int? && r.n in rows && forall x :: x in rows ==> r.n <= x
  {
    if |rows| == 0 then Str("")
    else
      match f
      case NoFunc => Int(Total(rows))
      case Sum => Int(Total(rows))
      case Count => Int(|rows|)
      // `calculateSummary` guards the division with `count > 0`; that guard always
      // holds here because the empty case has already returned.
      case Avg => Real(Total(rows) as real / |rows| as real)
      case Max => Int(Largest(rows))
      case Min => Int(Smallest(rows))
      case Unknown(_) => Str("")
  }

  /** `array_sum` distributes over concatenation. */
  lemma {:induction false} TotalAppend(a: seq<int>, b: seq<int>)
    ensures Total(a + b) == Total(a) + Total(b)
    decreases |b|
  {
    if |b| == 0 {
      assert a + b == a;
    } else {
      var n := |b| - 1;
      assert (a + b)[..|a + b| - 1] == a + b[..n];
      TotalAppend(a, b[..n]);
    }
  }

  /** A bound on every cell bounds the sum from above. */
  lemma {:induction false} TotalAtMost(s: seq<int>, m: int)
    requires forall x :: x in s ==> x <= m
    ensures Total(s) <= |s| * m
  {
    if |s| > 0 {
      var n := |s| - 1;
      assert forall x :: x in s[..n] ==> x in s;
      TotalAtMost(s[..n], m);
      assert s[n] in s;
      assert |s| * m == n * m + m;
    }
  }

  /** A bound on every cell bounds the sum from below. */
  lemma {:induction false} TotalAtLeast(s: seq<int>, m: int)
    requires forall x :: x in s ==> m <= x
    ensures |s| * m <= Total(s)
  {
    if |s| > 0 {
      var n := |s| - 1;
      assert forall x :: x in s[..n] ==> x in s;
      TotalAtLeast(s[..n], m);
      assert s[n] in s;
      assert |s| * m == n * m + m;
    }
  }

  /** An integer quotient bounded like `n * lo <= t <= n * hi` lies in `[lo, hi]`. */
  lemma QuotientWithin(t: int, n: nat, lo: int, hi: int)
    requires n > 0
    requires n * lo <= t <= n * hi
    ensures lo as real <= t as real / n as real <= hi as real
  {
  }

  /** Over any non-empty page the average lies between the minimum and the
      maximum. */
  lemma AverageWithinRange(rows: seq<int>)
    requires |rows| > 0
    ensures CalculateSummary(rows, Avg).Real?
    ensures CalculateSummary(rows, Min).Int? && CalculateSummary(rows, Max).Int?
    ensures CalculateSummary(rows, Min).n as real <= CalculateSummary(rows, Avg).x
    ensures CalculateSummary(rows, Avg).x <= CalculateSummary(rows, Max).n as real
  {
    TotalAtMost(rows, Largest(rows));
    TotalAtLeast(rows, Smallest(rows));
    QuotientWithin(Total(rows), |rows|, Smallest(rows), Largest(rows));
  }

  /** The aggregates of the page `[3, 5, 2]`. */
  lemma ThreeRowExample()
    ensures CalculateSummary([3, 5, 2], Sum) == Int(10)
    ensures CalculateSummary([3, 5, 2], NoFunc) == Int(10)
    ensures CalculateSummary([3, 5, 2], Count) == Int(3)
    ensures CalculateSummary([3, 5, 2], Avg) == Real(10.0 / 3.0)
    ensures CalculateSummary([3, 5, 2], Max) == Int(5)
    ensures CalculateSummary([3, 5, 2], Min) == Int(2)
  {
    var s := [3, 5, 2];
    assert s[..2] == [3, 5] && s[..2][..1] == [3] && [3][..0] == [];
    assert Total([3]) == 3;
    assert Total([3, 5]) == 8;
    assert Total(s) == 10;
  }
}
