/** The three numbers `updateStats` derives from the full list. */
module Stats {
  import opened Fighters

  datatype Summary = Summary(totalFighters: nat, totalWins: int, avgAge: int)

  /** The age a record contributes: `age || 30`. */
  function AgeOrDefault(f: Fighter): int {
    IntOr(f.age, 30)
  }

  /** `reduce((sum, f) => sum + (f.wins || 0), 0)`. */
  function TotalWins(fs: seq<Fighter>): int {
    if fs == [] then 0 else TotalWins(fs[..|fs| - 1]) + IntOr(fs[|fs| - 1].wins, 0)
  }

  /** `reduce((sum, f) => sum + (f.age || 30), 0)`. */
  function TotalAge(fs: seq<Fighter>): int {
    if fs == [] then 0 else TotalAge(fs[..|fs| - 1]) + AgeOrDefault(fs[|fs| - 1])
  }

  /** `Math.round(a / n)`: the integer nearest to a / n, halves rounded up. */
  function RoundDiv(a: int, n: int): (r: int)
    requires n > 0
    ensures n * (2 * r - 1) <= 2 * a < n * (2 * r + 1)
  {
    var r := (2 * a + n) / (2 * n);
    assert 2 * n * r <= 2 * a + n < 2 * n * r + 2 * n;
    r
  }

  /** `updateStats`: the count, the total of wins and the rounded mean age,
      which is 30 for an empty list. */
  function SummaryOf(fs: seq<Fighter>): Summary {
    Summary(|fs|, TotalWins(fs), if |fs| > 0 then RoundDiv(TotalAge(fs), |fs|) else 30)
  }

  /** The totals add up over concatenation. */
  lemma {:induction false} TotalsAppend(a: seq<Fighter>, b: seq<Fighter>)
    ensures TotalWins(a + b) == TotalWins(a) + TotalWins(b)
    ensures TotalAge(a + b) == TotalAge(a) + TotalAge(b)
  {
    if b != [] {
      var b' := b[..|b| - 1];
      assert (a + b)[..|a + b| - 1] == a + b';
      TotalsAppend(a, b');
    } else {
      assert a + b == a;
    }
  }

  /** When no record gives an age (or every age is 0) each one counts as 30,
      so the average age is 30. */
  lemma {:induction false} DefaultAgesAverage30(fs: seq<Fighter>)
    requires forall f :: f in fs ==> IntOr(f.age, 30) == 30
    ensures TotalAge(fs) == 30 * |fs|
    ensures SummaryOf(fs).avgAge == 30
  {
    if fs != [] {
      assert fs[|fs| - 1] in fs;
      DefaultAgesAverage30(fs[..|fs| - 1]);
      var n := |fs|;
      var r := RoundDiv(30 * n, n);
      assert n * (2 * r - 1) <= 60 * n < n * (2 * r + 1);
      RoundUnique(n, r, 30);
    }
  }

  /** The nearest integer is unique: an `r` within one half of `k` is `k`. */
  lemma RoundUnique(n: int, r: int, k: int)
    requires n > 0 && n * (2 * r - 1) <= 2 * k * n < n * (2 * r + 1)
    ensures r == k
  {
    if r < k {
      MulMonotone(n, 2 * r + 1, 2 * k);
      assert false;
    } else if r > k {
      MulMonotone(n, 2 * k + 1, 2 * r - 1);
      assert false;
    }
  }

  /** Multiplying by a natural number keeps the order. */
  lemma MulMonotone(n: nat, a: int, b: int)
    requires a <= b
    ensures n * a <= n * b
  {
    var d: nat := b - a;
    assert n * b == n * a + n * d;
  }

  /** The figures for the demo records: 4 fighters, 92 wins, average age 30. */
  lemma DemoSummary()
    ensures SummaryOf(Demo) == Summary(4, 92, 30)
  {
    assert Demo == [JonJones, DanielCormier, KhamzatChimaev] + [KhabibNurmagomedov];
    assert [JonJones, DanielCormier, KhamzatChimaev] == [JonJones, DanielCormier] + [KhamzatChimaev];
    assert [JonJones, DanielCormier] == [JonJones] + [DanielCormier];
    TotalsAppend([JonJones, DanielCormier, KhamzatChimaev], [KhabibNurmagomedov]);
    TotalsAppend([JonJones, DanielCormier], [KhamzatChimaev]);
    TotalsAppend([JonJones], [DanielCormier]);
    DefaultAgesAverage30(Demo);
  }
}
