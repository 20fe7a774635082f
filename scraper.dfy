/** The scraper's field parsers and the assembly of one fighter record from
    the text of a table row's statistics columns. */
module Scraper {
  import opened Common
  import opened PyText

  /** `round((feet * 12 + inches) * 2.54, 1)`: the floating-point value is
      left abstract, and only the total number of inches it is computed
      from is kept. */
  datatype Centimetres = CmOfInches(inches: nat)

  /** `round(lbs * 0.453592, 1)`, kept as the number of pounds. */
  datatype Kilograms = KgOfPounds(pounds: nat)

  /** `re.match(r"(\d+)'\s*(\d+)", s)` succeeds with group 1 = `s[..a]` and
      group 2 = `s[b..c]`: digits, an apostrophe, white space, digits, at the
      start of `s`; whatever follows position `c` is not looked at. */
  predicate HeightMatchAt(s: string, a: nat, b: nat, c: nat) {
    && 0 < a < b < c <= |s|
    && AllDigits(s[..a]) && s[a] == '\''
    && AllPySpace(s[a + 1..b]) && AllDigits(s[b..c])
  }

  /** `parse_height_to_cm(s)`: the greedy match of the height pattern at the
      start of `s`, or `None` when it does not match. */
  function ParseHeightToCm(s: string): (r: Option<Centimetres>)
  {
    var a := DigitRun(s, 0);
    if a == 0 || a == |s| || s[a] != '\'' then None
    else
      var b := SpaceRun(s, a + 1);
      var c := DigitRun(s, b);
      if b == c then None
      else Some(CmOfInches(DigitsValue(s[..a]) * 12 + DigitsValue(s[b..c])))
  }

  /** Soundness of the height parser: when it gives a value, the pattern
      matches at the start of `s`, with the second digit run taken whole,
      and the value is the total of the two groups in inches. */
  lemma ParsedHeightMatches(s: string) returns (a: nat, b: nat, c: nat)
    requires ParseHeightToCm(s).Some?
    ensures HeightMatchAt(s, a, b, c) && (c == |s| || !IsDigit(s[c]))
    ensures ParseHeightToCm(s) == Some(CmOfInches(DigitsValue(s[..a]) * 12 + DigitsValue(s[b..c])))
  {
    a := DigitRun(s, 0);
    b := SpaceRun(s, a + 1);
    c := DigitRun(s, b);
    assert s[..a] == s[0..a];
  }

  /** Completeness of the height parser: wherever the pattern matches, the
      parser gives a value, and it is the one the greedy match determines
      (the feet are `s[..a]` and the inches the whole digit run at `b`). */
  lemma {:induction false} HeightMatchParses(s: string, a: nat, b: nat, c: nat)
    requires HeightMatchAt(s, a, b, c)
    ensures ParseHeightToCm(s) == Some(CmOfInches(DigitsValue(s[..a]) * 12 + DigitsValue(s[b..DigitRun(s, b)])))
  {
    assert s[0..a] == s[..a];
    DigitRunUnique(s, 0, a);
    assert !IsPySpace(s[b]) by {
      assert s[b] == s[b..c][0];
    }
    SpaceRunUnique(s, a + 1, b);
    assert IsDigit(s[b]) by {
      assert s[b] == s[b..c][0];
    }
  }

  /** The text `<feet>'<gap><inches><rest>`, as the statistics table writes
      a height with `gap` a space and `rest` a double quote. */
  function HeightText(feet: nat, gap: string, inches: nat, rest: string): string {
    NatText(feet) + "'" + gap + NatText(inches) + rest
  }

  /** The text `<feet>'<gap><inches><rest>` parses to the total number of
      inches whatever white space `gap` is and whatever follows the inches,
      so the result depends only on `feet * 12 + inches`. */
  lemma HeightRoundTrip(feet: nat, inches: nat, gap: string, rest: string)
    requires AllPySpace(gap) && (rest == [] || !IsDigit(rest[0]))
    ensures ParseHeightToCm(HeightText(feet, gap, inches, rest)) == Some(CmOfInches(feet * 12 + inches))
  {
    var f, i := NatText(feet), NatText(inches);
    var s := HeightText(feet, gap, inches, rest);
    var a, b, c := HeightTextMatches(f, gap, i, rest);
    DigitRunUnique(s, b, c);
    HeightMatchParses(s, a, b, c);
    assert DigitsValue(s[..a]) == feet && DigitsValue(s[b..c]) == inches;
  }

  /** Where the pattern matches in a text built from its parts. */
  lemma HeightTextMatches(f: string, gap: string, i: string, rest: string) returns (a: nat, b: nat, c: nat)
    requires f != [] && AllDigits(f) && AllPySpace(gap) && i != [] && AllDigits(i)
    requires rest == [] || !IsDigit(rest[0])
    ensures var s := f + "'" + gap + i + rest;
      && HeightMatchAt(s, a, b, c) && s[..a] == f && s[b..c] == i
      && (c == |s| || !IsDigit(s[c]))
  {
    var s := f + "'" + gap + i + rest;
    a, b, c := |f|, |f| + 1 + |gap|, |f| + 1 + |gap| + |i|;
    assert s[..a] == f;
    assert s[a + 1..b] == gap;
    assert s[b..c] == i;
    if c < |s| {
      assert s[c] == rest[0];
    }
  }

  /** A height as the statistics table writes it: 6' 4" is 76 inches. */
  lemma SixFourIs76Inches()
    ensures ParseHeightToCm("6' 4\"") == Some(CmOfInches(76))
  {
    assert NatText(6) == "6" && NatText(4) == "4";
    assert "6' 4\"" == HeightText(6, " ", 4, "\"");
    HeightRoundTrip(6, 4, " ", "\"");
  }

  /** A height the table leaves blank, and one in the wrong shape, give `None`. */
  lemma HeightMismatches()
    ensures ParseHeightToCm("--") == None
    ensures ParseHeightToCm("6'") == None
    ensures ParseHeightToCm(" 6' 4\"") == None
  {
    assert DigitRun("6'", 0) == 1;
    assert DigitRun("6'", 2) == 2;
  }

  /** `parse_weight_to_kg(s)`: the leading digit run of `s` as pounds, or
      `None` when `s` does not start with a digit. */
  function ParseWeightToKg(s: string): (r: Option<Kilograms>)
    ensures r == None <==> (s == [] || !IsDigit(s[0]))
  {
    var n := DigitRun(s, 0);
    if n == 0 then None else Some(KgOfPounds(DigitsValue(s[..n])))
  }

  /** The text `<n><rest>` parses to `n` pounds whenever `rest` does not go on
      with a digit: the whole leading digit run is read. */
  lemma WeightRoundTrip(n: nat, rest: string)
    requires rest == [] || !IsDigit(rest[0])
    ensures ParseWeightToKg(NatText(n) + rest) == Some(KgOfPounds(n))
  {
    var d := NatText(n);
    var s := d + rest;
    assert s[..|d|] == s[0..|d|] == d;
    assert |d| == |s| || s[|d|] == rest[0];
    DigitRunUnique(s, 0, |d|);
  }

  /** Whatever the text, the pound value is that of the whole leading run
      of digits, leading zeros included: "0155 lbs" is 155 pounds. */
  lemma WeightValue(s: string, n: nat)
    requires 0 < n <= |s| && AllDigits(s[..n]) && (n == |s| || !IsDigit(s[n]))
    ensures ParseWeightToKg(s) == Some(KgOfPounds(DigitsValue(s[..n])))
  {
    assert s[0..n] == s[..n];
    DigitRunUnique(s, 0, n);
  }

  /** A weight as the statistics table writes it: "155 lbs." is 155 pounds. */
  lemma Weight155()
    ensures ParseWeightToKg("155 lbs.") == Some(KgOfPounds(155))
  {
    assert NatText(155) == "155" by {
      assert NatText(15) == "15";
    }
    assert "155 lbs." == NatText(155) + " lbs.";
    WeightRoundTrip(155, " lbs.");
  }

  /** A record as `scrape_fighter_row` assembles it. */
  datatype ScrapedFighter = ScrapedFighter(
    firstName: string,
    lastName: string,
    heightCm: Option<Centimetres>,
    weightKg: Option<Kilograms>,
    wins: int,
    losses: int,
    draws: int,
    imageUrl: Option<string>)

  /** How `scrape_fighter_row` ends: `None` for a row without statistics
      columns, an `IndexError` it does not catch, or the record. */
  datatype RowOutcome = NoColumns | IndexError | Scraped(fighter: ScrapedFighter)

  /** `try: int(cols[i]) except: 0`: the bare `except` catches the
      `IndexError` of a missing column as well as the `ValueError` of a
      text that is not an integer. */
  function IntColumnOrZero(cols: seq<string>, i: nat): int {
    if i < |cols| then PyInt(cols[i]).GetOr(0) else 0
  }

  /** The fallback: a non-zero count comes from a column that is present and
      holds an integer; a missing column, or one that is not an integer,
      gives 0; and a column holding the text of `n` gives `n`. */
  lemma IntColumnFallback(cols: seq<string>, i: nat)
    ensures IntColumnOrZero(cols, i) != 0 ==> i < |cols| && PyInt(cols[i]) == Some(IntColumnOrZero(cols, i))
    ensures i >= |cols| ==> IntColumnOrZero(cols, i) == 0
    ensures i < |cols| && PyInt(cols[i]) == None ==> IntColumnOrZero(cols, i) == 0
    ensures forall n: int :: i < |cols| && cols[i] == IntText(n) ==> IntColumnOrZero(cols, i) == n
  {
    forall n: int | i < |cols| && cols[i] == IntText(n) ensures IntColumnOrZero(cols, i) == n {
      IntTextIsInt(n);
    }
  }

  /** `scrape_fighter_row(row)`, given the texts of the row's statistics
      columns and the image lookup `wikiImage` (the result
      `fetch_wikipedia_image` would give). No columns give `None`; fewer than
      five raise `IndexError` when column 1, 3 or 4 is read outside any
      `try`; otherwise the record holds columns 0 and 1 as the names, the
      parsed height and weight of columns 3 and 4 (`None` when they do not
      parse), and the counts of columns 7, 8 and 9 with 0 as their
      fallback. */
  method ScrapeFighterRow(cols: seq<string>, wikiImage: (string, string) -> Option<string>)
    returns (r: RowOutcome)
    ensures r == NoColumns <==> cols == []
    ensures r == IndexError <==> 0 < |cols| < 5
    ensures r.Scraped? ==> r.fighter == ScrapedFighter(
      cols[0], cols[1], ParseHeightToCm(cols[3]), ParseWeightToKg(cols[4]),
      IntColumnOrZero(cols, 7), IntColumnOrZero(cols, 8), IntColumnOrZero(cols, 9),
      wikiImage(cols[0], cols[1]))
  {
    if |cols| == 0 {
      return NoColumns;
    }
    if |cols| < 2 {
      return IndexError;
    }
    var first := cols[0];
    var last := cols[1];

    var wins := 0;
    if 7 < |cols| {
      var parsed := PyInt(cols[7]);
      if parsed.Some? {
        wins := parsed.value;
      }
    }
    var losses := 0;
    if 8 < |cols| {
      var parsed := PyInt(cols[8]);
      if parsed.Some? {
        losses := parsed.value;
      }
    }
    var draws := 0;
    if 9 < |cols| {
      var parsed := PyInt(cols[9]);
      if parsed.Some? {
        draws := parsed.value;
      }
    }

    if |cols| < 5 {
      return IndexError;
    }
    var fighter := ScrapedFighter(first, last, ParseHeightToCm(cols[3]), ParseWeightToKg(cols[4]),
                                  wins, losses, draws, wikiImage(first, last));
    return Scraped(fighter);
  }
}
