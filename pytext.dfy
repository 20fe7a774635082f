/** The Python string operations the scraper relies on: `str.strip`, the
    `\d` and `\s` classes of the `re` module (on ASCII digits), and the
    built-in `int` on a string. */
module PyText {
  import opened Common

  /** The characters `str.strip()` removes and `\s` matches: the characters
      for which `str.isspace()` holds. */
  predicate IsPySpace(c: char) {
    || ('\t' <= c <= '\r') || ('\U{001C}' <= c <= '\U{001F}') || c == ' '
    || c == '\U{0085}' || c == '\U{00A0}' || c == '\U{1680}'
    || ('\U{2000}' <= c <= '\U{200A}')
    || c == '\U{2028}' || c == '\U{2029}' || c == '\U{202F}' || c == '\U{205F}'
    || c == '\U{3000}'
  }

  predicate AllPySpace(s: string) {
    forall i :: 0 <= i < |s| ==> IsPySpace(s[i])
  }

  /** `s` with its leading white space removed. */
  function StripStart(s: string): (r: string)
    ensures |r| <= |s| && r == s[|s| - |r|..]
    ensures AllPySpace(s[..|s| - |r|])
    ensures r == [] || !IsPySpace(r[0])
  {
    if s != [] && IsPySpace(s[0]) then StripStart(s[1..]) else s
  }

  /** `s` with its trailing white space removed. */
  function StripEnd(s: string): (r: string)
    ensures |r| <= |s| && r == s[..|r|]
    ensures AllPySpace(s[|r|..])
    ensures r == [] || !IsPySpace(r[|r| - 1])
  {
    if s != [] && IsPySpace(s[|s| - 1]) then StripEnd(s[..|s| - 1]) else s
  }

  /** `s.strip()`. */
  function Strip(s: string): string {
    StripEnd(StripStart(s))
  }

  /** A string with no white space at its ends is its own strip. */
  lemma StripUnpadded(s: string)
    requires s == [] || (!IsPySpace(s[0]) && !IsPySpace(s[|s| - 1]))
    ensures Strip(s) == s
  {
  }

  /** The end of the run of digits that starts at `i`: what a greedy `\d*`
      consumes from there. */
  function DigitRun(s: string, i: nat): (r: nat)
    requires i <= |s|
    ensures i <= r <= |s|
    ensures AllDigits(s[i..r])
    ensures r == |s| || !IsDigit(s[r])
    decreases |s| - i
  {
    if i < |s| && IsDigit(s[i]) then DigitRun(s, i + 1) else i
  }

  /** The end of the run of white space that starts at `i`: what a greedy
      `\s*` consumes from there. */
  function SpaceRun(s: string, i: nat): (r: nat)
    requires i <= |s|
    ensures i <= r <= |s|
    ensures AllPySpace(s[i..r])
    ensures r == |s| || !IsPySpace(s[r])
    decreases |s| - i
  {
    if i < |s| && IsPySpace(s[i]) then SpaceRun(s, i + 1) else i
  }

  /** A run of digits ends where the first non-digit is: any `j` with digits
      from `i` up to it and a non-digit (or the end) at it is the run's end. */
  lemma {:induction false} DigitRunUnique(s: string, i: nat, j: nat)
    requires i <= j <= |s| && AllDigits(s[i..j]) && (j == |s| || !IsDigit(s[j]))
    ensures DigitRun(s, i) == j
    decreases j - i
  {
    if i < j {
      assert s[i] == s[i..j][0];
      assert s[i + 1..j] == s[i..j][1..];
      DigitRunUnique(s, i + 1, j);
    }
  }

  /** Likewise for a run of white space. */
  lemma {:induction false} SpaceRunUnique(s: string, i: nat, j: nat)
    requires i <= j <= |s| && AllPySpace(s[i..j]) && (j == |s| || !IsPySpace(s[j]))
    ensures SpaceRun(s, i) == j
    decreases j - i
  {
    if i < j {
      assert s[i] == s[i..j][0];
      assert s[i + 1..j] == s[i..j][1..];
      SpaceRunUnique(s, i + 1, j);
    }
  }

  /** The digits and underscores `int` accepts after the sign: digit groups
      separated by single underscores, with a digit at both ends (PEP 515). */
  predicate DigitGroups(s: string) {
    && s != [] && IsDigit(s[0]) && IsDigit(s[|s| - 1])
    && (forall i :: 0 <= i < |s| ==> IsDigit(s[i]) || s[i] == '_')
    && NoDoubleUnderscore(s)
  }

  /** No two underscores stand next to each other in `s`. */
  predicate NoDoubleUnderscore(s: string) {
    |s| < 2 || (!(s[0] == '_' && s[1] == '_') && NoDoubleUnderscore(s[1..]))
  }

  /** `s` with its underscores removed. */
  function DropUnderscores(s: string): (r: string)
    ensures |r| <= |s|
    ensures (forall i :: 0 <= i < |s| ==> IsDigit(s[i]) || s[i] == '_') ==> AllDigits(r)
    ensures AllDigits(s) ==> r == s
  {
    if s == [] then []
    else if s[0] == '_' then DropUnderscores(s[1..])
    else [s[0]] + DropUnderscores(s[1..])
  }

  /** `int(s)` for a string `s`: white space around the number is ignored, a
      `+` or `-` sign may lead, and the digits may be grouped with single
      underscores; anything else raises `ValueError`, which is `None` here. */
  function PyInt(s: string): (r: Option<int>)
  {
    var t := Strip(s);
    var negative := t != [] && t[0] == '-';
    var body := if t != [] && (t[0] == '-' || t[0] == '+') then t[1..] else t;
    if DigitGroups(body) then
      var v: int := DigitsValue(DropUnderscores(body));
      Some(if negative then -v else v)
    else None
  }

  /** `int` reads back the decimal text of every natural number. */
  lemma NatTextIsInt(n: nat)
    ensures PyInt(NatText(n)) == Some(n)
  {
    var s := NatText(n);
    assert IsDigit(s[0]) && IsDigit(s[|s| - 1]);
    StripUnpadded(s);
    DigitsAreGroups(s);
  }

  /** `int(str(n))` is `n` for every integer: `int` reads back the decimal
      text `str` writes, minus sign included. */
  lemma IntTextIsInt(n: int)
    ensures PyInt(IntText(n)) == Some(n)
  {
    if n >= 0 {
      NatTextIsInt(n);
    } else {
      var digits := NatText(-n);
      var s := IntText(n);
      assert s[0] == '-' && s[1..] == digits && IsDigit(s[|s| - 1]);
      StripUnpadded(s);
      DigitsAreGroups(digits);
    }
  }

  /** A non-empty run of digits is a valid digit group with nothing to drop. */
  lemma DigitsAreGroups(s: string)
    requires s != [] && AllDigits(s)
    ensures DigitGroups(s) && DropUnderscores(s) == s
  {
    DigitsHaveNoDoubleUnderscore(s);
  }

  lemma {:induction false} DigitsHaveNoDoubleUnderscore(s: string)
    requires AllDigits(s)
    ensures NoDoubleUnderscore(s)
  {
    if |s| >= 2 {
      DigitsHaveNoDoubleUnderscore(s[1..]);
    }
  }

  /** Whatever `int` accepts holds a digit, and after the optional sign
      nothing but digits and underscores. */
  lemma PyIntAccepts(s: string)
    requires PyInt(s).Some?
    ensures var t := Strip(s); var k := if t[0] == '-' || t[0] == '+' then 1 else 0;
      k < |t| && IsDigit(t[k]) && forall i :: k <= i < |t| ==> IsDigit(t[i]) || t[i] == '_'
  {
    var t := Strip(s);
    if t != [] && (t[0] == '-' || t[0] == '+') {
      var body := t[1..];
      forall i | 1 <= i < |t| ensures IsDigit(t[i]) || t[i] == '_' {
        assert t[i] == body[i - 1];
      }
    }
  }

  /** The empty string and a string of white space are not numbers. */
  lemma BlankIsNotInt(s: string)
    requires AllPySpace(s)
    ensures PyInt(s) == None
  {
  }
}
