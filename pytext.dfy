/**
 * The parts of Python's text handling that the source relies on: `str.isspace`,
 * `str.rstrip`, `str.strip`, `str(int)` and `int(str)`.
 */
module PyText {
  import opened Common

  /** `c.isspace()`: the characters Python treats as whitespace. */
  predicate IsSpace(c: char) {
    || ('\t' <= c <= '\r')
    || ('\U{1c}' <= c <= ' ')
    || c == '\U{85}' || c == '\U{a0}' || c == '\U{1680}'
    || ('\U{2000}' <= c <= '\U{200a}')
    || c == '\U{2028}' || c == '\U{2029}' || c == '\U{202f}' || c == '\U{205f}' || c == '\U{3000}'
  }

  /** `s.rstrip()`: the longest prefix of `s` that does not end in whitespace. */
  function RStrip(s: string): (r: string)
    ensures |r| <= |s|
  {
    if s != [] && IsSpace(s[|s| - 1]) then RStrip(s[..|s| - 1]) else s
  }

  /** What `rstrip()` keeps is a prefix not ending in whitespace, and what it drops is all whitespace. */
  lemma {:induction false} RStripSpec(s: string)
    ensures var r := RStrip(s);
      && r == s[..|r|]
      && (r == [] || !IsSpace(r[|r| - 1]))
      && (forall i :: |r| <= i < |s| ==> IsSpace(s[i]))
    decreases |s|
  {
    if s != [] && IsSpace(s[|s| - 1]) {
      RStripSpec(s[..|s| - 1]);
    }
  }

  /** `s.rstrip(chars)`: the longest prefix of `s` that does not end in one of `chars`. */
  function RStripChars(s: string, chars: set<char>): (r: string)
    ensures |r| <= |s|
  {
    if s != [] && s[|s| - 1] in chars then RStripChars(s[..|s| - 1], chars) else s
  }

  /** What `rstrip(chars)` keeps is a prefix not ending in one of `chars`, and what it drops is all in `chars`. */
  lemma {:induction false} RStripCharsSpec(s: string, chars: set<char>)
    ensures var r := RStripChars(s, chars);
      && r == s[..|r|]
      && (r == [] || r[|r| - 1] !in chars)
      && (forall i :: |r| <= i < |s| ==> s[i] in chars)
    decreases |s|
  {
    if s != [] && s[|s| - 1] in chars {
      RStripCharsSpec(s[..|s| - 1], chars);
    }
  }

  /** `s.lstrip()`: the longest suffix of `s` that does not start with whitespace. */
  function LStrip(s: string): (r: string)
    ensures |r| <= |s|
  {
    if s != [] && IsSpace(s[0]) then LStrip(s[1..]) else s
  }

  /** What `lstrip()` keeps is a suffix not starting with whitespace, and what it drops is all whitespace. */
  lemma {:induction false} LStripSpec(s: string)
    ensures var r := LStrip(s);
      && r == s[|s| - |r|..]
      && (r == [] || !IsSpace(r[0]))
      && (forall i :: 0 <= i < |s| - |r| ==> IsSpace(s[i]))
    decreases |s|
  {
    if s != [] && IsSpace(s[0]) {
      LStripSpec(s[1..]);
    }
  }

  /** `s.strip()`. */
  function Strip(s: string): string {
    LStrip(RStrip(s))
  }

  predicate IsDigit(c: char) {
    '0' <= c <= '9'
  }

  predicate AllDigits(s: string) {
    forall i :: 0 <= i < |s| ==> IsDigit(s[i])
  }

  function DigitChar(d: nat): (c: char)
    requires d < 10
    ensures IsDigit(c)
  {
    (48 + d) as char
  }

  function DigitValue(c: char): nat
    requires IsDigit(c)
  {
    c as int - 48
  }

  /** `str(n)` for a natural number: its decimal digits, without leading zeros. */
  function Digits(n: nat): (r: string)
    ensures |r| >= 1 && AllDigits(r)
    ensures r[0] == '0' ==> n == 0
  {
    if n < 10 then [DigitChar(n)] else Digits(n / 10) + [DigitChar(n % 10)]
  }

  /** `str(n)` for any integer. */
  function Decimal(n: int): string {
    if n < 0 then "-" + Digits(-n) else Digits(n)
  }

  /** The number a string of decimal digits denotes. */
  function DigitsValue(s: string): nat
    requires AllDigits(s)
  {
    if s == [] then 0 else DigitsValue(s[..|s| - 1]) * 10 + DigitValue(s[|s| - 1])
  }

  /**
   * `int(s)`: surrounding whitespace is ignored, an optional sign precedes one or
   * more decimal digits; anything else raises ValueError, here `None`.
   */
  function ParseInt(s: string): Option<int> {
    var t := Strip(s);
    if t == [] then None
    else if t[0] == '-' || t[0] == '+' then
      var ds := t[1..];
      if ds != [] && AllDigits(ds) then
        var v: int := DigitsValue(ds);
        Some(if t[0] == '-' then -v else v)
      else None
    else if AllDigits(t) then Some(DigitsValue(t))
    else None
  }

  /** All the values of `os`, or the index of the first `None` among them. */
  function Collect(os: seq<Option<int>>): (r: Result<seq<int>, nat>)
    ensures r.Ok? <==> forall i :: 0 <= i < |os| ==> os[i].Some?
    ensures r.Ok? ==> |r.value| == |os| && forall i :: 0 <= i < |os| ==> os[i] == Some(r.value[i])
    ensures r.Err? ==> r.error < |os| && os[r.error].None?
    ensures r.Err? ==> forall i :: 0 <= i < r.error ==> os[i].Some?
  {
    if os == [] then Ok([])
    else if os[0].None? then Err(0)
    else
      var tail := Collect(os[1..]);
      assert forall i :: 1 <= i < |os| ==> os[i] == os[1..][i - 1];
      if tail.Err? then Err(tail.error + 1) else Ok([os[0].value] + tail.value)
  }

  /**
   * `[int(l) for l in ls]`: one integer per line, in order, or the index of the
   * first line `int` rejects.
   */
  function ParseInts(ls: seq<string>): (r: Result<seq<int>, nat>)
    ensures r.Ok? <==> forall i :: 0 <= i < |ls| ==> ParseInt(ls[i]).Some?
    ensures r.Ok? ==> |r.value| == |ls| && forall i :: 0 <= i < |ls| ==> ParseInt(ls[i]) == Some(r.value[i])
    ensures r.Err? ==> r.error < |ls| && ParseInt(ls[r.error]).None?
    ensures r.Err? ==> forall i :: 0 <= i < r.error ==> ParseInt(ls[i]).Some?
  {
    var os := seq(|ls|, i requires 0 <= i < |ls| => ParseInt(ls[i]));
    assert forall i :: 0 <= i < |ls| ==> os[i] == ParseInt(ls[i]);
    Collect(os)
  }

  /** Parsing one more line that `int` accepts appends its value. */
  lemma ParseIntsAppend(ls: seq<string>, s: string)
    requires ParseInts(ls).Ok? && ParseInt(s).Some?
    ensures ParseInts(ls + [s]) == Ok(ParseInts(ls).value + [ParseInt(s).value])
  {
    var ms := ls + [s];
    assert forall i :: 0 <= i < |ls| ==> ms[i] == ls[i];
    var r := ParseInts(ms);
    assert r.Ok?;
    assert r.value == ParseInts(ls).value + [ParseInt(s).value];
  }

  lemma {:induction false} DigitsRoundTrip(n: nat)
    ensures DigitsValue(Digits(n)) == n
  {
    if n >= 10 {
      DigitsRoundTrip(n / 10);
      var d := Digits(n);
      assert d[..|d| - 1] == Digits(n / 10);
    }
  }

  /** `int(str(n)) == n` for every integer. */
  lemma ParseIntDecimal(n: int)
    ensures ParseInt(Decimal(n)) == Some(n)
  {
    var s := Decimal(n);
    assert !IsSpace(s[|s| - 1]);
    assert RStrip(s) == s;
    assert !IsSpace(s[0]);
    assert LStrip(s) == s;
    if n < 0 {
      DigitsRoundTrip(-n);
      assert s[1..] == Digits(-n);
    } else {
      DigitsRoundTrip(n);
    }
  }

  /** `str` gives different integers different texts. */
  lemma DecimalInjective(a: int, b: int)
    requires Decimal(a) == Decimal(b)
    ensures a == b
  {
    ParseIntDecimal(a);
    ParseIntDecimal(b);
  }

  /** A trailing newline does not change what `int` reads. */
  lemma ParseIntIgnoresNewline(s: string)
    ensures ParseInt(s + "\n") == ParseInt(s)
  {
    assert (s + "\n")[..|s|] == s;
    assert RStrip(s + "\n") == RStrip(s);
  }

  /** A line written as `str(n) + '\n'` and read back with `rstrip()` is `str(n)` again. */
  lemma RStripWrittenLine(n: int)
    ensures RStrip(Decimal(n) + "\n") == Decimal(n)
  {
    var s := Decimal(n);
    assert (s + "\n")[..|s|] == s;
    assert !IsSpace(s[|s| - 1]);
  }
}
