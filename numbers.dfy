/**
 * Decimal text and integers as Go's `strconv` treats them: `Itoa`, `Atoi` (with its
 * 64-bit range checks, clamped result and scan order), `int(uint64)` and the plain
 * decimal subset of `ParseFloat`, whose results are exact reals here.
 */
module Numbers {
  import opened Wrappers
  import Seqs

  const MaxInt64: int := 0x7fff_ffff_ffff_ffff
  const MinInt64: int := -0x8000_0000_0000_0000
  const TwoTo64: int := 0x1_0000_0000_0000_0000

  predicate IsDigit(c: char) { '0' <= c <= '9' }

  predicate AllDigits(s: string) {
    forall i :: 0 <= i < |s| ==> IsDigit(s[i])
  }

  function DigitValue(c: char): nat
    requires IsDigit(c)
  {
    c as int - '0' as int
  }

  function DigitChar(d: nat): (c: char)
    requires d < 10
    ensures IsDigit(c) && DigitValue(c) == d
  {
    ('0' as int + d) as char
  }

  /** The number a string of decimal digits denotes, read left to right as `n*10 + d`. */
  function DigitsValue(s: string): nat
    requires AllDigits(s)
  {
    if s == [] then 0 else DigitsValue(s[..|s| - 1]) * 10 + DigitValue(s[|s| - 1])
  }

  /** The shortest decimal spelling of `n`. */
  function NatToDigits(n: nat): (s: string)
    ensures s != [] && AllDigits(s)
    ensures |s| > 1 ==> s[0] != '0'
  {
    if n < 10 then [DigitChar(n)] else NatToDigits(n / 10) + [DigitChar(n % 10)]
  }

  lemma {:induction false} DigitsRoundTrip(n: nat)
    ensures DigitsValue(NatToDigits(n)) == n
  {
    if n >= 10 {
      DigitsRoundTrip(n / 10);
      var s := NatToDigits(n);
      assert s[..|s| - 1] == NatToDigits(n / 10);
    }
  }

  /** `strconv.Itoa`. */
  function Itoa(i: int): (s: string)
    ensures s != []
  {
    if i < 0 then "-" + NatToDigits(-i) else NatToDigits(i)
  }

  /** Go's conversion `int(x)` of a `uint64` on a 64-bit platform: values past MaxInt64 wrap negative. */
  function Int64OfUint64(x: nat): (r: int)
    requires x < TwoTo64
    ensures MinInt64 <= r <= MaxInt64
    ensures r == x || r == x - TwoTo64
  {
    if x <= MaxInt64 then x else x - TwoTo64
  }

  datatype NumError = ErrSyntax | ErrRange

  /** What `strconv.Atoi` returns: the value (0 on a syntax error, clamped on overflow) and the error. */
  datatype AtoiResult = AtoiResult(value: int, err: Option<NumError>)

  const MaxUint64: int := 0xffff_ffff_ffff_ffff

  /** The longest run of digits at the front of `s`. */
  function DigitRun(s: string): (r: string)
    ensures AllDigits(r) && |r| <= |s| && s[..|r|] == r
    ensures |r| < |s| ==> !IsDigit(s[|r|])
  {
    if s != [] && IsDigit(s[0]) then [s[0]] + DigitRun(s[1..]) else []
  }

  /** `s` with one leading sign character picked off, as `ParseInt` does. */
  function Unsigned(s: string): string {
    if s != [] && (s[0] == '-' || s[0] == '+') then s[1..] else s
  }

  /** The digits after the sign already exceed the `uint64` range before the scan meets anything else. */
  predicate PrefixOverflows(s: string) {
    DigitsValue(DigitRun(Unsigned(s))) > MaxUint64
  }

  /** The sign and digits of `s`, when `s` has the shape `[+-]?[0-9]+`. */
  function SignedDigits(s: string): Option<(bool, string)> {
    if s == [] then None
    else if s[0] == '-' || s[0] == '+' then
      if |s| > 1 && AllDigits(s[1..]) then Some((s[0] == '-', s[1..])) else None
    else if AllDigits(s) then Some((false, s)) else None
  }

  /**
   * `strconv.Atoi` on a 64-bit platform, in the order `ParseInt` and `ParseUint` scan:
   * after one optional sign the digits are accumulated left to right, and once they
   * exceed 2^64-1 the result is a range error, whatever follows. Otherwise no digit at
   * all, or any other character, is a syntax error, and a value outside int64 is a
   * range error clamped to the nearer bound.
   */
  function Atoi(s: string): (r: AtoiResult)
    ensures r.err == Some(ErrSyntax) ==> r.value == 0
    ensures MinInt64 <= r.value <= MaxInt64
  {
    var neg := s != [] && s[0] == '-';
    var body := Unsigned(s);
    var run := DigitRun(body);
    if DigitsValue(run) > MaxUint64 then AtoiResult(if neg then MinInt64 else MaxInt64, Some(ErrRange))
    else if body == [] || run != body then AtoiResult(0, Some(ErrSyntax))
    else
      var mag: int := DigitsValue(run);
      var v := if neg then -mag else mag;
      if v > MaxInt64 then AtoiResult(MaxInt64, Some(ErrRange))
      else if v < MinInt64 then AtoiResult(MinInt64, Some(ErrRange))
      else AtoiResult(v, None)
  }

  /** A string of digits is its own digit run. */
  lemma {:induction false} DigitRunOfDigits(s: string)
    requires AllDigits(s)
    ensures DigitRun(s) == s
    decreases |s|
  {
    if s != [] {
      DigitRunOfDigits(s[1..]);
    }
  }

  /** The digit run of `ds + tail` starts with all of `ds`. */
  lemma {:induction false} DigitRunExtends(ds: string, tail: string)
    requires AllDigits(ds)
    ensures DigitRun(ds + tail) == ds + DigitRun(tail)
    decreases |ds|
  {
    if ds != [] {
      assert IsDigit((ds + tail)[0]);
      assert (ds + tail)[1..] == ds[1..] + tail;
      DigitRunExtends(ds[1..], tail);
      assert ds == [ds[0]] + ds[1..];
    } else {
      assert ds + tail == tail;
    }
  }

  /** Appending digits never lowers the value. */
  lemma {:induction false} DigitsValueGrows(ds: string, more: string)
    requires AllDigits(ds) && AllDigits(more)
    ensures DigitsValue(ds + more) >= DigitsValue(ds)
    decreases |more|
  {
    if more != [] {
      var m := more[..|more| - 1];
      assert (ds + more)[..|ds + more| - 1] == ds + m;
      assert AllDigits(ds + more);
      DigitsValueGrows(ds, m);
      assert DigitsValue(ds + more) == DigitsValue(ds + m) * 10 + DigitValue((ds + more)[|ds + more| - 1]);
    } else {
      assert ds + more == ds;
    }
  }

  /** Unsigned digit text: its value when that fits int64, else MaxInt64 with a range error. */
  lemma AtoiOfDigits(ds: string)
    requires ds != [] && AllDigits(ds)
    ensures Atoi(ds) == if DigitsValue(ds) <= MaxInt64 then AtoiResult(DigitsValue(ds), None)
                        else AtoiResult(MaxInt64, Some(ErrRange))
  {
    assert IsDigit(ds[0]);
    DigitRunOfDigits(ds);
  }

  /**
   * Digits beyond the `uint64` range make a range error even when junk follows them:
   * the scan stops at the overflow before it reaches the junk.
   */
  lemma OverflowBeforeJunk(sign: string, ds: string, tail: string)
    requires sign == "" || sign == "+" || sign == "-"
    requires AllDigits(ds) && DigitsValue(ds) > MaxUint64
    ensures Atoi(sign + ds + tail) == AtoiResult(if sign == "-" then MinInt64 else MaxInt64, Some(ErrRange))
  {
    assert ds != [] && IsDigit(ds[0]);
    var s := sign + ds + tail;
    assert Unsigned(s) == ds + tail by {
      if sign == "" { assert s == ds + tail; } else { assert s[1..] == ds + tail; }
    }
    assert s != [] && (s[0] == '-' <==> sign == "-");
    DigitRunExtends(ds, tail);
    DigitsValueGrows(ds, DigitRun(tail));
    assert DigitsValue(DigitRun(Unsigned(s))) > MaxUint64;
  }

  /** `Atoi` reads back every in-range integer `Itoa` writes. */
  lemma AtoiItoa(i: int)
    requires MinInt64 <= i <= MaxInt64
    ensures Atoi(Itoa(i)) == AtoiResult(i, None)
  {
    var mag: nat := if i < 0 then -i else i;
    DigitsRoundTrip(mag);
    ItoaShape(i);
    DigitRunOfDigits(NatToDigits(mag));
  }

  /** `Itoa` writes a sign exactly for negative numbers, then the magnitude's digits. */
  lemma ItoaShape(i: int)
    ensures SignedDigits(Itoa(i)) == Some((i < 0, NatToDigits(if i < 0 then -i else i)))
    ensures Unsigned(Itoa(i)) == NatToDigits(if i < 0 then -i else i)
    ensures Itoa(i)[0] == '-' <==> i < 0
  {
    var ds := NatToDigits(if i < 0 then -i else i);
    assert IsDigit(ds[0]);
    if i < 0 {
      assert Itoa(i)[1..] == ds;
    }
  }

  /** A digit run equals the whole text exactly when the text is all digits. */
  lemma RunIsAll(s: string)
    ensures DigitRun(s) == s <==> AllDigits(s)
  {
    if AllDigits(s) {
      DigitRunOfDigits(s);
    }
  }

  /**
   * A syntax error comes exactly from text that is not an optionally signed run of
   * digits, unless its leading digits already overflow.
   */
  lemma AtoiSyntax(s: string)
    ensures Atoi(s).err == Some(ErrSyntax) <==> SignedDigits(s) == None && !PrefixOverflows(s)
  {
    RunIsAll(Unsigned(s));
    if s != [] && (s[0] == '-' || s[0] == '+') {
      assert Unsigned(s) == s[1..];
    }
  }

  /** The value of a digit string read as the digits after a decimal point: "25" is 0.25. */
  function Fraction(f: string): (r: real)
    requires AllDigits(f)
    ensures 0.0 <= r < 1.0
  {
    if f == [] then 0.0 else (DigitValue(f[0]) as real + Fraction(f[1..])) / 10.0
  }

  function Negate(neg: bool, x: real): real {
    if neg then -x else x
  }

  /**
   * `strconv.ParseFloat(s, 64)` on plain decimal text `[+-]?d*(.d*)?` with at least one
   * digit; the value is the exact real the text denotes.
   */
  function ParseFloat(s: string): (r: Result<real>)
  {
    var neg := s != [] && s[0] == '-';
    var body := Unsigned(s);
    var dot := DotIndex(body);
    var whole := if dot < |body| then body[..dot] else body;
    var frac := if dot < |body| then body[dot + 1..] else "";
    if AllDigits(whole) && AllDigits(frac) && |whole| + |frac| > 0 then
      Ok(Negate(neg, DigitsValue(whole) as real + Fraction(frac)))
    else
      Err("strconv.ParseFloat: parsing " + Quote(s) + ": invalid syntax")
  }

  function Quote(s: string): string { "\"" + s + "\"" }

  /** Index of the first '.' in `s`, or `|s|` when there is none. */
  function DotIndex(s: string): (k: nat)
    ensures k <= |s|
    ensures forall i :: 0 <= i < k ==> s[i] != '.'
    ensures k < |s| ==> s[k] == '.'
  {
    Seqs.FirstWhere(s, (c: char) => c == '.')
  }

  /** Whole-number text parses to the number it spells. */
  lemma ParseFloatWhole(n: nat)
    ensures ParseFloat(NatToDigits(n)) == Ok(n as real)
  {
    var s := NatToDigits(n);
    DigitsRoundTrip(n);
    assert DotIndex(s) == |s|;
  }

  /** Digits `w`, a dot and digits `f` parse to `w` plus the fraction `f` spells, as "120.500000" does. */
  lemma ParseFloatDecimal(ws: string, f: string)
    requires ws != [] && AllDigits(ws) && AllDigits(f)
    ensures ParseFloat(ws + "." + f) == Ok(DigitsValue(ws) as real + Fraction(f))
  {
    SplitAtDot(ws, f);
  }

  /** The first dot of `ws + "." + f` is the one after the digits `ws`. */
  lemma SplitAtDot(ws: string, f: string)
    requires ws != [] && AllDigits(ws)
    ensures var s := ws + "." + f;
            && s[0] != '-' && s[0] != '+'
            && DotIndex(s) == |ws| && s[..|ws|] == ws && s[|ws| + 1..] == f
  {
    var s := ws + "." + f;
    DotAfterDigits(ws, f);
    assert s[0] == ws[0] && IsDigit(s[0]);
    assert s[..|ws|] == ws;
    assert s[|ws| + 1..] == f;
  }

  lemma DotAfterDigits(ws: string, f: string)
    requires AllDigits(ws)
    ensures DotIndex(ws + "." + f) == |ws|
  {
    if ws != [] {
      assert (ws + "." + f)[1..] == ws[1..] + "." + f;
      DotAfterDigits(ws[1..], f);
    }
  }
}
