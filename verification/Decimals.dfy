/** Exact decimal scaling of digit strings. */
module Decimals {
  // Exact decimal scaling by text: padding and splitting a digit string denotes the integer
  // divided by a power of ten, and the DECIMAL(38, 18) cast loses nothing
  // (spark/build_market_data_silver.py, spark/price_enrichment.py).

  import opened Wrappers
  import opened Sorting

  const SCALE: nat := 18
  /** Ten to the 38: DECIMAL(38, 18) holds smaller counts of units. */
  const CAPACITY: int := 1_00000000000000000000000000000000000000

  predicate IsDigit(c: char) { '0' <= c <= '9' }

  predicate AllDigits(s: string) { forall i :: 0 <= i < |s| ==> IsDigit(s[i]) }

  function DigitValue(c: char): nat
    requires IsDigit(c)
  {
    c as int - '0' as int
  }

  lemma DigitsAre(c: char)
    ensures IsDigit(c) <==> exists k :: 0 <= k < 10 && "0123456789"[k] == c
    ensures IsDigit(c) ==> "0123456789"[DigitValue(c)] == c
  {
    if IsDigit(c) {
      var k := DigitValue(c);
      assert "0123456789"[k] == c;
    }
  }

  /** The number a digit string denotes. */
  function Value(s: string): nat
    requires AllDigits(s)
  {
    if s == [] then 0 else Value(s[..|s| - 1]) * 10 + DigitValue(s[|s| - 1])
  }

  /** `v` times ten to the `n`. */
  function Shift(v: int, n: nat): int {
    if n == 0 then v else 10 * Shift(v, n - 1)
  }

  function Pow10(n: nat): int { Shift(1, n) }

  lemma {:induction false} ShiftAdds(v: int, a: nat, b: nat)
    ensures Shift(v, a + b) == Shift(Shift(v, a), b)
  {
    if b > 0 { ShiftAdds(v, a, b - 1); }
  }

  lemma {:induction false} ShiftSums(v: int, w: int, n: nat)
    ensures Shift(v + w, n) == Shift(v, n) + Shift(w, n)
  {
    if n > 0 { ShiftSums(v, w, n - 1); }
  }

  lemma {:induction false} ShiftNegates(v: int, n: nat)
    ensures Shift(-v, n) == -Shift(v, n)
  {
    if n > 0 { ShiftNegates(v, n - 1); }
  }

  /** Shifting keeps order, strictly. */
  lemma {:induction false} ShiftOrders(v: int, w: int, n: nat)
    ensures v < w <==> Shift(v, n) < Shift(w, n)
    ensures v == w <==> Shift(v, n) == Shift(w, n)
  {
    if n > 0 { ShiftOrders(v, w, n - 1); }
  }

  lemma {:induction false} ShiftGrows(v: int, m: nat, n: nat)
    requires v > 0 && m <= n
    ensures 0 < Shift(v, m) <= Shift(v, n)
    ensures m < n ==> Shift(v, m) < Shift(v, n)
    decreases n
  {
    if m < n {
      ShiftGrows(v, m, n - 1);
    } else if m > 0 {
      ShiftGrows(v, m - 1, m - 1);
    }
  }

  lemma {:induction false} ValueConcat(a: string, b: string)
    requires AllDigits(a) && AllDigits(b)
    ensures AllDigits(a + b) && Value(a + b) == Shift(Value(a), |b|) + Value(b)
    decreases |b|
  {
    if b == [] {
      assert a + b == a;
    } else {
      ValueConcat(a, b[..|b| - 1]);
      assert (a + b)[..|a + b| - 1] == a + b[..|b| - 1];
    }
  }

  lemma {:induction false} ValueIsBelowPower(s: string)
    requires AllDigits(s)
    ensures Value(s) < Pow10(|s|)
  {
    if s != [] { ValueIsBelowPower(s[..|s| - 1]); }
  }

  lemma {:induction false} ShiftOfZero(n: nat)
    ensures Shift(0, n) == 0
  {
    if n > 0 { ShiftOfZero(n - 1); }
  }

  function Zeros(n: nat): (s: string)
    ensures |s| == n && AllDigits(s)
  {
    if n == 0 then [] else ['0'] + Zeros(n - 1)
  }

  lemma {:induction false} LeadingZerosCount(n: nat, s: string)
    requires AllDigits(s)
    ensures AllDigits(Zeros(n) + s) && Value(Zeros(n) + s) == Value(s)
  {
    if n == 0 {
      assert Zeros(n) + s == s;
    } else {
      LeadingZerosCount(n - 1, s);
      assert Zeros(n) + s == ['0'] + (Zeros(n - 1) + s);
      ValueConcat(['0'], Zeros(n - 1) + s);
      assert ['0'][..0] == [] && Value(['0']) == 0;
      ShiftOfZero(|s| + n - 1);
    }
  }

  /** `LPAD` with zeros; it would cut a longer text. */
  function LPad(s: string, n: nat): string {
    if |s| >= n then s[..n] else Zeros(n - |s|) + s
  }

  function Greatest(a: nat, b: nat): nat { if a > b then a else b }

  function Padded(s: string, d: nat): (p: string)
    ensures |p| == Greatest(|s|, d + 1)
  {
    LPad(s, Greatest(|s|, d + 1))
  }

  /** The text built for a digit string and a number of decimals. */
  function ScaledText(s: string, d: nat): string {
    if d == 0 then s
    else var p := Padded(s, d); p[..|p| - d] + "." + p[|p| - d..]
  }

  /** The first position of a point, or the end. */
  function PointAt(s: string): (i: nat)
    ensures i <= |s|
    ensures forall j :: 0 <= j < i ==> s[j] != '.'
    ensures i < |s| ==> s[i] == '.'
  {
    if s == [] || s[0] == '.' then 0 else 1 + PointAt(s[1..])
  }

  function DropDigits(v: nat, n: nat): nat { if n == 0 then v else DropDigits(v / 10, n - 1) }

  /** A number with some fraction digits in units of 10^-18, rounded half up beyond the scale. */
  function Rescaled(v: nat, fractionDigits: nat): int {
    if fractionDigits <= SCALE then Shift(v, SCALE - fractionDigits)
    else (DropDigits(v, fractionDigits - SCALE - 1) + 5) / 10
  }

  lemma {:induction false} DropDigitsIsFloor(v: nat, n: nat)
    ensures DropDigits(v, n) * Pow10(n) <= v < (DropDigits(v, n) + 1) * Pow10(n)
  {
    if n > 0 {
      DropDigitsIsFloor(v / 10, n - 1);
      var q, p := DropDigits(v / 10, n - 1), Pow10(n - 1);
      ShiftAdds(1, n - 1, 1);
      assert Pow10(n) == 10 * p;
      assert q * Pow10(n) == 10 * (q * p) && (q + 1) * Pow10(n) == 10 * ((q + 1) * p);
    }
  }

  lemma TimesKeepsOrder(a: int, b: int, p: nat)
    requires a <= b
    ensures a * p <= b * p
  {
  }

  lemma HalfUp(v: nat, q: nat, p: nat, r: int)
    requires q * p <= v < (q + 1) * p && r == (q + 5) / 10
    ensures 2 * v - 10 * p < 2 * (10 * r * p) <= 2 * v + 10 * p
  {
    TimesKeepsOrder(q - 4, 10 * r, p);
    TimesKeepsOrder(10 * r, q + 5, p);
    assert (q - 4) * p == (q + 1) * p - 5 * p && (q + 5) * p == q * p + 5 * p;
  }

  /** Beyond the scale the number is rounded to the nearest unit, halves up. */
  lemma RescaledRounds(v: nat, fractionDigits: nat, unit: int)
    requires fractionDigits > SCALE && unit == Pow10(fractionDigits - SCALE)
    ensures 2 * v - unit < 2 * (Rescaled(v, fractionDigits) * unit) <= 2 * v + unit
  {
    var n := fractionDigits - SCALE - 1;
    var q, p, r := DropDigits(v, n), Pow10(n), Rescaled(v, fractionDigits);
    DropDigitsIsFloor(v, n);
    ShiftAdds(1, n, 1);
    assert unit == 10 * p;
    TimesKeepsOrder(0, q, p);
    HalfUp(v, q, p, r);
    assert r * (10 * p) == 10 * r * p;
  }

  /** Unsigned part of the cast: digits with at most one point. */
  function Unscaled(text: string): Option<int> {
    var i := PointAt(text);
    var whole, fraction := text[..i], if i < |text| then text[i + 1..] else [];
    var digits := whole + fraction;
    if digits == [] || !AllDigits(digits) then None else Some(Rescaled(Value(digits), |fraction|))
  }

  /** `TRY_CAST(text AS DECIMAL(38, 18))` on plain decimal text: null when malformed or too large. */
  function TryCast(text: string): Option<int> {
    var negative := text != [] && text[0] == '-';
    match Unscaled(if negative then text[1..] else text)
    case None => None
    case Some(u) => if u < CAPACITY then Some(if negative then -u else u) else None
  }

  /** The integer part is not empty, the fraction has exactly `d` digits, and together they are the number. */
  lemma {:induction false} ScaledTextShape(s: string, d: nat)
    requires AllDigits(s) && s != [] && 0 < d
    ensures var p := Padded(s, d);
      && AllDigits(p) && |p| > d && Value(p) == Value(s)
      && AllDigits(p[..|p| - d]) && AllDigits(p[|p| - d..]) && |p[|p| - d..]| == d
      && ScaledText(s, d) == p[..|p| - d] + "." + p[|p| - d..]
      && PointAt(ScaledText(s, d)) == |p| - d
  {
    var p := Padded(s, d);
    if |s| < d + 1 { LeadingZerosCount(d + 1 - |s|, s); } else { assert s[..|s|] == s; }
    PointAfterDigits(p[..|p| - d], p[|p| - d..]);
  }

  lemma {:induction false} PointAfterDigits(whole: string, rest: string)
    requires AllDigits(whole)
    ensures PointAt(whole + "." + rest) == |whole|
  {
    var text := whole + "." + rest;
    if whole == [] {
      assert text[0] == '.';
    } else {
      PointAfterDigits(whole[1..], rest);
      assert text[1..] == whole[1..] + "." + rest && text[0] == whole[0];
    }
  }

  lemma {:induction false} NoPointInDigits(s: string)
    requires AllDigits(s)
    ensures PointAt(s) == |s|
  {
    if s != [] { NoPointInDigits(s[1..]); }
  }

  lemma {:induction false} UnscaledOfParts(whole: string, fraction: string)
    requires AllDigits(whole) && AllDigits(fraction) && whole != []
    ensures Unscaled(whole + "." + fraction) == Some(Rescaled(Value(whole + fraction), |fraction|))
  {
    var text := whole + "." + fraction;
    PointAfterDigits(whole, fraction);
    assert text[..|whole|] == whole && text[|whole| + 1..] == fraction;
  }

  lemma SplitJoins(p: string, n: nat)
    requires n <= |p|
    ensures p[..n] + p[n..] == p
  {
  }

  lemma {:induction false} UnscaledOfDigits(s: string)
    requires AllDigits(s) && s != []
    ensures Unscaled(s) == Some(Shift(Value(s), SCALE))
  {
    NoPointInDigits(s);
    assert s[..|s|] + [] == s;
  }

  /** Reading the built text back gives the digit string's number shifted to the scale. */
  lemma {:induction false} UnscaledOfText(s: string, d: nat)
    requires AllDigits(s) && s != [] && d <= SCALE
    ensures Unscaled(ScaledText(s, d)) == Some(Shift(Value(s), SCALE - d))
  {
    if d == 0 {
      UnscaledOfDigits(s);
    } else {
      ScaledTextShape(s, d);
      var p := Padded(s, d);
      UnscaledOfParts(p[..|p| - d], p[|p| - d..]);
      SplitJoins(p, |p| - d);
    }
  }

  /** The integer over 10^d in units of 10^-18, when it fits. */
  function ExactPrice(v: nat, d: nat): Option<int>
    requires d <= SCALE
  {
    if Shift(v, SCALE - d) < CAPACITY then Some(Shift(v, SCALE - d)) else None
  }

  /** The text expression computes the exact price. */
  lemma {:induction false} TextIsExactPrice(s: string, d: nat)
    requires AllDigits(s) && s != [] && d <= SCALE
    ensures TryCast(ScaledText(s, d)) == ExactPrice(Value(s), d)
  {
    UnscaledOfText(s, d);
    TextIsUnsigned(s, d);
  }

  lemma CapacityIsAPower()
    ensures CAPACITY == Pow10(38)
  {
    assert Shift(1, 10) == 1_0000000000;
    ShiftAdds(1, 10, 10);
    assert Shift(1_0000000000, 10) == 1_0000000000_0000000000;
    ShiftAdds(1, 20, 10);
    assert Shift(1_0000000000_0000000000, 10) == 1_0000000000_0000000000_0000000000;
    ShiftAdds(1, 30, 8);
    assert Shift(1_0000000000_0000000000_0000000000, 8) == CAPACITY;
  }

  lemma FitsPrecision(v: nat, d: nat)
    requires d <= SCALE
    ensures Shift(v, SCALE - d) < CAPACITY <==> v < Pow10(20 + d)
  {
    CapacityIsAPower();
    ShiftAdds(1, 20 + d, SCALE - d);
    ShiftOrders(v, Pow10(20 + d), SCALE - d);
  }

  lemma ExactPriceFits(v: nat, d: nat)
    requires d <= SCALE
    ensures ExactPrice(v, d).Some? <==> v < Pow10(20 + d)
    ensures ExactPrice(v, d).Some? ==> Shift(ExactPrice(v, d).value, d) == Shift(v, SCALE)
  {
    var n := SCALE - d;
    FitsPrecision(v, d);
    ShiftAdds(v, n, d);
    assert n + d == SCALE;
  }

  /**
   For every digit string and 0 to 18 decimals the cast price is exactly the integer over
   10^d (in units of 10^-18), and it is null exactly when the magnitude is 10^20 or more.
   */
  lemma {:induction false} ScalingIsExact(s: string, d: nat)
    requires AllDigits(s) && s != [] && d <= SCALE
    ensures TryCast(ScaledText(s, d)).Some? <==> Value(s) < Pow10(20 + d)
    ensures TryCast(ScaledText(s, d)).Some? ==> Shift(TryCast(ScaledText(s, d)).value, d) == Shift(Value(s), SCALE)
  {
    TextIsExactPrice(s, d);
    ExactPriceFits(Value(s), d);
  }

  lemma TextIsUnsigned(s: string, d: nat)
    requires AllDigits(s) && s != []
    ensures ScaledText(s, d) != [] && ScaledText(s, d)[0] != '-'
  {
    if d > 0 {
      ScaledTextShape(s, d);
      assert IsDigit(ScaledText(s, d)[0]);
    }
  }

  /** One number with one positive exact price at two scales: the scales are equal. */
  lemma DecimalsAreDetermined(v: nat, d1: nat, d2: nat)
    requires d1 <= SCALE && d2 <= SCALE && ExactPrice(v, d1) == ExactPrice(v, d2)
    requires ExactPrice(v, d1).Some? && ExactPrice(v, d1).value > 0
    ensures d1 == d2
  {
    ShiftOfZero(SCALE - d1);
    if d1 < d2 { ShiftGrows(v, SCALE - d2, SCALE - d1); } else { ShiftGrows(v, SCALE - d1, SCALE - d2); }
  }

  function TrimLeft(s: string): string { if s != [] && s[0] == ' ' then TrimLeft(s[1..]) else s }

  function TrimRight(s: string): string { if s != [] && s[|s| - 1] == ' ' then TrimRight(s[..|s| - 1]) else s }

  /** SQL `TRIM`. */
  function Trim(s: string): string { TrimRight(TrimLeft(s)) }

  ghost predicate AllBlank(s: string) { forall i :: 0 <= i < |s| ==> s[i] == ' ' }

  lemma {:induction false} TrimLeftDrops(s: string) returns (i: nat)
    ensures i <= |s| && TrimLeft(s) == s[i..] && AllBlank(s[..i]) && (i < |s| ==> s[i] != ' ')
  {
    if s != [] && s[0] == ' ' {
      i := TrimLeftDrops(s[1..]);
      assert s[1..][i..] == s[i + 1..] && s[..i + 1] == [s[0]] + s[1..][..i];
      i := i + 1;
    } else {
      i := 0;
    }
  }

  lemma {:induction false} TrimRightDrops(s: string) returns (j: nat)
    ensures j <= |s| && TrimRight(s) == s[..j] && AllBlank(s[j..]) && (j > 0 ==> s[j - 1] != ' ')
  {
    var n := |s| - 1;
    if s != [] && s[n] == ' ' {
      j := TrimRightDrops(s[..n]);
      assert s[..n][..j] == s[..j] && s[j..] == s[..n][j..] + [s[n]];
    } else {
      j := |s|;
    }
  }

  /** Trimming drops the blanks around a text and nothing else. */
  lemma TrimDropsBlanks(s: string) returns (before: string, after: string)
    ensures s == before + Trim(s) + after && AllBlank(before) && AllBlank(after)
    ensures Trim(s) != [] ==> Trim(s)[0] != ' ' && Trim(s)[|Trim(s)| - 1] != ' '
  {
    var i := TrimLeftDrops(s);
    var j := TrimRightDrops(s[i..]);
    before, after := s[..i], s[i..][j..];
    assert s[i..] == s[i..][..j] + s[i..][j..] && s == s[..i] + s[i..];
  }

  predicate Negative(s: string) { s != [] && s[0] == '-' }

  function Magnitude(s: string): string { if Negative(s) then s[1..] else s }

  /** The enrichment form: an optional minus sign, and null outside 0 to 18 decimals. */
  function SignedCast(raw: string, d: int): Option<int> {
    var trimmed := Trim(raw);
    if d == 0 then TryCast(trimmed)
    else if 1 <= d <= SCALE then TryCast((if Negative(trimmed) then "-" else "") + ScaledText(Magnitude(trimmed), d))
    else None
  }

  function WithSign(negative: bool, v: int): int { if negative then -v else v }

  function Signed(negative: bool, text: string): string { (if negative then "-" else "") + text }

  lemma CastOfSigned(negative: bool, text: string, u: int)
    requires text != [] && text[0] != '-' && Unscaled(text) == Some(u)
    ensures TryCast(Signed(negative, text)) == if u < CAPACITY then Some(WithSign(negative, u)) else None
  {
    if negative { assert Signed(negative, text)[1..] == text; } else { assert Signed(negative, text) == text; }
  }

  lemma {:induction false} CastOfSignedText(negative: bool, s: string, d: nat)
    requires AllDigits(s) && s != [] && d <= SCALE
    ensures var u := Shift(Value(s), SCALE - d);
      TryCast(Signed(negative, ScaledText(s, d))) == if u < CAPACITY then Some(WithSign(negative, u)) else None
  {
    UnscaledOfText(s, d);
    TextIsUnsigned(s, d);
    CastOfSigned(negative, ScaledText(s, d), Shift(Value(s), SCALE - d));
  }

  lemma SignedCastIsCast(raw: string, d: nat)
    requires d <= SCALE
    ensures SignedCast(raw, d) == TryCast(Signed(Negative(Trim(raw)), ScaledText(Magnitude(Trim(raw)), d)))
  {
    var t := Trim(raw);
    if d == 0 { assert t == Signed(Negative(t), Magnitude(t)); }
  }

  /** The integer a trimmed, optionally negative text denotes. */
  function SignedValue(raw: string): int
    requires AllDigits(Magnitude(Trim(raw)))
  {
    WithSign(Negative(Trim(raw)), Value(Magnitude(Trim(raw))))
  }

  lemma {:induction false} SignedTextFits(negative: bool, s: string, d: nat)
    requires AllDigits(s) && s != [] && d <= SCALE
    ensures TryCast(Signed(negative, ScaledText(s, d))).Some? <==> Value(s) < Pow10(20 + d)
  {
    CastOfSignedText(negative, s, d);
    FitsPrecision(Value(s), d);
  }

  lemma SignedShift(negative: bool, v: nat, d: nat, u: int)
    requires d <= SCALE && u == WithSign(negative, Shift(v, SCALE - d))
    ensures Shift(u, d) == Shift(WithSign(negative, v), SCALE)
  {
    ShiftAdds(v, SCALE - d, d);
    ShiftNegates(Shift(v, SCALE - d), d);
    ShiftNegates(v, SCALE);
  }

  lemma {:induction false} SignedTextUnscaled(negative: bool, s: string, d: nat, u: int)
    requires AllDigits(s) && s != [] && d <= SCALE
    requires TryCast(Signed(negative, ScaledText(s, d))) == Some(u)
    ensures u == WithSign(negative, Shift(Value(s), SCALE - d))
  {
    CastOfSignedText(negative, s, d);
  }

  lemma {:induction false} SignedTextIsExact(negative: bool, s: string, d: nat, u: int)
    requires AllDigits(s) && s != [] && d <= SCALE
    requires TryCast(Signed(negative, ScaledText(s, d))) == Some(u)
    ensures Shift(u, d) == Shift(WithSign(negative, Value(s)), SCALE)
  {
    SignedTextUnscaled(negative, s, d, u);
    SignedShift(negative, Value(s), d, u);
  }

  /** The same exactness for trimmed, optionally negative amounts; other decimals give null. */
  lemma {:induction false} SignedScalingIsExact(raw: string, d: int)
    requires AllDigits(Magnitude(Trim(raw))) && Magnitude(Trim(raw)) != []
    ensures SignedCast(raw, d).Some? <==> 0 <= d <= SCALE && Value(Magnitude(Trim(raw))) < Pow10(20 + d)
    ensures SignedCast(raw, d).Some? ==> Shift(SignedCast(raw, d).value, d) == Shift(SignedValue(raw), SCALE)
  {
    if 0 <= d <= SCALE {
      SignedCastIsCast(raw, d);
      SignedTextFits(Negative(Trim(raw)), Magnitude(Trim(raw)), d);
      if SignedCast(raw, d).Some? {
        SignedTextIsExact(Negative(Trim(raw)), Magnitude(Trim(raw)), d, SignedCast(raw, d).value);
      }
    }
  }

  // ----- Comparing digit strings -----

  /** `^0+` removed; the empty rest stands for zero. */
  function DropZeros(s: string): string { if s != [] && s[0] == '0' then DropZeros(s[1..]) else s }

  function Normalized(s: string): string { if DropZeros(s) == [] then "0" else DropZeros(s) }

  predicate Canonical(s: string) { AllDigits(s) && s != [] && (s[0] == '0' ==> |s| == 1) }

  lemma {:induction false} NormalizedKeepsValue(s: string)
    requires AllDigits(s)
    ensures Canonical(Normalized(s)) && Value(Normalized(s)) == Value(s)
  {
    if s == [] || s[0] != '0' {
      assert ['0'][..0] == [];
    } else {
      NormalizedKeepsValue(s[1..]);
      assert s == ['0'] + s[1..];
      ValueConcat(['0'], s[1..]);
      assert ['0'][..0] == [] && Value(['0']) == 0;
      ShiftOfZero(|s| - 1);
    }
  }

  lemma ValueOfDigit(c: char)
    requires IsDigit(c)
    ensures AllDigits([c]) && Value([c]) == DigitValue(c)
  {
    assert [c][..0] == [];
  }

  /** The first digit weighs a power of ten. */
  lemma {:induction false} HeadWeighs(s: string)
    requires AllDigits(s) && s != []
    ensures Value(s) == Shift(DigitValue(s[0]), |s| - 1) + Value(s[1..])
    ensures Value(s[1..]) < Pow10(|s| - 1)
  {
    var head, rest := [s[0]], s[1..];
    ValueOfDigit(s[0]);
    ValueConcat(head, rest);
    ValueIsBelowPower(rest);
    assert s == head + rest;
  }

  lemma {:induction false} LongerIsGreater(a: string, b: string)
    requires Canonical(a) && Canonical(b) && |a| < |b|
    ensures Value(a) < Value(b)
  {
    ValueIsBelowPower(a);
    ShiftGrows(1, |a|, |b| - 1);
    HeadWeighs(b);
    ShiftOrders(0, DigitValue(b[0]), |b| - 1);
    ShiftOrders(DigitValue(b[0]), 1, |b| - 1);
  }

  /** Leading digits decide before the rests do. */
  lemma {:induction false} HeadsDecide(d1: nat, r1: nat, d2: nat, r2: nat, n: nat)
    requires r1 < Pow10(n) && r2 < Pow10(n)
    ensures Shift(d1, n) + r1 <= Shift(d2, n) + r2 <==> d1 < d2 || (d1 == d2 && r1 <= r2)
    ensures Shift(d1, n) + r1 == Shift(d2, n) + r2 <==> d1 == d2 && r1 == r2
  {
    ShiftSums(d1, 1, n);
    ShiftSums(d2, 1, n);
    ShiftOrders(d1 + 1, d2, n);
    ShiftOrders(d2 + 1, d1, n);
  }

  /** Equal lengths: the text order is the numeric order. */
  lemma {:induction false} SameLengthCompares(a: string, b: string)
    requires AllDigits(a) && AllDigits(b) && |a| == |b|
    ensures StringLe(a, b) <==> Value(a) <= Value(b)
    ensures Value(a) == Value(b) ==> a == b
    decreases |a|
  {
    if a != [] {
      HeadWeighs(a);
      HeadWeighs(b);
      SameLengthCompares(a[1..], b[1..]);
      HeadsDecide(DigitValue(a[0]), Value(a[1..]), DigitValue(b[0]), Value(b[1..]), |a| - 1);
      assert a == [a[0]] + a[1..] && b == [b[0]] + b[1..];
    }
  }

  /** Length first, then text: the order the price ranking uses for round ids. */
  predicate LengthThenText(a: string, b: string) {
    |a| < |b| || (|a| == |b| && StringLe(a, b))
  }

  /** On zero-stripped digit strings it is numeric comparison. */
  lemma {:induction false} StrippedOrderIsNumeric(a: string, b: string)
    requires AllDigits(a) && AllDigits(b)
    ensures LengthThenText(Normalized(a), Normalized(b)) <==> Value(a) <= Value(b)
    ensures Normalized(a) == Normalized(b) <==> Value(a) == Value(b)
  {
    NormalizedKeepsValue(a);
    NormalizedKeepsValue(b);
    var x, y := Normalized(a), Normalized(b);
    if |x| < |y| {
      LongerIsGreater(x, y);
    } else if |y| < |x| {
      LongerIsGreater(y, x);
    } else {
      SameLengthCompares(x, y);
    }
  }
}
