/** Decimal text: integer parsing and printing, six-decimal USD amounts (cli/main.rs) and Circle's
    scaled fee numbers (evm/cctp.rs). */
module Decimal {
  import opened Wrappers

  const USD_DECIMALS: nat := 6

  predicate IsDigit(c: char) {
    '0' <= c <= '9'
  }

  predicate AllDigits(s: string) {
    forall i :: 0 <= i < |s| ==> IsDigit(s[i])
  }

  function DigitOf(c: char): nat
    requires IsDigit(c)
  {
    c as nat - '0' as nat
  }

  function CharOf(d: nat): (c: char)
    requires d < 10
    ensures IsDigit(c) && DigitOf(c) == d
  {
    (d + '0' as nat) as char
  }

  function Pow10(n: nat): (p: nat)
    ensures p > 0
  {
    if n == 0 then 1 else 10 * Pow10(n - 1)
  }

  /** The number a digit string denotes; the empty string denotes zero. */
  function Value(s: string): nat
    requires AllDigits(s)
  {
    if s == "" then 0 else 10 * Value(s[..|s| - 1]) + DigitOf(s[|s| - 1])
  }

  function ToDecimal(n: nat): (s: string)
    ensures |s| > 0 && AllDigits(s)
  {
    if n < 10 then [CharOf(n)] else ToDecimal(n / 10) + [CharOf(n % 10)]
  }

  function Zeros(n: nat): (s: string)
    ensures |s| == n && AllDigits(s)
  {
    seq(n, i => '0')
  }

  lemma {:induction false} ToDecimalValue(n: nat)
    ensures Value(ToDecimal(n)) == n
  {
    if n >= 10 {
      ToDecimalValue(n / 10);
      var s := ToDecimal(n);
      assert s[..|s| - 1] == ToDecimal(n / 10);
    } else {
      assert ToDecimal(n)[..0] == "";
    }
  }

  lemma {:induction false} ValueConcat(a: string, b: string)
    requires AllDigits(a) && AllDigits(b)
    ensures AllDigits(a + b) && Value(a + b) == Value(a) * Pow10(|b|) + Value(b)
    ensures Value(b) < Pow10(|b|)
    decreases |b|
  {
    if b == "" {
      assert a + b == a;
    } else {
      var front := b[..|b| - 1];
      ValueConcat(a, front);
      assert (a + b)[..|a + b| - 1] == a + front;
      Shift(Value(a), Pow10(|front|), Value(front), DigitOf(b[|b| - 1]));
    }
  }

  lemma Shift(x: nat, p: nat, v: nat, d: nat)
    requires v < p && d < 10
    ensures 10 * (x * p + v) + d == x * (10 * p) + (10 * v + d)
    ensures 10 * v + d < 10 * p
  {
  }

  lemma {:induction false} ValueZeros(n: nat)
    ensures Value(Zeros(n)) == 0
  {
    if n > 0 {
      assert Zeros(n)[..n - 1] == Zeros(n - 1);
      ValueZeros(n - 1);
    }
  }

  lemma {:induction false} ToDecimalLength(n: nat, k: nat)
    requires n < Pow10(k) && k > 0
    ensures |ToDecimal(n)| <= k
    decreases k
  {
    if n >= 10 { ToDecimalLength(n / 10, k - 1); }
  }

  /** `str::parse` for an unsigned integer: one optional leading plus, then at least one digit. */
  function ParseUnsigned(s: string, max: nat): Option<nat> {
    var digits := if s != "" && s[0] == '+' then s[1..] else s;
    if digits == "" || !AllDigits(digits) then None
    else if Value(digits) <= max then Some(Value(digits))
    else None
  }

  /** Printing an unsigned integer and parsing it back gives the integer. */
  lemma ParsePrinted(n: nat, max: nat)
    requires n <= max
    ensures ParseUnsigned(ToDecimal(n), max) == Some(n)
  {
    ToDecimalValue(n);
    assert IsDigit(ToDecimal(n)[0]);
  }

  lemma ParseDigitsOnly(s: string, max: nat)
    requires AllDigits(s)
    ensures ParseUnsigned(s, max) == if s != "" && Value(s) <= max then Some(Value(s)) else None
  {
    if s != "" { assert IsDigit(s[0]); }
  }

  // ----- USD amounts -----

  /** `split('.')`. */
  function SplitDots(s: string): (parts: seq<string>)
    ensures |parts| > 0
  {
    if s == "" then [""]
    else
      var rest := SplitDots(s[1..]);
      if s[0] == '.' then [""] + rest else [[s[0]] + rest[0]] + rest[1..]
  }

  lemma {:induction false} SplitNoDot(s: string)
    requires AllDigits(s)
    ensures SplitDots(s) == [s]
  {
    if s != "" {
      SplitNoDot(s[1..]);
      assert IsDigit(s[0]) && [s[0]] + s[1..] == s;
    }
  }

  lemma {:induction false} SplitAfterDot(w: string, f: string)
    requires AllDigits(w)
    ensures SplitDots(w + "." + f) == [w] + SplitDots(f)
  {
    var s := w + "." + f;
    if w == "" {
      assert s[1..] == f;
    } else {
      assert s[1..] == w[1..] + "." + f;
      SplitAfterDot(w[1..], f);
      assert IsDigit(w[0]) && [w[0]] + w[1..] == w;
    }
  }

  lemma SplitOneDot(w: string, f: string)
    requires AllDigits(w) && AllDigits(f)
    ensures SplitDots(w + "." + f) == [w, f]
  {
    SplitAfterDot(w, f);
    SplitNoDot(f);
  }

  function PadRight(s: string, width: nat): string {
    if |s| >= width then s else s + Zeros(width - |s|)
  }

  /** `{:06}`. */
  function PadLeft(s: string, width: nat): string {
    if |s| >= width then s else Zeros(width - |s|) + s
  }

  function ScaleUsd(whole: nat, frac: nat): Option<nat> {
    if whole * Pow10(USD_DECIMALS) + frac <= U64_MAX then Some(whole * Pow10(USD_DECIMALS) + frac) else None
  }

  function ParseUsdAmount(s: string): Option<nat> {
    var parts := SplitDots(s);
    if |parts| == 1 then
      match ParseUnsigned(parts[0], U64_MAX)
      case Some(whole) => ScaleUsd(whole, 0)
      case None => None
    else if |parts| == 2 then
      match ParseUnsigned(parts[0], U64_MAX)
      case None => None
      case Some(whole) =>
        if |parts[1]| > USD_DECIMALS then None
        else match ParseUnsigned(PadRight(parts[1], USD_DECIMALS), U64_MAX)
          case Some(frac) => ScaleUsd(whole, frac)
          case None => None
    else None
  }

  /** `whole.six-digit`. */
  function UsdDigits(raw: nat): string {
    ToDecimal(raw / Pow10(USD_DECIMALS)) + "." + PadLeft(ToDecimal(raw % Pow10(USD_DECIMALS)), USD_DECIMALS)
  }

  /** The text the CLI prints for a raw amount. */
  function FormatUsd(raw: nat): string {
    UsdDigits(raw) + " USD"
  }

  lemma Million()
    ensures Pow10(6) == 1_000_000
  {
    assert Pow10(3) == 1000;
    assert Pow10(6) == 10 * (10 * (10 * Pow10(3)));
  }

  lemma PaddedValue(f: string, width: nat)
    requires AllDigits(f) && |f| <= width
    ensures var padded := PadRight(f, width);
            && |padded| == width && AllDigits(padded)
            && Value(padded) == Value(f) * Pow10(width - |f|) && Value(padded) < Pow10(width)
  {
    hide Pow10, Value;
    var padded := PadRight(f, width);
    ValueConcat(f, Zeros(width - |f|));
    ValueZeros(width - |f|);
    assert padded == f + Zeros(width - |f|);
    ValueConcat("", padded);
    assert "" + padded == padded;
  }

  /** Digits, a point and at most six digits parse to exactly the amount they denote in millionths,
      or to an error when that exceeds 64 bits. */
  lemma ParseUsdMeaning(w: string, f: string)
    requires AllDigits(w) && AllDigits(f) && w != "" && |f| <= 6
    ensures var raw := Value(w) * 1_000_000 + Value(f) * Pow10(6 - |f|);
            ParseUsdAmount(w + "." + f) == if raw <= U64_MAX then Some(raw) else None
  {
    hide Pow10, Value, SplitDots, ParseUnsigned, PadRight;
    SplitOneDot(w, f);
    ParseDigitsOnly(w, U64_MAX);
    PaddedValue(f, 6);
    Million();
    ParseDigitsOnly(PadRight(f, 6), U64_MAX);
  }

  /** Digits alone are whole dollars; no digits before the point, more than six after it, and a second
      point are errors. */
  lemma ParseUsdShapes(w: string, f: string, rest: string)
    requires AllDigits(w) && AllDigits(f)
    ensures ParseUsdAmount(w) == if w != "" && Value(w) * 1_000_000 <= U64_MAX then Some(Value(w) * 1_000_000) else None
    ensures w == "" || |f| > 6 ==> ParseUsdAmount(w + "." + f).None?
    ensures ParseUsdAmount(w + "." + (f + "." + rest)).None?
  {
    hide Pow10, Value, ParseUnsigned, PadRight;
    SplitNoDot(w);
    SplitOneDot(w, f);
    SplitAfterDot(w, f + "." + rest);
    SplitAfterDot(f, rest);
    hide SplitDots;
    Million();
    ParseDigitsOnly(w, U64_MAX);
    if w != "" { TimesAtLeast(Value(w), 1_000_000); }
  }

  lemma SixDigits(frac: nat)
    requires frac < 1_000_000
    ensures var padded := PadLeft(ToDecimal(frac), 6);
            |padded| == 6 && AllDigits(padded) && Value(padded) == frac
  {
    Million();
    hide Pow10, Value, ToDecimal;
    var d := ToDecimal(frac);
    ToDecimalLength(frac, 6);
    ToDecimalValue(frac);
    ValueConcat(Zeros(6 - |d|), d);
    ValueZeros(6 - |d|);
    assert PadLeft(d, 6) == Zeros(6 - |d|) + d;
  }

  /** Parsing the printed number gives back every 64-bit amount. */
  lemma UsdRoundTrip(raw: nat)
    requires raw <= U64_MAX
    ensures ParseUsdAmount(UsdDigits(raw)) == Some(raw)
  {
    assert Pow10(0) == 1;
    Million();
    hide Pow10, Value, ToDecimal, ParseUsdAmount, PadLeft;
    var whole, frac := raw / 1_000_000, raw % 1_000_000;
    ToDecimalValue(whole);
    SixDigits(frac);
    ParseUsdMeaning(ToDecimal(whole), PadLeft(ToDecimal(frac), 6));
  }

  lemma PlusFraction()
    ensures ParseUnsigned(PadRight("+5", 6), U64_MAX) == Some(50_000)
  {
    var digits := "5" + Zeros(4);
    assert PadRight("+5", 6)[1..] == digits;
    assert "5"[..0] == "";
    assert Value("5") == 5;
    assert Pow10(4) == 10_000 by { assert Pow10(2) == 100; }
    hide Pow10, Value;
    ValueConcat("5", Zeros(4));
    ValueZeros(4);
  }

  /** The fraction goes through the same integer parser as the whole part, so a plus sign after the
      point is accepted and takes up a decimal place. */
  lemma PlusInFractionIsAccepted()
    ensures ParseUsdAmount("1.+5") == Some(1_050_000)
  {
    assert SplitDots("1.+5") == ["1", "+5"] by {
      SplitNoDot("5");
      assert "+5"[1..] == "5" && "+" + "5" == "+5";
      assert SplitDots("+5") == ["+5"];
      SplitAfterDot("1", "+5");
      assert "1" + "." + "+5" == "1.+5";
    }
    assert "1"[..0] == "" && Value("1") == 1;
    Million();
    hide Pow10, Value, SplitDots, PadRight;
    ParseDigitsOnly("1", U64_MAX);
    PlusFraction();
  }

  lemma ParsedChars(s: string, max: nat)
    requires ParseUnsigned(s, max).Some?
    ensures forall c <- s :: IsDigit(c) || c == '+'
  {
    forall i | 0 <= i < |s| ensures IsDigit(s[i]) || s[i] == '+' {
      if s[0] == '+' && i > 0 { assert s[i] == s[1..][i - 1]; }
    }
  }

  /** Splitting at the points loses only the points. */
  lemma {:induction false} SplitKeepsChars(s: string, c: char)
    requires c in s && c != '.'
    ensures exists part <- SplitDots(s) :: c in part
  {
    var rest := SplitDots(s[1..]);
    if c in s[1..] {
      SplitKeepsChars(s[1..], c);
      var part :| part in rest && c in part;
      if part == rest[0] && s[0] != '.' {
        assert c in [s[0]] + rest[0] && [s[0]] + rest[0] == SplitDots(s)[0];
      } else {
        assert part in SplitDots(s);
      }
    } else {
      assert s[0] == c;
      assert c in SplitDots(s)[0];
    }
  }

  lemma AmountChars(s: string, c: char)
    requires ParseUsdAmount(s).Some? && c in s
    ensures IsDigit(c) || c == '.' || c == '+'
  {
    hide ParseUnsigned, SplitDots;
    if c != '.' {
      SplitKeepsChars(s, c);
      var parts := SplitDots(s);
      ParsedChars(parts[0], U64_MAX);
      if |parts| == 2 {
        ParsedChars(PadRight(parts[1], USD_DECIMALS), U64_MAX);
        assert parts[1] <= PadRight(parts[1], USD_DECIMALS);
      }
    }
  }

  /** An accepted amount is digits and points exactly when it holds no plus sign: both the whole part and
      the fraction go through an integer parser that takes one. */
  lemma AcceptedIsPlainExactly(s: string)
    requires ParseUsdAmount(s).Some?
    ensures (forall c <- s :: IsDigit(c) || c == '.') <==> '+' !in s
  {
    hide ParseUsdAmount;
    forall c | c in s ensures IsDigit(c) || c == '.' || c == '+' {
      AmountChars(s, c);
    }
  }

  lemma PlusInWholeIsAccepted()
    ensures ParseUsdAmount("+5") == Some(5_000_000)
  {
    assert SplitDots("+5") == ["+5"] by {
      SplitNoDot("5");
      assert "+5"[1..] == "5" && "+" + "5" == "+5";
    }
    assert "5"[..0] == "" && Value("5") == 5;
    Million();
    hide Pow10, Value, SplitDots;
    assert "+5"[1..] == "5";
  }

  /** The text as printed, with its currency, is not itself an amount. */
  lemma PrintedTextIsRejected(raw: nat)
    ensures ParseUsdAmount(FormatUsd(raw)).None?
  {
    hide ParseUsdAmount, UsdDigits;
    var s := FormatUsd(raw);
    assert s[|UsdDigits(raw)|] == ' ';
    if ParseUsdAmount(s).Some? { AmountChars(s, ' '); }
  }

  // ----- Circle's scaled fees -----

  /** `split_once('.')`, with no point read as an empty fraction. */
  function SplitOnce(s: string): (string, string) {
    if s == "" then ("", "")
    else if s[0] == '.' then ("", s[1..])
    else var (a, b) := SplitOnce(s[1..]); ([s[0]] + a, b)
  }

  lemma {:induction false} SplitOnceAt(w: string, f: string)
    requires AllDigits(w)
    ensures SplitOnce(w + "." + f) == (w, f)
    ensures SplitOnce(w) == (w, "")
  {
    if w == "" {
      assert (w + "." + f)[1..] == f;
    } else {
      assert (w + "." + f)[1..] == w[1..] + "." + f;
      SplitOnceAt(w[1..], f);
      assert IsDigit(w[0]) && [w[0]] + w[1..] == w;
    }
  }

  function ParseDigits(s: string): Option<nat> {
    if s == "" then Some(0) else ParseUnsigned(s, U128_MAX)
  }

  /** Bytes of a character, and of text, in UTF-8. */
  function Width(c: char): (w: nat)
    ensures w > 0
  {
    if c as nat < 0x80 then 1 else if c as nat < 0x800 then 2 else if c as nat < 0x1_0000 then 3 else 4
  }

  function ByteLength(s: string): nat {
    if s == "" then 0 else ByteLength(s[..|s| - 1]) + Width(s[|s| - 1])
  }

  /** `get(..n)`: the first `n` bytes, unless that cuts a character. */
  function BytePrefix(s: string, n: nat): Option<string>
    requires n <= ByteLength(s)
    decreases |s|
  {
    if n == ByteLength(s) then Some(s)
    else if n > ByteLength(s[..|s| - 1]) then None
    else BytePrefix(s[..|s| - 1], n)
  }

  /** The fraction cut to `scale` bytes; empty if that cuts a character. */
  function CutFraction(f: string, scale: nat): (cut: string)
    ensures ByteLength(cut) <= scale
  {
    if ByteLength(f) <= scale then f
    else match BytePrefix(f, scale)
      case Some(prefix) => PrefixLength(f, scale); prefix
      case None => ""
  }

  lemma {:induction false} PrefixLength(s: string, n: nat)
    requires n <= ByteLength(s) && BytePrefix(s, n).Some?
    ensures ByteLength(BytePrefix(s, n).value) == n
    decreases |s|
  {
    if n < ByteLength(s) { PrefixLength(s[..|s| - 1], n); }
  }

  /** The fraction cut or padded to exactly `scale` bytes. */
  function ScaledFraction(f: string, scale: nat): string {
    var cut := CutFraction(f, scale);
    cut + Zeros(scale - ByteLength(cut))
  }

  lemma {:induction false} DigitBytes(f: string)
    requires AllDigits(f)
    ensures ByteLength(f) == |f|
  {
    if f != "" {
      DigitBytes(f[..|f| - 1]);
      assert IsDigit(f[|f| - 1]);
    }
  }

  lemma {:induction false} DigitPrefix(f: string, n: nat)
    requires AllDigits(f) && n <= |f|
    ensures ByteLength(f) == |f| && BytePrefix(f, n) == Some(f[..n])
    decreases |f|
  {
    DigitBytes(f);
    if n == |f| {
      assert f[..n] == f;
    } else {
      DigitBytes(f[..|f| - 1]);
      DigitPrefix(f[..|f| - 1], n);
      assert f[..|f| - 1][..n] == f[..n];
    }
  }

  /** On digits, bytes are characters. */
  lemma DigitFraction(f: string, scale: nat)
    requires AllDigits(f)
    ensures ScaledFraction(f, scale) == PadRight(if |f| > scale then f[..scale] else f, scale)
  {
    hide BytePrefix, ByteLength;
    DigitBytes(f);
    if |f| > scale {
      DigitPrefix(f, scale);
      DigitBytes(f[..scale]);
    }
    var cut := CutFraction(f, scale);
    assert cut + Zeros(0) == cut;
  }

  function Checked(n: nat): Option<nat> {
    if n <= U128_MAX then Some(n) else None
  }

  function TimesScale(whole: nat, scale: nat): nat {
    whole * Pow10(scale)
  }

  function ScaledValue(s: string, scale: nat): Option<nat> {
    var (i, f) := SplitOnce(s);
    match ParseDigits(i)
    case None => None
    case Some(whole) =>
      match Checked(TimesScale(whole, scale))
      case None => None
      case Some(scaled) =>
        match ParseDigits(ScaledFraction(f, scale))
        case None => None
        case Some(frac) => Checked(scaled + frac)
  }

  /** `parse_scaled`, with its padding loop. */
  method ParseScaled(s: string, scale: nat) returns (r: Option<nat>)
    requires Pow10(scale) <= U128_MAX
    ensures r == ScaledValue(s, scale)
  {
    hide TimesScale, ParseDigits, Checked, SplitOnce, BytePrefix;
    var (i, f) := SplitOnce(s);
    var frac := CutFraction(f, scale);
    ghost var start := frac;
    while ByteLength(frac) < scale
      invariant ByteLength(start) <= ByteLength(frac) <= scale
      invariant frac == start + Zeros(ByteLength(frac) - ByteLength(start))
      decreases scale - ByteLength(frac)
    {
      OneByteMore(frac);
      assert Zeros(ByteLength(frac) - ByteLength(start)) + "0" == Zeros(ByteLength(frac) + 1 - ByteLength(start));
      frac := frac + "0";
    }
    assert frac == ScaledFraction(f, scale);
    hide ScaledFraction, CutFraction, ByteLength, Zeros;
    var whole := ParseDigits(i);
    if whole.None? { return None; }
    var scaled := Checked(TimesScale(whole.value, scale));
    if scaled.None? { return None; }
    var part := ParseDigits(frac);
    if part.None? { return None; }
    r := Checked(scaled.value + part.value);
  }

  lemma OneByteMore(s: string)
    ensures ByteLength(s + "0") == ByteLength(s) + 1
  {
    assert (s + "0")[..|s + "0"| - 1] == s;
  }

  lemma {:induction false} Pow10Add(a: nat, b: nat)
    ensures Pow10(a + b) == Pow10(a) * Pow10(b)
  {
    if a > 0 {
      Pow10Add(a - 1, b);
      MulAssoc(10, Pow10(a - 1), Pow10(b));
    }
  }

  lemma MulAssoc(x: nat, y: nat, z: nat)
    ensures x * y * z == x * (y * z)
  {
  }

  /** Multiplying out the two ways of scaling `w.f`. */
  lemma ScaledBounds(w: nat, fv: nat, kept: nat, rest: nat, len: nat, scale: nat)
    requires fv < Pow10(len)
    requires if len > scale then rest < Pow10(len - scale) && fv == kept * Pow10(len - scale) + rest
             else kept == fv * Pow10(scale - len)
    ensures (w * Pow10(scale) + kept) * Pow10(len) <= (w * Pow10(len) + fv) * Pow10(scale)
                                                     < (w * Pow10(scale) + kept + 1) * Pow10(len)
  {
    var p, q := Pow10(scale), Pow10(len);
    if len > scale {
      var k := Pow10(len - scale);
      Pow10Add(scale, len - scale);
      assert kept * q == (kept * k) * p by { assert q == p * k; Rearrange(kept, p, k); }
      assert fv * p == (kept * k) * p + rest * p by { Distribute(kept * k, rest, p); }
      assert rest * p < q by { assert q == p * k; Strict(rest, k, p); }
      Expand(w, p, q, kept, fv);
    } else {
      Pow10Add(scale - len, len);
      assert fv * p == kept * q by { Rearrange(fv, Pow10(scale - len), q); }
      Expand(w, p, q, kept, fv);
    }
  }

  lemma Rearrange(x: nat, a: nat, b: nat)
    ensures x * (a * b) == (x * b) * a == (x * a) * b
  {
  }

  lemma Distribute(x: nat, y: nat, z: nat)
    ensures (x + y) * z == x * z + y * z
  {
  }

  lemma Strict(x: nat, y: nat, z: nat)
    requires x < y && z > 0
    ensures x * z < z * y
  {
    assert (y - x) * z > 0;
    assert y * z == (y - x) * z + x * z;
  }

  lemma Expand(w: nat, p: nat, q: nat, kept: nat, fv: nat)
    ensures (w * p + kept) * q == w * p * q + kept * q
    ensures (w * q + fv) * p == w * p * q + fv * p
    ensures (w * p + kept + 1) * q == w * p * q + kept * q + q
  {
    Distribute(w * p, kept, q);
    Distribute(w * q, fv, p);
    Distribute(w * p + kept, 1, q);
    Rearrange(w, p, q);
  }

  /** The digits cut off, as a number. */
  function CutOff(f: string, scale: nat): nat
    requires AllDigits(f)
  {
    if |f| > scale then Value(f[scale..]) else 0
  }

  lemma FractionKept(f: string, scale: nat)
    requires AllDigits(f)
    ensures AllDigits(ScaledFraction(f, scale)) && |ScaledFraction(f, scale)| == scale
    ensures var kept := Value(ScaledFraction(f, scale));
            && kept < Pow10(scale)
            && (if |f| > scale then
                  CutOff(f, scale) < Pow10(|f| - scale) && Value(f) == kept * Pow10(|f| - scale) + CutOff(f, scale)
                else kept == Value(f) * Pow10(scale - |f|))
  {
    hide Pow10, Value, ScaledFraction;
    DigitFraction(f, scale);
    if |f| > scale {
      PaddedValue(f[..scale], scale);
      assert PadRight(f[..scale], scale) == f[..scale];
      ValueConcat(f[..scale], f[scale..]);
      assert f == f[..scale] + f[scale..];
    } else {
      PaddedValue(f, scale);
    }
  }

  lemma DigitsParse(s: string)
    requires AllDigits(s)
    ensures ParseDigits(s) == Checked(Value(s))
  {
    ParseDigitsOnly(s, U128_MAX);
  }

  lemma ScaledOfParts(w: string, f: string, scale: nat)
    requires AllDigits(w) && AllDigits(ScaledFraction(f, scale))
    ensures ScaledValue(w + "." + f, scale) == Checked(Value(w) * Pow10(scale) + Value(ScaledFraction(f, scale)))
  {
    hide Pow10, Value, SplitOnce, ScaledFraction, ParseDigits, AllDigits;
    SplitOnceAt(w, f);
    DigitsParse(w);
    DigitsParse(ScaledFraction(f, scale));
    TimesAtLeast(Value(w), Pow10(scale));
  }

  /** The digits of the fraction that are kept. */
  function Kept(f: string, scale: nat): nat
    requires AllDigits(f)
  {
    FractionKept(f, scale);
    Value(ScaledFraction(f, scale))
  }

  /** On `digits.digits` the result is the number times ten to the scale, rounded down; or an error
      exactly when that does not fit 128 bits. */
  lemma ScaledIsFloor(w: string, f: string, scale: nat)
    requires AllDigits(w) && AllDigits(f) && Pow10(scale) <= U128_MAX
    ensures var floor := Value(w) * Pow10(scale) + Kept(f, scale);
            && floor * Pow10(|f|) <= (Value(w) * Pow10(|f|) + Value(f)) * Pow10(scale) < (floor + 1) * Pow10(|f|)
            && ScaledValue(w + "." + f, scale) == Checked(floor)
  {
    hide Pow10, Value, SplitOnce, ScaledFraction, ScaledValue, CutOff;
    FractionKept(f, scale);
    ValueConcat("", f);
    assert "" + f == f;
    ScaledOfParts(w, f, scale);
    ScaledBounds(Value(w), Value(f), Kept(f, scale), CutOff(f, scale), |f|, scale);
  }

  /** Text without a point is scaled exactly. */
  lemma ScaledWhole(w: string, scale: nat)
    requires AllDigits(w)
    ensures ScaledValue(w, scale) == Checked(Value(w) * Pow10(scale))
  {
    hide Pow10, Value, SplitOnce, ParseDigits, ScaledFraction, AllDigits;
    SplitOnceAt(w, "");
    NoFraction(scale);
    DigitsParse(w);
    DigitsParse(ScaledFraction("", scale));
    TimesAtLeast(Value(w), Pow10(scale));
  }

  lemma NoFraction(scale: nat)
    ensures AllDigits(ScaledFraction("", scale)) && Value(ScaledFraction("", scale)) == 0
  {
    assert ScaledFraction("", scale) == Zeros(scale);
    ValueZeros(scale);
  }

  lemma TimesAtLeast(x: nat, p: nat)
    requires p > 0
    ensures x * p >= x
  {
  }
}
