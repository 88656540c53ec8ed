/** The text of an amount in a debit request. Amounts are counted in units of 10^-15, the scale of the
    database columns; the same lines stand in the API and in the cron job. */
module AmountText {
  import opened Options

  const UNIT: nat := 1_000_000_000_000_000

  // ---------------------------------------------------------------- digits

  predicate IsDigit(c: char) { '0' <= c <= '9' }

  predicate AllDigits(s: string) { forall i :: 0 <= i < |s| ==> IsDigit(s[i]) }

  function DigitValue(c: char): (d: nat)
    requires IsDigit(c)
    ensures d < 10
  {
    c as int - '0' as int
  }

  function Digit(d: nat): (c: char)
    requires d < 10
    ensures IsDigit(c) && DigitValue(c) == d
  {
    (d + '0' as int) as char
  }

  function Value(s: string): nat
    requires AllDigits(s)
  {
    if s == "" then 0 else Value(s[..|s| - 1]) * 10 + DigitValue(s[|s| - 1])
  }

  function Pow10(k: nat): (p: nat)
    ensures p > 0
  {
    if k == 0 then 1 else 10 * Pow10(k - 1)
  }

  // ---------------------------------------------------------------- what the text should be

  /** `int` in the grammar of RFC 8259, section 6: a lone zero, or digits that do not start with one. */
  predicate IsInt(s: string) {
    s == "0" || (s != "" && AllDigits(s) && s[0] != '0')
  }

  predicate IsExp(s: string) {
    && |s| >= 2
    && (s[0] == 'e' || s[0] == 'E')
    && (if s[1] == '+' || s[1] == '-' then |s| >= 3 && AllDigits(s[2..]) else AllDigits(s[1..]))
  }

  /** `number` in the same grammar. */
  ghost predicate IsJsonNumber(t: string) {
    exists minus: string, whole: string, frac: string, exp: string ::
      && t == minus + whole + frac + exp
      && (minus == "" || minus == "-")
      && IsInt(whole)
      && (frac == "" || (|frac| >= 2 && frac[0] == '.' && AllDigits(frac[1..])))
      && (exp == "" || IsExp(exp))
  }

  /** The number digits / 10^places. */
  datatype Decimal = Decimal(digits: nat, places: nat)

  function DotAt(t: string): (d: nat)
    ensures d <= |t|
  {
    if t == "" || t[0] == '.' then 0 else 1 + DotAt(t[1..])
  }

  /** How a reader takes a number without sign and exponent. */
  function Parse(t: string): Option<Decimal> {
    var dot := DotAt(t);
    var whole := t[..dot];
    if !IsInt(whole) then None
    else if dot == |t| then Some(Decimal(Value(whole), 0))
    else
      var frac := t[dot + 1..];
      if frac == "" || !AllDigits(frac) then None
      else Some(Decimal(Value(whole + frac), |frac|))
  }

  /** The decimal is the amount of n units: digits / 10^places == n / 10^15. */
  predicate SameAmount(d: Decimal, n: nat) {
    d.digits * UNIT == n * Pow10(d.places)
  }

  /** A fraction digit at least, and no trailing zero unless it is the only one. */
  predicate Canonical(t: string) {
    && Parse(t).Some?
    && Parse(t).value.places >= 1
    && (t[|t| - 1] == '0' ==> Parse(t).value.places == 1)
  }

  // ---------------------------------------------------------------- what the code prints

  /** A natural number without leading zeros. */
  function Natural(n: nat): string {
    if n < 10 then [Digit(n)] else Natural(n / 10) + [Digit(n % 10)]
  }

  /** The last `width` digits of a number, leading zeros included. */
  function Padded(n: nat, width: nat): string {
    if width == 0 then "" else Padded(n / 10, width - 1) + [Digit(n % 10)]
  }

  /** The verb %.15f on an amount of n units. */
  function Fixed15(n: nat): string {
    Natural(n / UNIT) + "." + Padded(n % UNIT, 15)
  }

  /** strings.TrimRight with the cutset "0". */
  function TrimZeros(s: string): string {
    if s != "" && s[|s| - 1] == '0' then TrimZeros(s[..|s| - 1]) else s
  }

  /** Main result: the text reads back as the amount it was printed from, and is canonical. */
  method FormatAmount(n: nat) returns (amount: string)
    ensures Canonical(amount) && SameAmount(Parse(amount).value, n)
    ensures Parse(amount).value.digits * 1_000_000_000_000_000 == n * Pow10(Parse(amount).value.places)
    ensures IsJsonNumber(amount)
  {
    amount := Fixed15(n);
    amount := TrimZeros(amount);
    ghost var trimmed := TrimmedDenotes(n, amount);
    if |amount| > 0 && amount[|amount| - 1] == '.' {
      BareDotGetsZero(Natural(n / UNIT), trimmed, n);
      amount := amount + "0";
    } else {
      TrimmedIsCanonical(Natural(n / UNIT), trimmed, n);
    }
    ParsedIsJson(amount);
  }

  // ---------------------------------------------------------------- proof: values of digit strings

  lemma ValueSnoc(s: string, c: char)
    requires AllDigits(s) && IsDigit(c)
    ensures AllDigits(s + [c]) && Value(s + [c]) == Value(s) * 10 + DigitValue(c)
  {
    assert (s + [c])[..|s + [c]| - 1] == s;
  }

  lemma {:induction false} ValueConcat(a: string, b: string)
    requires AllDigits(a) && AllDigits(b)
    ensures AllDigits(a + b) && Value(a + b) == Value(a) * Pow10(|b|) + Value(b)
  {
    if b == "" {
      assert a + b == a;
    } else {
      var b', c := b[..|b| - 1], b[|b| - 1];
      ValueConcat(a, b');
      ValueSnoc(a + b', c);
      assert a + b == a + b' + [c];
      TenTimes(Value(a), Pow10(|b'|));
    }
  }

  lemma TenTimes(x: nat, y: nat)
    ensures x * (10 * y) == 10 * (x * y)
  {
  }

  lemma {:induction false} NaturalValue(n: nat)
    ensures IsInt(Natural(n)) && AllDigits(Natural(n)) && Value(Natural(n)) == n
    ensures n > 0 ==> Natural(n)[0] != '0'
  {
    if n < 10 {
      ValueSnoc("", Digit(n));
      assert "" + [Digit(n)] == [Digit(n)];
    } else {
      NaturalValue(n / 10);
      ValueSnoc(Natural(n / 10), Digit(n % 10));
    }
  }

  lemma {:induction false} PaddedValue(n: nat, width: nat)
    requires n < Pow10(width)
    ensures |Padded(n, width)| == width && AllDigits(Padded(n, width)) && Value(Padded(n, width)) == n
  {
    if width > 0 {
      PaddedValue(n / 10, width - 1);
      ValueSnoc(Padded(n / 10, width - 1), Digit(n % 10));
    }
  }

  lemma UnitIsPow10()
    ensures Pow10(15) == UNIT
  {
    assert Pow10(3) == 1000;
    assert Pow10(6) == 1000000;
    assert Pow10(9) == 1000000000;
    assert Pow10(12) == 1000000000000;
  }

  /** Whole part and fraction of a text, before anything is known about its value. */
  predicate Shape(t: string, whole: string, frac: string) {
    t == whole + "." + frac && IsInt(whole) && AllDigits(frac)
  }

  lemma FixedDenotes(n: nat)
    ensures var whole, frac := Natural(n / UNIT), Padded(n % UNIT, 15);
            && Shape(Fixed15(n), whole, frac)
            && AllDigits(whole + frac) && |frac| == 15
            && SameAmount(Decimal(Value(whole + frac), |frac|), n)
  {
    UnitIsPow10();
    NaturalValue(n / UNIT);
    PaddedValue(n % UNIT, 15);
    ValueConcat(Natural(n / UNIT), Padded(n % UNIT, 15));
  }

  lemma IntIsDigits(s: string)
    requires IsInt(s)
    ensures AllDigits(s) && s != ""
  {
  }

  // ---------------------------------------------------------------- proof: reading and trimming

  lemma {:induction false} DotAfterDigits(whole: string, rest: string)
    requires AllDigits(whole)
    ensures DotAt(whole + "." + rest) == |whole|
  {
    var t := whole + "." + rest;
    if whole != "" {
      DotAfterDigits(whole[1..], rest);
      assert t[0] == whole[0];
      assert t[1..] == whole[1..] + "." + rest;
    }
  }

  lemma ShapeParses(whole: string, frac: string)
    requires IsInt(whole) && AllDigits(frac) && frac != ""
    ensures AllDigits(whole + frac)
    ensures Parse(whole + "." + frac) == Some(Decimal(Value(whole + frac), |frac|))
  {
    IntIsDigits(whole);
    DotAfterDigits(whole, frac);
    var t := whole + "." + frac;
    assert t[..|whole|] == whole && t[|whole| + 1..] == frac;
  }

  lemma {:induction false} TrimShape(whole: string, frac: string)
    requires AllDigits(frac)
    ensures TrimZeros(whole + "." + frac) == whole + "." + TrimZeros(frac)
    ensures AllDigits(TrimZeros(frac))
    ensures TrimZeros(frac) != "" ==> TrimZeros(frac)[|TrimZeros(frac)| - 1] != '0'
  {
    var t := whole + "." + frac;
    if frac == "" {
      assert t[|t| - 1] == '.';
    } else {
      assert t[|t| - 1] == frac[|frac| - 1];
      if frac[|frac| - 1] == '0' {
        assert t[..|t| - 1] == whole + "." + frac[..|frac| - 1];
        TrimShape(whole, frac[..|frac| - 1]);
      }
    }
  }

  lemma {:induction false} TrimKeepsAmount(whole: string, frac: string, n: nat)
    requires IsInt(whole) && AllDigits(frac) && AllDigits(whole + frac)
    requires SameAmount(Decimal(Value(whole + frac), |frac|), n)
    ensures AllDigits(TrimZeros(frac)) && AllDigits(whole + TrimZeros(frac))
    ensures SameAmount(Decimal(Value(whole + TrimZeros(frac)), |TrimZeros(frac)|), n)
  {
    if frac != "" && frac[|frac| - 1] == '0' {
      var shorter := frac[..|frac| - 1];
      IntIsDigits(whole);
      ValueSnoc(whole + shorter, '0');
      assert whole + frac == whole + shorter + ['0'];
      TenTimes(n, Pow10(|shorter|));
      TrimKeepsAmount(whole, shorter, n);
    }
  }

  lemma EndsWithDot(whole: string, frac: string)
    requires AllDigits(frac)
    ensures var t := whole + "." + frac; t[|t| - 1] == '.' <==> frac == ""
    ensures var t := whole + "." + frac; frac != "" ==> t[|t| - 1] == frac[|frac| - 1]
  {
    var t := whole + "." + frac;
    assert t[|t| - 1] == if frac == "" then '.' else frac[|frac| - 1];
  }

  /** The text holds the amount in this whole part and this fraction, which may still be empty. */
  predicate Holds(whole: string, frac: string, n: nat) {
    && IsInt(whole) && AllDigits(frac) && AllDigits(whole + frac)
    && SameAmount(Decimal(Value(whole + frac), |frac|), n)
  }

  lemma TrimmedDenotes(n: nat, t: string) returns (trimmed: string)
    requires t == TrimZeros(Fixed15(n))
    ensures t == Natural(n / UNIT) + "." + trimmed && Holds(Natural(n / UNIT), trimmed, n)
    ensures trimmed != "" ==> trimmed[|trimmed| - 1] != '0'
    ensures t[|t| - 1] == '.' <==> trimmed == ""
  {
    var whole, frac := Natural(n / UNIT), Padded(n % UNIT, 15);
    FixedDenotes(n);
    TrimShape(whole, frac);
    TrimKeepsAmount(whole, frac, n);
    trimmed := TrimZeros(frac);
    EndsWithDot(whole, trimmed);
  }

  lemma TrimmedIsCanonical(whole: string, frac: string, n: nat)
    requires Holds(whole, frac, n) && frac != "" && frac[|frac| - 1] != '0'
    ensures Canonical(whole + "." + frac) && SameAmount(Parse(whole + "." + frac).value, n)
  {
    ShapeParses(whole, frac);
    EndsWithDot(whole, frac);
  }

  lemma BareDotGetsZero(whole: string, frac: string, n: nat)
    requires Holds(whole, frac, n) && frac == ""
    ensures Canonical(whole + "." + frac + "0") && SameAmount(Parse(whole + "." + frac + "0").value, n)
  {
    IntIsDigits(whole);
    assert whole + "" == whole;
    ValueSnoc(whole, '0');
    assert whole + ['0'] == whole + "0";
    ShapeParses(whole, "0");
    assert whole + "." + frac + "0" == whole + "." + "0";
  }

  // ---------------------------------------------------------------- what the result means

  /** What the reader accepts is a number of RFC 8259, section 6. */
  lemma ParsedIsJson(t: string)
    requires Parse(t).Some?
    ensures IsJsonNumber(t)
  {
    var dot := DotAt(t);
    var whole, frac := t[..dot], t[dot..];
    assert t == "" + whole + frac + "";
    if dot < |t| {
      assert frac[0] == '.' by { DotIsDot(t); }
      assert frac[1..] == t[dot + 1..];
    }
  }

  lemma {:induction false} DotIsDot(t: string)
    requires DotAt(t) < |t|
    ensures t[DotAt(t)] == '.'
  {
    if t[0] != '.' {
      DotIsDot(t[1..]);
    }
  }

  lemma {:induction false} ValueBelow(s: string)
    requires AllDigits(s)
    ensures Value(s) < Pow10(|s|)
  {
    if s != "" {
      ValueBelow(s[..|s| - 1]);
    }
  }

  lemma SameTens(q: nat, r: nat, q': nat, r': nat)
    requires r < 10 && r' < 10 && q * 10 + r == q' * 10 + r'
    ensures q == q' && r == r'
  {
  }

  lemma SameDigit(c: char, d: char)
    requires IsDigit(c) && IsDigit(d) && DigitValue(c) == DigitValue(d)
    ensures c == d
  {
  }

  lemma {:induction false} SameDigits(a: string, b: string)
    requires AllDigits(a) && AllDigits(b) && |a| == |b| && Value(a) == Value(b)
    ensures a == b
  {
    if a != "" {
      var n := |a| - 1;
      var a', b' := a[..n], b[..n];
      SameTens(Value(a'), DigitValue(a[n]), Value(b'), DigitValue(b[n]));
      SameDigit(a[n], b[n]);
      SameDigits(a', b');
      assert a == a' + [a[n]] == b' + [b[n]] == b;
    }
  }

  lemma {:induction false} IntAtLeast(s: string)
    requires IsInt(s) && s != "0"
    ensures AllDigits(s) && Value(s) >= 1
  {
    if |s| > 1 {
      IntAtLeast(s[..|s| - 1]);
    } else {
      assert s == [s[0]];
    }
  }

  lemma LongIntIsBig(s: string)
    requires IsInt(s) && |s| > 1
    ensures AllDigits(s) && Value(s) >= 10
  {
    IntAtLeast(s[..|s| - 1]);
  }

  lemma OneDigit(s: string)
    requires AllDigits(s) && |s| == 1
    ensures Value(s) == DigitValue(s[0])
  {
    assert s[..0] == "";
  }

  lemma {:induction false} SameInts(a: string, b: string)
    requires IsInt(a) && IsInt(b)
    requires AllDigits(a) && AllDigits(b) && Value(a) == Value(b)
    ensures a == b
  {
    if |a| > 1 && |b| > 1 {
      var m, n := |a| - 1, |b| - 1;
      var a', b' := a[..m], b[..n];
      SameTens(Value(a'), DigitValue(a[m]), Value(b'), DigitValue(b[n]));
      SameDigit(a[m], b[n]);
      SameInts(a', b');
      assert a == a' + [a[m]] == b' + [b[n]] == b;
    } else if |a| > 1 {
      LongIntIsBig(a);
      OneDigit(b);
    } else if |b| > 1 {
      LongIntIsBig(b);
      OneDigit(a);
    } else {
      SameDigits(a, b);
    }
  }

  /** The parts of a text that parses with a fraction. */
  lemma ParsedParts(t: string) returns (whole: string, frac: string)
    requires Parse(t).Some? && Parse(t).value.places >= 1
    ensures t == whole + "." + frac && IsInt(whole) && AllDigits(frac) && AllDigits(whole + frac)
    ensures frac != "" && t[|t| - 1] == frac[|frac| - 1]
    ensures Parse(t).value == Decimal(Value(whole + frac), |frac|)
  {
    var dot := DotAt(t);
    DotIsDot(t);
    whole, frac := t[..dot], t[dot + 1..];
    assert t == whole + [t[dot]] + frac;
  }

  lemma {:induction false} Pow10Splits(a: nat, b: nat)
    ensures Pow10(a + b) == Pow10(a) * Pow10(b)
  {
    if b > 0 {
      Pow10Splits(a, b - 1);
      TenTimes(Pow10(a), Pow10(b - 1));
    }
  }

  lemma Scaled(x: nat, y: nat, n: nat, p: nat, k: nat)
    requires x * UNIT == n * p && y * UNIT == n * (p * k)
    ensures y == x * k
  {
    assert n * (p * k) == (n * p) * k;
    assert (x * UNIT) * k == (x * k) * UNIT;
  }

  /** Of two decimals of the same amount the one with more places ends in a zero. */
  lemma MorePlacesEndInZero(a: Decimal, b: Decimal, n: nat)
    requires SameAmount(a, n) && SameAmount(b, n) && a.places <= b.places
    ensures a.places == b.places ==> a == b
    ensures a.places < b.places ==> b.digits % 10 == 0
  {
    var k := b.places - a.places;
    Pow10Splits(a.places, k);
    Scaled(a.digits, b.digits, n, Pow10(a.places), Pow10(k));
    if k > 0 {
      TenTimes(a.digits, Pow10(k - 1));
    }
  }

  lemma TensAndOnes(tens: nat, ones: nat)
    requires ones < 10 && (tens * 10 + ones) % 10 == 0
    ensures ones == 0
  {
  }

  lemma LastDigit(s: string)
    requires AllDigits(s) && s != "" && Value(s) % 10 == 0
    ensures s[|s| - 1] == '0'
  {
    TensAndOnes(Value(s[..|s| - 1]), DigitValue(s[|s| - 1]));
  }

  lemma SamePlaces(s: string, t: string, n: nat)
    requires Canonical(s) && SameAmount(Parse(s).value, n)
    requires Canonical(t) && SameAmount(Parse(t).value, n)
    requires Parse(s).value.places <= Parse(t).value.places
    ensures Parse(s) == Parse(t)
  {
    MorePlacesEndInZero(Parse(s).value, Parse(t).value, n);
    if Parse(s).value.places < Parse(t).value.places {
      var whole, frac := ParsedParts(t);
      LastDigit(whole + frac);
    }
  }

  lemma Joined(a: string, x: string, b: string, y: string)
    requires AllDigits(a) && AllDigits(x) && AllDigits(b) && AllDigits(y) && |x| == |y|
    requires AllDigits(a + x) && AllDigits(b + y) && Value(a + x) == Value(b + y)
    ensures Value(a) == Value(b) && Value(x) == Value(y)
  {
    ValueConcat(a, x);
    ValueConcat(b, y);
    ValueBelow(x);
    ValueBelow(y);
    QuotientIsUnique(Value(a), Value(x), Value(b), Value(y), Pow10(|x|));
  }

  lemma {:induction false} Gap(a: nat, b: nat, m: nat)
    requires a < b
    ensures a * m + m <= b * m
  {
    var c := b - 1;
    assert b * m == (c + 1) * m == c * m + m;
    if a < c {
      Gap(a, c, m);
    }
  }

  lemma QuotientIsUnique(q: nat, r: nat, q': nat, r': nat, m: nat)
    requires r < m && r' < m && q * m + r == q' * m + r'
    ensures q == q' && r == r'
  {
    if q < q' {
      Gap(q, q', m);
    } else if q' < q {
      Gap(q', q, m);
    }
  }

  /** Partner of FormatAmount: an amount has one canonical text only, so the printed text is that one. */
  lemma CanonicalIsUnique(s: string, t: string, n: nat)
    requires Canonical(s) && SameAmount(Parse(s).value, n)
    requires Canonical(t) && SameAmount(Parse(t).value, n)
    ensures s == t
  {
    if Parse(s).value.places <= Parse(t).value.places {
      SamePlaces(s, t, n);
    } else {
      SamePlaces(t, s, n);
    }
    var a, x := ParsedParts(s);
    var b, y := ParsedParts(t);
    Joined(a, x, b, y);
    SameDigits(x, y);
    SameInts(a, b);
  }

  /** And no two amounts share a text. */
  lemma TextsDiffer(t: string, n: nat, m: nat)
    requires Canonical(t) && SameAmount(Parse(t).value, n) && SameAmount(Parse(t).value, m)
    ensures n == m
  {
    var p := Pow10(Parse(t).value.places);
    if n < m {
      Gap(n, m, p);
    } else if m < n {
      Gap(m, n, p);
    }
  }
}
