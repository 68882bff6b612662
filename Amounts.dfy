/** Amount cells of a ledger row and the JavaScript coercions the voucher
    screens apply to them: `Number(x)`, `Number(x) || 0`, truthiness and
    `Number(x) > 0`. Amounts are exact reals, so no floating-point rounding
    is modelled. */
module Amounts {

  datatype Option<T> = None | Some(value: T)

  /** The two sides of a double-entry row. */
  datatype Side = Debit | Credit

  function Opposite(side: Side): (o: Side)
    ensures o != side
  {
    if side == Debit then Credit else Debit
  }

  /** A debit or credit cell: the text an `<input type="number">` reports
      (the input reports "" for anything that is not a valid number), or a
      number taken from a stored voucher opened for editing. */
  datatype Cell = Text(s: string) | Num(n: real)

  const Blank: Cell := Text("")

  predicate IsDigit(c: char) { '0' <= c <= '9' }

  function DigitValue(c: char): (d: nat)
    requires IsDigit(c)
    ensures d < 10
  {
    c as int - '0' as int
  }

  predicate AllDigits(s: string) { forall i :: 0 <= i < |s| ==> IsDigit(s[i]) }

  /** Value of a string of decimal digits, most significant first. */
  function DigitsValue(s: string): nat
    requires AllDigits(s)
  {
    if s == [] then 0 else DigitsValue(s[..|s| - 1]) * 10 + DigitValue(s[|s| - 1])
  }

  function Pow10(k: nat): (p: nat)
    ensures p >= 1
  {
    if k == 0 then 1 else 10 * Pow10(k - 1)
  }

  /** Position of the first '.', or |s| when there is none. */
  function IndexOfDot(s: string): (i: nat)
    ensures i <= |s|
    ensures i < |s| ==> s[i] == '.'
    ensures forall j :: 0 <= j < i ==> s[j] != '.'
  {
    if s == [] || s[0] == '.' then 0 else 1 + IndexOfDot(s[1..])
  }

  /** Value of the numeral `whole.frac`. */
  function DecimalValue(whole: string, frac: string): (v: real)
    requires AllDigits(whole) && AllDigits(frac)
    ensures v >= 0.0
  {
    DigitsValue(whole) as real + DigitsValue(frac) as real / Pow10(|frac|) as real
  }

  /** An unsigned decimal numeral: "12", "12.5", "12." or ".5"; anything
      else is not a number. */
  function ParseUnsigned(s: string): (r: Option<real>)
    ensures r.Some? ==> r.value >= 0.0
  {
    var i := IndexOfDot(s);
    var whole := s[..i];
    var frac := if i < |s| then s[i + 1..] else [];
    if |whole| + |frac| == 0 || !AllDigits(whole) || !AllDigits(frac) then None
    else Some(DecimalValue(whole, frac))
  }

  /** JavaScript `Number(x)` on a cell; None stands for NaN. The empty text
      is 0, a leading '-' negates and a leading '+' is dropped. */
  function ToNumber(c: Cell): (r: Option<real>)
    ensures c.Text? && c.s == "" ==> r == Some(0.0)
    ensures c.Num? ==> r == Some(c.n)
    ensures c.Text? && c.s != [] && IsDigit(c.s[0]) ==> r == ParseUnsigned(c.s)
  {
    match c
    case Num(n) => Some(n)
    case Text(s) =>
      if s == "" then Some(0.0)
      else if s[0] == '-' then
        (match ParseUnsigned(s[1..]) case Some(v) => Some(-v) case None => None)
      else if s[0] == '+' then ParseUnsigned(s[1..])
      else ParseUnsigned(s)
  }

  /** `Number(x) || 0`: NaN (and zero) become 0. */
  function NumberOrZero(c: Cell): real
  {
    match ToNumber(c)
    case Some(v) => v
    case None => 0.0
  }

  /** JavaScript truthiness of the cell itself: "" and the number 0 are
      falsy; every other text, "0" and "-5" included, is truthy. */
  predicate Truthy(c: Cell)
  {
    match c
    case Text(s) => s != ""
    case Num(n) => n != 0.0
  }

  /** `Number(x) > 0`; NaN compares false. */
  predicate Positive(c: Cell)
  {
    ToNumber(c).Some? && ToNumber(c).value > 0.0
  }

  lemma PositiveIsTruthyAndCounted(c: Cell)
    ensures Positive(c) ==> Truthy(c) && NumberOrZero(c) > 0.0
    ensures Positive(c) <==> NumberOrZero(c) > 0.0
  {
  }

  /** Text "0" is filled in (truthy) yet neither positive nor counted. */
  lemma ZeroTextIsTruthyButNotPositive()
    ensures Truthy(Text("0")) && !Positive(Text("0")) && NumberOrZero(Text("0")) == 0.0
  {
    assert Text("0").s[1..] == [];
    assert IndexOfDot("0") == 1 by { assert IndexOfDot("0"[1..]) == 0; }
    assert "0"[..1] == "0";
    assert DigitsValue("0") == 0 by { assert "0"[..0] == []; }
  }

  /** `Number()` on any text it reads as NaN ("abc", "-x", ".", "1a"): such
      text is not empty, so it is filled in, yet it is not positive and adds
      0. The number input itself reports "" for such text, so this is about
      `Number()` and truthiness, not about what the input can hold. */
  lemma NonNumericTextCountsAsZero(s: string)
    requires ToNumber(Text(s)).None?
    ensures s != ""
    ensures NumberOrZero(Text(s)) == 0.0 && !Positive(Text(s)) && Truthy(Text(s))
  {
  }

  function DigitChar(d: nat): (c: char)
    requires d < 10
    ensures IsDigit(c) && DigitValue(c) == d
  {
    ('0' as int + d) as char
  }

  /** Decimal rendering of a natural number. */
  function NatText(n: nat): (s: string)
    ensures |s| >= 1 && AllDigits(s)
  {
    if n < 10 then [DigitChar(n)] else NatText(n / 10) + [DigitChar(n % 10)]
  }

  lemma {:induction false} NatTextValue(n: nat)
    ensures DigitsValue(NatText(n)) == n
  {
    if n >= 10 {
      NatTextValue(n / 10);
      var s := NatText(n);
      assert s[..|s| - 1] == NatText(n / 10);
    }
  }

  lemma NoDotInDigits(s: string)
    requires AllDigits(s)
    ensures IndexOfDot(s) == |s|
  {
  }

  /** An amount in cents written with two decimals: optional '-', whole
      units, '.', two digits. */
  function CentsText(cents: int): string
  {
    var m: nat := if cents < 0 then -cents else cents;
    var body := NatText(m / 100) + "." + [DigitChar(m % 100 / 10), DigitChar(m % 10)];
    if cents < 0 then "-" + body else body
  }

  lemma DotAfterDigits(whole: string, frac: string)
    requires AllDigits(whole)
    ensures IndexOfDot(whole + "." + frac) == |whole|
  {
    var s := whole + "." + frac;
    assert s[|whole|] == '.';
    forall j | 0 <= j < |whole| ensures s[j] != '.' {
      assert s[j] == whole[j];
    }
  }

  lemma ParseWholeDotFraction(whole: string, frac: string)
    requires |whole| > 0 && AllDigits(whole) && AllDigits(frac)
    ensures ParseUnsigned(whole + "." + frac) == Some(DecimalValue(whole, frac))
  {
    var s := whole + "." + frac;
    DotAfterDigits(whole, frac);
    assert s[..|whole|] == whole;
    assert s[|whole| + 1..] == frac;
  }

  lemma TwoDigitsValue(a: nat, b: nat)
    requires a < 10 && b < 10
    ensures DigitsValue([DigitChar(a), DigitChar(b)]) == 10 * a + b
  {
    var t := [DigitChar(a), DigitChar(b)];
    assert t[..1] == [DigitChar(a)];
    assert [DigitChar(a)][..0] == [];
    assert DigitsValue([DigitChar(a)]) == a;
    assert DigitsValue(t) == DigitsValue(t[..1]) * 10 + DigitValue(t[1]);
  }

  lemma CentsSplit(m: nat)
    ensures (m / 100) as real + (10 * (m % 100 / 10) + m % 10) as real / 100.0 == m as real / 100.0
  {
    var q, r := m / 100, m % 100;
    var a, b := r / 10, r % 10;
    assert m == 100 * q + r;
    assert r == 10 * a + b;
    assert m % 10 == b;
    assert m as real == 100.0 * (q as real) + (r as real);
  }

  lemma TwoDecimalsValue(whole: string, frac: string)
    requires AllDigits(whole) && AllDigits(frac) && |frac| == 2
    ensures DecimalValue(whole, frac) == DigitsValue(whole) as real + DigitsValue(frac) as real / 100.0
  {
    assert Pow10(2) == 100;
  }

  lemma CentsBodyValue(m: nat)
    ensures ParseUnsigned(NatText(m / 100) + "." + [DigitChar(m % 100 / 10), DigitChar(m % 10)])
            == Some(m as real / 100.0)
  {
    var q, d1, d2 := m / 100, m % 100 / 10, m % 10;
    var whole, frac := NatText(q), [DigitChar(d1), DigitChar(d2)];
    ParseWholeDotFraction(whole, frac);
    TwoDecimalsValue(whole, frac);
    NatTextValue(q);
    TwoDigitsValue(d1, d2);
    CentsSplit(m);
  }

  /** Round trip: the text of an amount in cents converts back to that amount. */
  lemma CentsRoundTrip(cents: int)
    ensures ToNumber(Text(CentsText(cents))) == Some(cents as real / 100.0)
  {
    var m: nat := if cents < 0 then -cents else cents;
    var body := NatText(m / 100) + "." + [DigitChar(m % 100 / 10), DigitChar(m % 10)];
    CentsBodyValue(m);
    assert body[0] == NatText(m / 100)[0];
    if cents < 0 {
      assert ("-" + body)[1..] == body;
      assert CentsText(cents) == "-" + body;
    } else {
      assert CentsText(cents) == body;
    }
  }

  /** Round trip for whole numbers typed without a fraction. */
  lemma NatRoundTrip(n: nat)
    ensures ToNumber(Text(NatText(n))) == Some(n as real)
  {
    var s := NatText(n);
    NoDotInDigits(s);
    NatTextValue(n);
    assert s[..|s|] == s;
  }
}
