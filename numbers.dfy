/** Python's numeric conversions on the values the fetchers, handlers and web
    apps handle, with reals standing for floats: `int(x)` (truncation toward
    zero), `round(x)` (to the nearest integer, ties to even), `round(x, k)`,
    `x % 1`, and `str()` of the integers and rounded floats that end up in
    records and text. */
module Numbers {

  import opened Wrappers
  import opened Text

  function Pow10(k: nat): (p: nat)
    ensures p >= 1
  {
    if k == 0 then 1 else 10 * Pow10(k - 1)
  }

  /** Python's `int(x)` on a float: truncation toward zero. */
  function Trunc(x: real): (i: int)
    ensures x >= 0.0 ==> i == x.Floor
    ensures x >= 0.0 ==> 0.0 <= x - i as real < 1.0
    ensures x < 0.0 ==> -1.0 < x - i as real <= 0.0
  {
    if x >= 0.0 then x.Floor else -((-x).Floor)
  }

  /** Python's `round(x)`: the nearest integer, and the even one of the two
      nearest when `x` lies exactly half-way between them. */
  function RoundHalfEven(x: real): (n: int)
    ensures n as real - 0.5 <= x <= n as real + 0.5
    ensures (x == n as real - 0.5 || x == n as real + 0.5) ==> n % 2 == 0
  {
    var f := x.Floor;
    var d := x - f as real;
    if d < 0.5 then f
    else if d > 0.5 then f + 1
    else if f % 2 == 0 then f
    else f + 1
  }

  /** Python's `x % 1` on a number: its distance above the integer below it. */
  function Frac(x: real): (r: real)
    ensures 0.0 <= r < 1.0
  {
    x - x.Floor as real
  }

  /** A JSON number as the records hold it: a Python int, or a float that is the
      result of `round(x, places)` and so equals `units / 10^places`. */
  datatype Number = Int(i: int) | Dec(units: int, places: nat) {

    function Value(): real {
      match this
      case Int(i) => i as real
      case Dec(u, k) => u as real / Pow10(k) as real
    }
  }

  /** Python's `round(x, places)`: a float with `places` decimals, ties to even;
      it is within half a unit of the last decimal of `x`. */
  function RoundTo(x: real, places: nat): (r: Number)
    ensures r.Dec? && r.places == places
    ensures x - 0.5 / Pow10(places) as real <= r.Value() <= x + 0.5 / Pow10(places) as real
  {
    var p := Pow10(places) as real;
    var u := RoundHalfEven(x * p);
    assert Dec(u, places).Value() == u as real / p;
    ScaleBound(x, u as real, p);
    Dec(u, places)
  }

  /** Dividing a value within one half of `x * p` by `p` keeps it within `0.5 / p` of `x`. */
  lemma ScaleBound(x: real, v: real, p: real)
    requires p >= 1.0
    requires x * p - 0.5 <= v <= x * p + 0.5
    ensures x - 0.5 / p <= v / p <= x + 0.5 / p
  {
    var d := v - x * p;
    assert v / p == x + d / p;
    assert -0.5 / p <= d / p <= 0.5 / p;
  }

  /** The `places` decimal digits of `f`, zero-padded on the left. */
  function FixedDigits(f: nat, places: nat): (s: string)
    ensures |s| == places && AllDigits(s)
  {
    if places == 0 then "" else FixedDigits(f / 10, places - 1) + [DigitChar(f % 10)]
  }

  function DropTrailingZeros(s: string): (r: string)
    ensures |r| <= |s| && r == s[..|r|]
    ensures r != [] ==> r[|r| - 1] != '0'
  {
    if s != [] && s[|s| - 1] == '0' then DropTrailingZeros(s[..|s| - 1]) else s
  }

  /** Python's `repr` of the float `units / 10^places`: the integer part, a point
      and the decimals without trailing zeros, keeping at least one digit. */
  function DecText(units: int, places: nat): (s: string)
    ensures s != [] && (s[0] == '-' || IsDigit(s[0]))
  {
    var a: nat := if units < 0 then -units else units;
    var p := Pow10(places);
    DivModBounds(a, p);
    var whole := NatText(a / p);
    var digits := DropTrailingZeros(FixedDigits(a % p, places));
    var decimals := if digits == "" then "0" else digits;
    var tail := whole + "." + decimals;
    assert tail[0] == whole[0];
    if units < 0 then "-" + tail else tail
  }

  /** `str(n)` of a JSON number. */
  function NumberText(n: Number): (s: string)
    ensures s != [] && (s[0] == '-' || IsDigit(s[0]))
  {
    match n
    case Int(i) => IntText(i)
    case Dec(u, k) => DecText(u, k)
  }

  /** `str(x)` of an optional JSON number: a null renders as `None`. */
  function ShowNumber(n: Option<Number>): string {
    match n
    case Some(v) => NumberText(v)
    case None => "None"
  }

  // ----- lemmas -----

  /** Euclidean division of a natural number by a positive one. */
  lemma DivModBounds(a: nat, p: nat)
    requires p >= 1
    ensures a / p >= 0 && 0 <= a % p < p
  {
  }

  /** `round` is determined by its two defining properties. */
  lemma RoundUnique(x: real, n: int)
    requires n as real - 0.5 <= x <= n as real + 0.5
    requires (x == n as real - 0.5 || x == n as real + 0.5) ==> n % 2 == 0
    ensures RoundHalfEven(x) == n
  {
  }

  /** Shifting by an even integer commutes with `round`, ties included. */
  lemma RoundShiftEven(x: real, k: int)
    ensures RoundHalfEven(x + (2 * k) as real) == RoundHalfEven(x) + 2 * k
  {
    var n := RoundHalfEven(x);
    RoundUnique(x + (2 * k) as real, n + 2 * k);
  }

  /** A rendered number holds only digits, a sign and a point. */
  lemma NumberTextChars(n: Number, c: char)
    requires !IsDigit(c) && c != '-' && c != '.'
    ensures c !in NumberText(n)
  {
    match n
    case Int(i) =>
      if i < 0 {
        DigitsHaveNoChar(NatText(-i), c);
      } else {
        DigitsHaveNoChar(NatText(i), c);
      }
    case Dec(u, k) =>
      var a: nat := if u < 0 then -u else u;
      var p := Pow10(k);
      DivModBounds(a, p);
      var digits := DropTrailingZeros(FixedDigits(a % p, k));
      assert AllDigits(digits) by {
        var f := FixedDigits(a % p, k);
        assert forall j :: 0 <= j < |digits| ==> digits[j] == f[j];
      }
      var whole := NatText(a / p);
      var decimals := if digits == "" then "0" else digits;
      assert AllDigits(decimals);
      DigitsHaveNoChar(whole, c);
      DigitsHaveNoChar(decimals, c);
      var tail := whole + "." + decimals;
      assert c !in tail;
      assert NumberText(n) == if u < 0 then "-" + tail else tail;
  }
}
