/** The numeric helpers of JavaScript the bot uses: `Math.round`, `Math.max`/`Math.min` clamps and `Math.abs`. */
module Numbers {

  /** `Math.round(x)`: the nearest integer, halves rounded toward +infinity. */
  function Round(x: real): (r: int)
    ensures r as real - 0.5 <= x < r as real + 0.5
  {
    (x + 0.5).Floor
  }

  lemma RoundMonotone(x: real, y: real)
    requires x <= y
    ensures Round(x) <= Round(y)
  {}

  lemma RoundOfInt(n: int)
    ensures Round(n as real) == n
  {}

  /** `Math.round(part / whole * 100)`: a percentage, within [0, 100] whenever 0 <= part <= whole. */
  function Percent(part: int, whole: int): (r: int)
    requires whole > 0
    ensures 0 <= part <= whole ==> 0 <= r <= 100
    ensures part == whole ==> r == 100
    ensures part == 0 ==> r == 0
  {
    var q := part as real / whole as real;
    assert q * whole as real == part as real;
    assert 0 <= part <= whole ==> 0.0 <= q <= 1.0;
    assert part == whole ==> q == 1.0;
    var x := q * 100.0;
    Round(x)
  }

  /** A KDA as displayed: 'Perfect' without deaths, otherwise (kills + assists) / deaths. */
  datatype KdaFigure = Perfect | Ratio(value: real)

  function KdaFigureOf(kills: real, deaths: real, assists: real): (r: KdaFigure)
    ensures r == Perfect <==> deaths == 0.0
    ensures r.Ratio? ==> r.value * deaths == kills + assists
  {
    if deaths == 0.0 then Perfect else Ratio((kills + assists) / deaths)
  }

  /** `Math.max(lo, Math.min(hi, x))`. */
  function Clamp(x: int, lo: int, hi: int): (r: int)
    requires lo <= hi
    ensures lo <= r <= hi
    ensures lo <= x <= hi ==> r == x
  {
    if x < lo then lo else if x > hi then hi else x
  }

  function Abs(x: int): (r: nat)
    ensures r == x || r == -x
  {
    if x < 0 then -x else x
  }

  function MaxInt(a: int, b: int): (r: int)
    ensures r >= a && r >= b && (r == a || r == b)
  {
    if a >= b then a else b
  }
}
