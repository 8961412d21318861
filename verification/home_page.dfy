/** The progress summary of the home page (`HomePage`): the completion
    percentage of a goal from its done and total days, and the colour band and
    status label it is shown with. The percentage is computed exactly over the
    rationals and rounded half up, as `Math.round` does. */
module HomePage {

  /** `Math.floor(n / d)` for a non-zero divisor. */
  function FloorDiv(n: int, d: int): int
    requires d != 0
  {
    if d > 0 then n / d else (-n) / (-d)
  }

  /** `Math.round(n / d)` for a positive divisor: the nearest integer, halves
      going up. */
  function RoundHalfUp(n: int, d: int): (r: int)
    requires d > 0
    ensures 2 * d * r <= 2 * n + d < 2 * d * r + 2 * d
  {
    (2 * n + d) / (2 * d)
  }

  function Clamp(p: int): (r: int)
    ensures 0 <= r <= 100
    ensures 0 <= p <= 100 ==> r == p
  {
    if p < 0 then 0 else if p > 100 then 100 else p
  }

  /** `getPercent(goal)`: 0 for a zero total, otherwise
      `Math.round(done / total * 100)` clamped to 0..100. */
  function Percent(done: int, total: int): (r: int)
    ensures 0 <= r <= 100
    ensures total == 0 ==> r == 0
    ensures total > 0 ==> r == Clamp(RoundHalfUp(100 * done, total))
    ensures total < 0 ==> r == Clamp(RoundHalfUp(-100 * done, -total))
  {
    if total == 0 then 0
    else if total > 0 then Clamp(RoundHalfUp(100 * done, total))
    else Clamp(RoundHalfUp(-100 * done, -total))
  }

  /** The rounding agrees with the floor of `ratio + 1/2`. */
  lemma RoundIsFloorOfHalfUp(n: int, d: int)
    requires d > 0
    ensures RoundHalfUp(n, d) == FloorDiv(2 * n + d, 2 * d)
  {
  }

  /** A finished goal shows 100, an untouched one 0. */
  lemma PercentEnds(total: int)
    requires total != 0
    ensures Percent(total, total) == 100
    ensures Percent(0, total) == 0
  {
    var d := if total > 0 then total else -total;
    var n := if total > 0 then 100 * total else -100 * total;
    assert n == 100 * d;
    assert RoundHalfUp(n, d) == 100 by {
      assert 2 * n + d == 2 * d * 100 + d;
      RoundedQuotient(n, d, 100);
    }
    assert RoundHalfUp(0, d) == 0 by {
      RoundedQuotient(0, d, 0);
    }
  }

  /** The rounded value is the unique integer within half of the ratio. */
  lemma RoundedQuotient(n: int, d: int, q: int)
    requires d > 0
    requires 2 * d * q <= 2 * n + d < 2 * d * q + 2 * d
    ensures RoundHalfUp(n, d) == q
  {
    var r := RoundHalfUp(n, d);
    if r < q {
      MulMonotone(2 * d, r + 1, q);
      assert false;
    } else if r > q {
      MulMonotone(2 * d, q + 1, r);
      assert false;
    }
  }

  lemma MulMonotone(m: int, a: int, b: int)
    requires m > 0 && a <= b
    ensures m * a <= m * b
  {
    var k := b - a;
    assert m * b == m * a + m * k;
  }

  /** More days done never lowers the percentage. */
  lemma PercentMonotone(done: int, done': int, total: int)
    requires total > 0 && done <= done'
    ensures Percent(done, total) <= Percent(done', total)
  {
    var r := RoundHalfUp(100 * done, total);
    var r' := RoundHalfUp(100 * done', total);
    if r > r' {
      MulMonotone(2 * total, r' + 1, r);
      assert false;
    }
  }

  /** The four colour bands. */
  datatype Band = Complete | High | Middle | Low

  /** The band a percentage falls in: 100 and above, 80-99, 60-79, below 60. */
  function BandOf(p: int): (b: Band)
    ensures b == Complete <==> p >= 100
    ensures b == High <==> 80 <= p < 100
    ensures b == Middle <==> 60 <= p < 80
    ensures b == Low <==> p < 60
  {
    if p >= 100 then Complete else if p >= 80 then High else if p >= 60 then Middle else Low
  }

  /** `getBarClass(percent)`: the colour of the band the percentage falls in. */
  function BarClass(p: int): (c: string)
    ensures c == BandClass(BandOf(p))
  {
    if p >= 100 then "bg-emerald-500"
    else if p >= 80 then "bg-blue-500"
    else if p >= 60 then "bg-amber-500"
    else "bg-rose-500"
  }

  /** `statusText(p)`: the label of the band the percentage falls in, so the
      label always names the same band as the bar colour. */
  function StatusText(p: int): (t: string)
    ensures t == BandStatus(BandOf(p))
  {
    if p >= 100 then "100% (Done)"
    else if p >= 80 then "80–99%"
    else if p >= 60 then "60–79%"
    else "0–59%"
  }

  /** The colour and the label of each band, as the legend pairs them. */
  function BandClass(b: Band): string {
    match b
    case Complete => "bg-emerald-500"
    case High => "bg-blue-500"
    case Middle => "bg-amber-500"
    case Low => "bg-rose-500"
  }

  function BandStatus(b: Band): string {
    match b
    case Complete => "100% (Done)"
    case High => "80–99%"
    case Middle => "60–79%"
    case Low => "0–59%"
  }

  /** Distinct bands have distinct colours and distinct labels, so the colour
      alone (or the label alone) tells the band. */
  lemma BandNamesDistinct(a: Band, b: Band)
    requires a != b
    ensures BandClass(a) != BandClass(b)
    ensures BandStatus(a) != BandStatus(b)
  {
    assert BandClass(a)[3] != BandClass(b)[3];
    assert BandStatus(a)[0] != BandStatus(b)[0] || |BandStatus(a)| != |BandStatus(b)|;
  }
}
