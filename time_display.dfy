/**
 * The minutes / seconds / milliseconds split of a race time in seconds, as the
 * timer of the game view and the results screen compute it with Python's
 * floating-point floor division, modulo and int() (here on exact reals).
 */
module TimeDisplay {
  import RaceLogic

  /** Python's int() on a float: truncation toward zero. */
  function Trunc(x: real): (r: int)
    ensures x >= 0.0 ==> r == x.Floor
    ensures x < 0.0 ==> r == -((-x).Floor)
    ensures x <= 0.0 ==> r <= 0
    ensures RaceLogic.Abs(r as real) <= RaceLogic.Abs(x) < RaceLogic.Abs(r as real) + 1.0
  {
    if x >= 0.0 then x.Floor else -((-x).Floor)
  }

  /** Python's x // y on floats, for a positive divisor. */
  function FloorDiv(x: real, y: real): (r: real)
    requires y > 0.0
    ensures r == r.Floor as real
    ensures y * r <= x < y * r + y
  {
    var q := x / y;
    var f := q.Floor as real;
    assert x == y * q;
    Scales(y, f, q);
    assert f <= q < f + 1.0;
    Scales(y, q, f + 1.0);
    assert x < y * (f + 1.0);
    assert y * (f + 1.0) == y * f + y;
    f
  }

  lemma Scales(y: real, a: real, b: real)
    requires y > 0.0 && a <= b
    ensures y * a <= y * b
    ensures a < b ==> y * a < y * b
  {
  }

  /** Python's x % y on floats, for a positive divisor: the result takes the
      sign of the divisor. */
  function Mod(x: real, y: real): (r: real)
    requires y > 0.0
    ensures 0.0 <= r < y
    ensures x == y * FloorDiv(x, y) + r
  {
    var q := x / y;
    var f := q - q.Floor as real;
    assert x == y * q;
    assert x - y * FloorDiv(x, y) == y * f;
    FractionScales(y, f);
    x - y * FloorDiv(x, y)
  }

  lemma FractionScales(y: real, f: real)
    requires y > 0.0 && 0.0 <= f < 1.0
    ensures 0.0 <= y * f < y
  {
  }

  datatype Clock = Clock(minutes: int, seconds: int, milliseconds: int)

  /** The displayed split of t seconds. */
  function Decompose(t: real): (c: Clock)
    ensures 0 <= c.seconds < 60 && 0 <= c.milliseconds < 1000
    ensures t >= 0.0 ==> c.minutes >= 0
  {
    Clock(Trunc(FloorDiv(t, 60.0)), Trunc(Mod(t, 60.0)), Trunc(Mod(t, 1.0) * 1000.0))
  }

  /** The split is in range and reassembles to t up to less than a millisecond. */
  lemma DecomposeRecomposes(t: real)
    ensures var c := Decompose(t);
      && 0 <= c.seconds < 60 && 0 <= c.milliseconds < 1000
      && (t >= 0.0 ==> c.minutes >= 0)
      && var shown := (60 * c.minutes + c.seconds) as real + c.milliseconds as real / 1000.0;
         shown <= t < shown + 0.001
  {
    var m := (t / 60.0).Floor;
    var rest := t - 60.0 * m as real;
    assert 0.0 <= rest < 60.0;
    var s := rest.Floor;
    assert Decompose(t).minutes == m;
    assert Decompose(t).seconds == s;
    // The fraction left after whole seconds is t % 1.
    assert t.Floor == 60 * m + s;
    var frac := t - t.Floor as real;
    assert Mod(t, 1.0) == frac;
    var ms := (frac * 1000.0).Floor;
    assert Decompose(t).milliseconds == ms;
    assert ms as real <= frac * 1000.0 < ms as real + 1.0;
  }

  /** A race of 83.25 seconds shows as 01:23.250. */
  lemma DecomposeExample()
    ensures Decompose(83.25) == Clock(1, 23, 250)
  {
    assert (83.25 / 60.0).Floor == 1;
    assert (83.25 / 1.0).Floor == 83;
  }
}
