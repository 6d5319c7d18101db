/** Degree-based trigonometry and the angle normalisation of calculateElements. */
module Angles {
  import opened Numerics

  /** `Deg.sin(v)`: the sine of an angle given in degrees. */
  function DegSin(rt: Runtime, v: real): real {
    rt.sin(v * DEG_TO_RAD)
  }

  /** `Deg.cos(v)`: the cosine of an angle given in degrees. */
  function DegCos(rt: Runtime, v: real): real {
    rt.cos(v * DEG_TO_RAD)
  }

  /** Truncation toward zero, as JavaScript's remainder uses it. */
  function Trunc(x: real): (n: int)
    ensures 0.0 <= x ==> 0.0 <= n as real <= x < n as real + 1.0
    ensures x <= 0.0 ==> n as real - 1.0 < x <= n as real <= 0.0
  {
    if x >= 0.0 then x.Floor else -((-x).Floor)
  }

  /**
    JavaScript's `x % 360`: the remainder keeps the sign of `x`, so it lies in
    (-360, 360) and not in [0, 360); it differs from `x` by whole turns.
  */
  function Mod360(x: real): (r: real)
    ensures -360.0 < r < 360.0
    ensures 0.0 <= x ==> 0.0 <= r
    ensures x <= 0.0 ==> r <= 0.0
    ensures ((x - r) / 360.0).Floor as real == (x - r) / 360.0
    ensures -360.0 < x < 360.0 ==> r == x
  {
    x - (Trunc(x / 360.0) as real) * 360.0
  }

  /** Normalising twice changes nothing. */
  lemma Mod360Idempotent(x: real)
    ensures Mod360(Mod360(x)) == Mod360(x)
  {
  }

  /** A negative angle stays negative: -90 degrees normalises to -90, not to 270. */
  lemma Mod360KeepsSign()
    ensures Mod360(-90.0) == -90.0
    ensures Mod360(-450.0) == -90.0
    ensures Mod360(720.0) == 0.0
  {
    assert Trunc(-450.0 / 360.0) == -1;
    assert Trunc(720.0 / 360.0) == 2;
  }

  /** Degrees to radians: `ns.DEG_TO_RAD * deg`. Keeps the sign; (-360, 360) maps into (-2 pi, 2 pi). */
  function ToRadians(deg: real): (rad: real)
    ensures rad * RAD_TO_DEG == deg
    ensures (0.0 <= deg ==> 0.0 <= rad) && (deg <= 0.0 ==> rad <= 0.0)
    ensures -360.0 < deg < 360.0 ==> -2.0 * PI < rad < 2.0 * PI
  {
    DEG_TO_RAD * deg
  }

  /** The five angles that calculateElements normalises and converts to radians. */
  predicate HasAngles(c: map<string, real>) {
    "E" in c && "i" in c && "o" in c && "w" in c && "M" in c
  }

  predicate IsAngleKey(k: string) {
    k == "E" || k == "i" || k == "o" || k == "w" || k == "M"
  }

  /**
    Lines 150-159: each of E, i, o, w, M is reduced with `% 360` and then
    multiplied by DEG_TO_RAD exactly once; every other field is left alone.
  */
  function NormalizeAngles(c: map<string, real>): (d: map<string, real>)
    requires HasAngles(c)
    ensures d.Keys == c.Keys
    ensures forall k :: k in c && !IsAngleKey(k) ==> d[k] == c[k]
    ensures forall k :: k in c && IsAngleKey(k) ==>
      d[k] == ToRadians(Mod360(c[k])) && -2.0 * PI < d[k] < 2.0 * PI
    ensures forall k :: k in c && IsAngleKey(k) ==>
      (0.0 <= c[k] ==> 0.0 <= d[k]) && (c[k] <= 0.0 ==> d[k] <= 0.0)
  {
    map k | k in c :: if IsAngleKey(k) then ToRadians(Mod360(c[k])) else c[k]
  }
}
