/** The time wrap and the phase bands of `updateDayNightCycle`. */
module DayNight {

  /** Day fractions advanced per second of frame time (TIME_SPEED). */
  const TIME_SPEED: real := 0.00005

  datatype Phase = Night | Dawn | Dusk | Day

  datatype Rgb = Rgb(r: real, g: real, b: real)

  /** What one phase band sets: the HUD label, the sun's intensity and its colour. */
  datatype Sky = Sky(phase: Phase, sunIntensity: real, sunColor: Rgb)

  const NIGHT_COLOR := Rgb(0.05, 0.05, 0.1)
  const TWILIGHT_COLOR := Rgb(1.0, 0.8, 0.6)
  const DAY_COLOR := Rgb(1.0, 1.0, 1.0)

  predicate IsWhole(y: real) {
    y.Floor as real == y
  }

  /** JavaScript's `x % 1.0`: the quotient is truncated toward zero, so the remainder
      keeps the sign of `x`. */
  function RemOne(x: real): (r: real)
    ensures -1.0 < r < 1.0
    ensures 0.0 <= x ==> 0.0 <= r
    ensures x <= 0.0 ==> r <= 0.0
    ensures IsWhole(x - r)
    ensures -1.0 < x < 1.0 ==> r == x
  {
    if 0.0 <= x then
      var k := x.Floor;
      assert (k as real).Floor == k;
      x - k as real
    else
      var k := (-x).Floor;
      assert (-k as real).Floor == -k;
      x + k as real
  }

  /** `timeOfDay += delta * TIME_SPEED; timeOfDay %= 1.0`. */
  function Advance(t: real, delta: real): (r: real)
    ensures 0.0 <= t < 1.0 && 0.0 <= delta ==> 0.0 <= r < 1.0
    ensures IsWhole(t + delta * TIME_SPEED - r)
    ensures -1.0 < t < 1.0 ==> -1.0 < r < 1.0
  {
    RemOne(t + delta * TIME_SPEED)
  }

  /** The first-match bands: night, then dawn/dusk, then day. */
  function SkyAt(t: real): (s: Sky)
    ensures s.phase == Night <==> t < 0.25 || t > 0.75
    ensures s.phase == Dawn <==> 0.25 <= t < 0.35
    ensures s.phase == Dusk <==> 0.65 < t <= 0.75
    ensures s.phase == Day <==> 0.35 <= t <= 0.65
    ensures s.phase == Night ==> s.sunIntensity == 0.1 && s.sunColor == NIGHT_COLOR
    ensures s.phase in {Dawn, Dusk} ==> s.sunIntensity == 0.8 && s.sunColor == TWILIGHT_COLOR
    ensures s.phase == Day ==> s.sunIntensity == 1.5 && s.sunColor == DAY_COLOR
  {
    if t < 0.25 || t > 0.75 then
      Sky(Night, 0.1, NIGHT_COLOR)
    else if t < 0.35 || t > 0.65 then
      Sky(if t < 0.5 then Dawn else Dusk, 0.8, TWILIGHT_COLOR)
    else
      Sky(Day, 1.5, DAY_COLOR)
  }

  /** The scene background: the sun colour at half brightness. */
  function Dim(c: Rgb): Rgb {
    Rgb(c.r * 0.5, c.g * 0.5, c.b * 0.5)
  }
}
