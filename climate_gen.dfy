/**
 * The Hamburg climate generator (src/climate_gen_hamburg/run.py): it replays hourly
 * series of air density, temperature and wind speed at quarter-hour ticks, so each
 * hour is split into four ticks interpolated linearly between one sample and the
 * next.
 */
module ClimateGen {
  import ModCounter

  /** `DIVIDE`: ticks per sample. */
  const DIVIDE: nat := 4

  /** The published values and the tick's timestamp. */
  datatype Climate = Climate(density: real, temperature: real, windspeed: real, timestamp: string)

  /** `alpha = (COUNT % DIVIDE) / DIVIDE`, the share of the way to the next sample. */
  function Alpha(count: nat): (alpha: real)
    ensures alpha == 0.0 || alpha == 0.25 || alpha == 0.5 || alpha == 0.75
    ensures alpha == 0.0 <==> count % DIVIDE == 0
  {
    (count % DIVIDE) as real / DIVIDE as real
  }

  /** The point `alpha` of the way from `a` to `b`. */
  function Interpolate(a: real, b: real, alpha: real): (v: real)
    ensures alpha == 0.0 ==> v == a
    ensures alpha == 1.0 ==> v == b
  {
    a * (1.0 - alpha) + b * alpha
  }

  /**
   * With any alpha the generator uses, the value lies between the two samples, and
   * alpha 0 gives the first sample itself.
   */
  lemma InterpolateBetween(a: real, b: real, count: nat)
    ensures a <= b ==> a <= Interpolate(a, b, Alpha(count)) <= b
    ensures b <= a ==> b <= Interpolate(a, b, Alpha(count)) <= a
    ensures count % DIVIDE == 0 ==> Interpolate(a, b, Alpha(count)) == a
  {
    var alpha := Alpha(count);
    assert Interpolate(a, b, alpha) == a + (b - a) * alpha;
  }

  /** One tick of the `POS` / `COUNT` pair: `COUNT` cycles through 0..3 and `POS` moves on as it wraps. */
  function Step(pos: nat, count: nat, length: nat): (r: (nat, nat))
    requires pos < length
    ensures r.0 < length
    ensures count < DIVIDE ==> r.1 == (count + 1) % DIVIDE && (r.0 != pos ==> r.1 == 0)
  {
    if (count + 1) % DIVIDE == 0 then (ModCounter.Next(pos, length), 0) else (pos, count + 1)
  }

  /** `n` ticks of `Step`. */
  function Ticks(pos: nat, count: nat, length: nat, n: nat): (r: (nat, nat))
    requires pos < length
    ensures r.0 < length
  {
    if n == 0 then (pos, count) else var (p, c) := Ticks(pos, count, length, n - 1); Step(p, c, length)
  }

  /** After `n` ticks `POS` has advanced once per completed group of four, wrapping at the series length. */
  lemma {:induction false} TicksAdvance(pos: nat, count: nat, length: nat, n: nat)
    requires pos < length && count < DIVIDE
    ensures Ticks(pos, count, length, n) == (ModCounter.After(pos, length, (count + n) / DIVIDE), (count + n) % DIVIDE)
  {
    if n > 0 {
      TicksAdvance(pos, count, length, n - 1);
      var k := (count + n - 1) / DIVIDE;
      var c := (count + n - 1) % DIVIDE;
      assert count + n - 1 == DIVIDE * k + c;
      if c + 1 == DIVIDE {
        assert (count + n) / DIVIDE == k + 1 && (count + n) % DIVIDE == 0;
        ModCounter.AfterSplit(pos, length, k, 1);
      } else {
        assert (count + n) / DIVIDE == k && (count + n) % DIVIDE == c + 1;
      }
    }
  }

  class Generator {
    /** `DATA`: the three series, all of length `LENGTH`. */
    const density: seq<real>
    const temperature: seq<real>
    const windspeed: seq<real>
    const length: nat
    var pos: nat
    var count: nat

    /** `POS` indexes the series and `COUNT` stays in [0, 4). */
    ghost predicate Valid()
      reads this`pos, this`count
    {
      && length > 0
      && |density| == length && |temperature| == length && |windspeed| == length
      && pos < length && count < DIVIDE
    }

    constructor (density: seq<real>, temperature: seq<real>, windspeed: seq<real>)
      requires |density| > 0 && |temperature| == |density| && |windspeed| == |density|
      ensures Valid()
      ensures this.density == density && this.temperature == temperature && this.windspeed == windspeed
      ensures pos == 0 && count == 0
    {
      this.density := density;
      this.temperature := temperature;
      this.windspeed := windspeed;
      length := |density|;
      pos := 0;
      count := 0;
    }

    /**
     * `on_message_tick`: publish the three series interpolated between `POS` and the
     * next sample with the tick's timestamp, then advance `COUNT`, and `POS` with it
     * every fourth tick.
     */
    method OnMessageTick(tick: string) returns (climate: Climate)
      requires Valid()
      modifies this`pos, this`count
      ensures Valid()
      ensures climate.timestamp == tick
      ensures var next := ModCounter.Next(old(pos), length); var alpha := Alpha(old(count));
        && climate.density == Interpolate(density[old(pos)], density[next], alpha)
        && climate.temperature == Interpolate(temperature[old(pos)], temperature[next], alpha)
        && climate.windspeed == Interpolate(windspeed[old(pos)], windspeed[next], alpha)
      ensures (pos, count) == Step(old(pos), old(count), length)
    {
      var alpha := (count % DIVIDE) as real / DIVIDE as real;
      ModCounter.NextIsModulo(pos, length);
      var next := (pos + 1) % length;
      climate := Climate(
        density[pos] * (1.0 - alpha) + density[next] * alpha,
        temperature[pos] * (1.0 - alpha) + temperature[next] * alpha,
        windspeed[pos] * (1.0 - alpha) + windspeed[next] * alpha,
        tick);
      count := count + 1;
      if count % DIVIDE == 0 {
        pos := (pos + 1) % length;
        count := 0;
      }
    }
  }
}
