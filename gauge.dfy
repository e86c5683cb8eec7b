/** The dashboard's gauges: `GaugeCard` clamps its value into [min, max] and
    splits the half-disc into a filled and a remaining segment; the value fed
    to each card comes from a `||` fallback chain (live reading, then the last
    history entry, then a default) in which 0 counts as missing. */
module Gauge {
  import opened Common

  /** The two pie segments of a gauge. */
  datatype Proportion = Proportion(filled: real, remaining: real)

  /** `value > max ? max : (value < min ? min : value)`. With a proper domain
      the result is the point of [min, max] nearest to the value. */
  function Clamp(value: real, min: real, max: real): (r: real)
    ensures min <= max ==> min <= r <= max
    ensures min <= value <= max ==> r == value
    ensures min <= max ==> forall y :: min <= y <= max ==> Dist(r, value) <= Dist(y, value)
    ensures r == value || r == min || r == max
  {
    if value > max then max else if value < min then min else value
  }

  function Dist(a: real, b: real): real {
    if a <= b then b - a else a - b
  }

  /** The segments `GaugeCard` draws for `value` over [min, max]. */
  function Segments(value: real, min: real, max: real): (p: Proportion)
    ensures p.filled + p.remaining == max
    ensures p.filled == Clamp(value, min, max)
    ensures min <= max ==> min <= p.filled <= max && 0.0 <= p.remaining <= max - min
    ensures min <= max && value >= max ==> p.remaining == 0.0
    ensures min <= max && value <= min ==> p.filled == min
  {
    var filled := Clamp(value, min, max);
    Proportion(filled, max - filled)
  }

  /** Clamping a clamped value changes nothing. */
  lemma ClampIdempotent(value: real, min: real, max: real)
    requires min <= max
    ensures Clamp(Clamp(value, min, max), min, max) == Clamp(value, min, max)
    ensures Segments(Segments(value, min, max).filled, min, max) == Segments(value, min, max)
  {
  }

  /** A larger value never fills less of the gauge. */
  lemma ClampMonotone(v: real, w: real, min: real, max: real)
    requires min <= max && v <= w
    ensures Clamp(v, min, max) <= Clamp(w, min, max)
  {
  }

  /** The three gauges on the dashboard. */
  datatype Metric = Ph | Temperature | Turbidity

  function Field(r: Reading, m: Metric): Option<real> {
    match m
    case Ph => r.ph
    case Temperature => r.temperature
    case Turbidity => r.turbidity
  }

  /** The last operand of each fallback chain. */
  function Default(m: Metric): real {
    match m
    case Ph => 7.0
    case Temperature => 25.0
    case Turbidity => 0.0
  }

  /** The domain each card is given. */
  function Domain(m: Metric): (d: (real, real))
    ensures d.0 <= d.1
  {
    match m
    case Ph => (0.0, 14.0)
    case Temperature => (0.0, 50.0)
    case Turbidity => (0.0, 500.0)
  }

  /** `history[history.length - 1]?.<field>`: absent on an empty history. */
  function LastField(history: seq<Reading>, m: Metric): Option<real> {
    if history == [] then None else Field(history[|history| - 1], m)
  }

  /** `lastReading?.<field> || history[history.length - 1]?.<field> || <default>`. */
  function GaugeValue(live: Option<Reading>, history: seq<Reading>, m: Metric): (v: real)
    ensures live.Some? && Truthy(Field(live.value, m)) ==> v == Field(live.value, m).value
    ensures !(live.Some? && Truthy(Field(live.value, m))) && Truthy(LastField(history, m)) ==>
              v == LastField(history, m).value
    ensures !(live.Some? && Truthy(Field(live.value, m))) && !Truthy(LastField(history, m)) ==>
              v == Default(m)
  {
    var fromLive := if live.Some? then Field(live.value, m) else None;
    if Truthy(fromLive) then fromLive.value
    else if Truthy(LastField(history, m)) then LastField(history, m).value
    else Default(m)
  }

  /** A live reading whose field is exactly 0 is treated as missing: the gauge
      shows what it would show with no live reading at all. */
  lemma ZeroReadingIsMissing(live: Reading, history: seq<Reading>, m: Metric)
    requires Field(live, m) == Some(0.0)
    ensures GaugeValue(Some(live), history, m) == GaugeValue(None, history, m)
  {
  }

  /** The pH and temperature gauges never receive 0, whatever the inputs. */
  lemma GaugeValueNeverZero(live: Option<Reading>, history: seq<Reading>, m: Metric)
    requires m != Turbidity
    ensures GaugeValue(live, history, m) != 0.0
  {
  }

  /** The gauge as drawn for one metric: its filled and remaining segments
      always sum to the top of the metric's domain and never leave it. */
  function GaugeFor(live: Option<Reading>, history: seq<Reading>, m: Metric): (p: Proportion)
    ensures p.filled + p.remaining == Domain(m).1
    ensures Domain(m).0 <= p.filled <= Domain(m).1 && p.remaining >= 0.0
    ensures Domain(m).0 <= GaugeValue(live, history, m) <= Domain(m).1 ==>
              p.filled == GaugeValue(live, history, m)
  {
    Segments(GaugeValue(live, history, m), Domain(m).0, Domain(m).1)
  }
}
