/** The pure calculation pipeline of the salinity widget (src/widget.js):
    slider normalisation, the multiplicative sodium-loss estimate, the
    five-tier classification, the recommendation table, the message draw and
    the display formatting. */
module Salinity {
  import opened Wrappers
  import opened Text

  // ---------------------------------------------------------------------
  // Slider configuration

  datatype SliderConfig = SliderConfig(min: int, max: int, step: nat, default: int, unit: string, labelText: string)

  const DurationSlider := SliderConfig(15, 180, 15, 60, "min", "Duration")
  const TemperatureSlider := SliderConfig(40, 110, 5, 75, "°F", "Temperature")
  const IntensitySlider := SliderConfig(1, 10, 1, 5, "/10", "Intensity")
  const HumiditySlider := SliderConfig(0, 100, 10, 50, "%", "Humidity")

  /** A raw reading of the four sliders after `parseInt`: None stands for NaN. */
  datatype RawInputs = RawInputs(duration: Option<int>, temperature: Option<int>, intensity: Option<int>, humidity: Option<int>)

  /** The four normalised slider values. */
  datatype Inputs = Inputs(duration: int, temperature: int, intensity: int, humidity: int)

  predicate InSlider(v: int, cfg: SliderConfig) { cfg.min <= v <= cfg.max }

  predicate InRange(x: Inputs)
  {
    && InSlider(x.duration, DurationSlider)
    && InSlider(x.temperature, TemperatureSlider)
    && InSlider(x.intensity, IntensitySlider)
    && InSlider(x.humidity, HumiditySlider)
  }

  /** `clampValue`: NaN falls back to the default, anything else is pushed
      into [min, max] by `Math.min(Math.max(value, min), max)`. */
  function Clamp(value: Option<int>, min: int, max: int, default: int): (r: int)
    ensures value.None? ==> r == default
    ensures value.Some? && min <= max ==> min <= r <= max
    ensures value.Some? && min <= value.value <= max ==> r == value.value
    ensures value.Some? && value.value < min <= max ==> r == min
    ensures value.Some? && min <= max < value.value ==> r == max
    ensures value.Some? && max < min ==> r == max
  {
    match value
    case None => default
    case Some(v) =>
      var atLeastMin := if v < min then min else v;
      if atLeastMin > max then max else atLeastMin
  }

  /** Clamping an already clamped reading changes nothing. */
  lemma ClampIdempotent(value: Option<int>, min: int, max: int, default: int)
    requires min <= max
    requires value.Some? || min <= default <= max
    ensures Clamp(Some(Clamp(value, min, max, default)), min, max, default) == Clamp(value, min, max, default)
  {
  }

  function ClampSlider(value: Option<int>, cfg: SliderConfig): int
  {
    Clamp(value, cfg.min, cfg.max, cfg.default)
  }

  /** The `values` record built at the top of `updateCalculation`. */
  function Normalize(raw: RawInputs): (x: Inputs)
    ensures InRange(x)
    ensures raw.duration.None? ==> x.duration == DurationSlider.default
    ensures raw.temperature.None? ==> x.temperature == TemperatureSlider.default
    ensures raw.intensity.None? ==> x.intensity == IntensitySlider.default
    ensures raw.humidity.None? ==> x.humidity == HumiditySlider.default
  {
    Inputs(ClampSlider(raw.duration, DurationSlider),
           ClampSlider(raw.temperature, TemperatureSlider),
           ClampSlider(raw.intensity, IntensitySlider),
           ClampSlider(raw.humidity, HumiditySlider))
  }

  /** Readings that already lie inside their sliders come through unchanged. */
  lemma NormalizeKeepsInRange(x: Inputs)
    requires InRange(x)
    ensures Normalize(RawInputs(Some(x.duration), Some(x.temperature), Some(x.intensity), Some(x.humidity))) == x
  {
  }

  // ---------------------------------------------------------------------
  // Loss estimate (SODIUM_CALC_CONSTANTS and calculateSodiumLoss)

  const BaseLossPerHourMg: real := 600.0
  const TempThresholdModerate: int := 70
  const TempThresholdHigh: int := 85
  const TempFactorModerate: real := 0.02
  const TempFactorHigh: real := 0.03
  const IntensityBaseFactor: real := 0.3
  const IntensityScaleFactor: real := 1.4
  const HumidityThresholdModerate: int := 40
  const HumidityThresholdHigh: int := 70
  const HumidityFactorModerate: real := 0.01
  const HumidityFactorHigh: real := 0.015

  /** Heat multiplier: both surcharges stack once the temperature passes 85F. */
  function TempFactor(t: int): (f: real)
    ensures f >= 1.0
    ensures t <= TempThresholdModerate ==> f == 1.0
    ensures TempThresholdModerate < t <= TempThresholdHigh ==> f == 1.0 + (t - 70) as real * 0.02
    ensures t > TempThresholdHigh ==> f == 1.0 + (t - 70) as real * 0.02 + (t - 85) as real * 0.03
  {
    var base := 1.0;
    var moderate := if t > TempThresholdModerate then base + (t - TempThresholdModerate) as real * TempFactorModerate else base;
    if t > TempThresholdHigh then moderate + (t - TempThresholdHigh) as real * TempFactorHigh else moderate
  }

  /** Effort multiplier, linear in the 1-10 intensity. */
  function IntensityFactor(i: int): (f: real)
    ensures i >= IntensitySlider.min ==> f >= 0.44
  {
    IntensityBaseFactor + (i as real / 10.0) * IntensityScaleFactor
  }

  /** Humidity multiplier: the same stacking pattern with thresholds 40 and 70. */
  function HumidityFactor(h: int): (f: real)
    ensures f >= 1.0
    ensures h <= HumidityThresholdModerate ==> f == 1.0
    ensures HumidityThresholdModerate < h <= HumidityThresholdHigh ==> f == 1.0 + (h - 40) as real * 0.01
    ensures h > HumidityThresholdHigh ==> f == 1.0 + (h - 40) as real * 0.01 + (h - 70) as real * 0.015
  {
    var base := 1.0;
    var moderate := if h > HumidityThresholdModerate then base + (h - HumidityThresholdModerate) as real * HumidityFactorModerate else base;
    if h > HumidityThresholdHigh then moderate + (h - HumidityThresholdHigh) as real * HumidityFactorHigh else moderate
  }

  lemma TempFactorMonotone(t1: int, t2: int)
    requires t1 <= t2
    ensures TempFactor(t1) <= TempFactor(t2)
  {
  }

  lemma HumidityFactorMonotone(h1: int, h2: int)
    requires h1 <= h2
    ensures HumidityFactor(h1) <= HumidityFactor(h2)
  {
  }

  /** `Math.round`: the nearest integer, halves rounded toward +infinity. */
  function RoundHalfUp(v: real): (n: int)
    ensures n as real - 0.5 <= v < n as real + 0.5
  {
    (v + 0.5).Floor
  }

  lemma RoundHalfUpMonotone(v: real, w: real)
    requires v <= w
    ensures RoundHalfUp(v) <= RoundHalfUp(w)
  {
  }

  function Product(a: real, b: real, c: real, d: real): real { a * b * c * d }

  /** The unrounded product 600 * hours * tempFactor * intensityFactor * humidityFactor. */
  function ExactLoss(x: Inputs): real
  {
    Product(BaseLossPerHourMg * (x.duration as real / 60.0), TempFactor(x.temperature),
            IntensityFactor(x.intensity), HumidityFactor(x.humidity))
  }

  /** `calculateSodiumLoss`: the estimate in milligrams. */
  function SodiumLoss(x: Inputs): (mg: int)
    ensures InRange(x) ==> mg >= 0
  {
    ExactLossNonNegative(x);
    RoundHalfUp(ExactLoss(x))
  }

  lemma MulMonotone(a: real, b: real, c: real, d: real)
    requires 0.0 <= a <= b && 0.0 <= c <= d
    ensures 0.0 <= a * c <= b * d
  {
    assert 0.0 <= a * c;
    assert a * c <= b * c by {
      assert (b - a) * c >= 0.0;
    }
    assert b * c <= b * d by {
      assert b * (d - c) >= 0.0;
    }
  }

  lemma ExactLossNonNegative(x: Inputs)
    ensures x.duration >= 0 && x.intensity >= 1 ==> ExactLoss(x) >= 0.0
  {
    if x.duration >= 0 && x.intensity >= 1 {
      ProductMonotone(0.0, 0.0, 0.0, 0.0, BaseLossPerHourMg * (x.duration as real / 60.0), TempFactor(x.temperature),
                      IntensityFactor(x.intensity), HumidityFactor(x.humidity));
    }
  }

  lemma ProductMonotone(a: real, b: real, c: real, d: real, a': real, b': real, c': real, d': real)
    requires 0.0 <= a <= a' && 0.0 <= b <= b' && 0.0 <= c <= c' && 0.0 <= d <= d'
    ensures Product(a, b, c, d) <= Product(a', b', c', d')
  {
    MulMonotone(a, a', b, b');
    MulMonotone(a * b, a' * b', c, c');
    MulMonotone(a * b * c, a' * b' * c', d, d');
  }

  lemma IntensityFactorMonotone(i1: int, i2: int)
    requires i1 <= i2
    ensures IntensityFactor(i1) <= IntensityFactor(i2)
  {
  }

  /** Raising any of the four inputs (the others fixed, or raised too) never
      lowers the estimate. */
  lemma SodiumLossMonotone(x: Inputs, y: Inputs)
    requires InRange(x) && InRange(y)
    requires x.duration <= y.duration && x.temperature <= y.temperature
    requires x.intensity <= y.intensity && x.humidity <= y.humidity
    ensures SodiumLoss(x) <= SodiumLoss(y)
  {
    var ax, tx, ix, hx := BaseLossPerHourMg * (x.duration as real / 60.0), TempFactor(x.temperature), IntensityFactor(x.intensity), HumidityFactor(x.humidity);
    var ay, ty, iy, hy := BaseLossPerHourMg * (y.duration as real / 60.0), TempFactor(y.temperature), IntensityFactor(y.intensity), HumidityFactor(y.humidity);
    TempFactorMonotone(x.temperature, y.temperature);
    IntensityFactorMonotone(x.intensity, y.intensity);
    HumidityFactorMonotone(x.humidity, y.humidity);
    ProductMonotone(ax, tx, ix, hx, ay, ty, iy, hy);
    RoundHalfUpMonotone(ExactLoss(x), ExactLoss(y));
  }

  /** The defaults, the minima and the maxima of the four sliders. */
  lemma SodiumLossWorkedValues()
    ensures SodiumLoss(Inputs(60, 75, 5, 50)) == 726
    ensures SodiumLoss(Inputs(15, 40, 1, 0)) == 66
    ensures SodiumLoss(Inputs(180, 110, 10, 100)) == 15996
  {
    assert ExactLoss(Inputs(60, 75, 5, 50)) == 726.0;
    assert ExactLoss(Inputs(15, 40, 1, 0)) == 66.0;
    assert ExactLoss(Inputs(180, 110, 10, 100)) == 15996.15;
  }

  // ---------------------------------------------------------------------
  // Status tiers (STATUS_THRESHOLDS, STATUS_MESSAGES, getSalinityStatus)

  datatype Tier = Minimal | Low | Moderate | High | Extreme

  /** One entry of STATUS_MESSAGES. */
  datatype StatusInfo = StatusInfo(level: string, levelClass: string, messages: seq<string>)

  const MinimalMax := 300
  const LowMax := 600
  const ModerateMax := 1000
  const HighMax := 1500

  function Rank(t: Tier): nat
  {
    match t
    case Minimal => 0
    case Low => 1
    case Moderate => 2
    case High => 3
    case Extreme => 4
  }

  /** The band of losses a tier covers: closed below, open above. */
  predicate InBand(loss: int, t: Tier)
  {
    match t
    case Minimal => loss < MinimalMax
    case Low => MinimalMax <= loss < LowMax
    case Moderate => LowMax <= loss < ModerateMax
    case High => ModerateMax <= loss < HighMax
    case Extreme => HighMax <= loss
  }

  /** `getSalinityStatus`: the tier whose band holds the loss. */
  function Classify(loss: int): (t: Tier)
    ensures InBand(loss, t)
  {
    if loss < MinimalMax then Minimal
    else if loss < LowMax then Low
    else if loss < ModerateMax then Moderate
    else if loss < HighMax then High
    else Extreme
  }

  /** The bands do not overlap, so the band of a loss determines its tier. */
  lemma ClassifyUnique(loss: int, t: Tier)
    ensures InBand(loss, t) <==> Classify(loss) == t
  {
  }

  /** A larger loss never yields a lower tier. */
  lemma ClassifyMonotone(a: int, b: int)
    requires a <= b
    ensures Rank(Classify(a)) <= Rank(Classify(b))
  {
  }

  lemma ClassifyBoundaries()
    ensures Classify(299) == Minimal && Classify(300) == Low
    ensures Classify(599) == Low && Classify(600) == Moderate
    ensures Classify(999) == Moderate && Classify(1000) == High
    ensures Classify(1499) == High && Classify(1500) == Extreme
  {
  }

  /** The entry of STATUS_MESSAGES for a tier. */
  function Status(t: Tier): StatusInfo
  {
    StatusInfo(Level(t), LevelClass(t), Messages(t))
  }

  function Level(t: Tier): string
  {
    match t
    case Minimal => "MINIMAL"
    case Low => "LOW"
    case Moderate => "MODERATE"
    case High => "HIGH"
    case Extreme => "EXTREME"
  }

  function LevelClass(t: Tier): string
  {
    match t
    case Minimal => "status-minimal"
    case Low => "status-low"
    case Moderate => "status-moderate"
    case High => "status-high"
    case Extreme => "status-extreme"
  }

  // The candidate messages of each tier, one constant per text.
  const MinimalMessage1: string := "You're barely working. Your body is probably fine."
  const MinimalMessage2: string := "Light activity detected. Your sodium levels remain unimpressed."
  const MinimalMessage3: string := "This is more of a warm-up than a workout. Salt can wait."
  const LowMessage1: string := "Some effort detected. Your minerals are mildly concerned."
  const LowMessage2: string := "Starting to heat up? Good. Stay hydrated."
  const LowMessage3: string := "Your body is beginning to notice. Don't ignore it."
  const ModerateMessage1: string := "Now we're talking. Your sodium is leaving the building."
  const ModerateMessage2: string := "Solid effort. Your electrolytes are working overtime."
  const ModerateMessage3: string := "This is the zone where preparation pays off."
  const HighMessage1: string := "You're hemorrhaging minerals. Replenish or regret it."
  const HighMessage2: string := "Your body is dumping sodium like it's going out of style."
  const HighMessage3: string := "This is not a drill. Your electrolytes need backup."
  const ExtremeMessage1: string := "You absolute unit. Your body is a sodium evacuation zone."
  const ExtremeMessage2: string := "Peak mineral loss achieved. Recovery is now mandatory."
  const ExtremeMessage3: string := "Congratulations on trying to become completely depleted."

  function Messages(t: Tier): (messages: seq<string>)
    ensures |messages| == 3
  {
    match t
    case Minimal => [MinimalMessage1, MinimalMessage2, MinimalMessage3]
    case Low => [LowMessage1, LowMessage2, LowMessage3]
    case Moderate => [ModerateMessage1, ModerateMessage2, ModerateMessage3]
    case High => [HighMessage1, HighMessage2, HighMessage3]
    case Extreme => [ExtremeMessage1, ExtremeMessage2, ExtremeMessage3]
  }

  /** Distinct tiers carry distinct level names, so comparing `level`
      strings (as the widget does) is comparing tiers. */
  lemma LevelInjective(t: Tier, u: Tier)
    ensures Level(t) == Level(u) <==> t == u
  {
    var a, b := Level(t), Level(u);
    if t != u && |a| == |b| {
      assert a[0] != b[0];
    }
  }

  // ---------------------------------------------------------------------
  // Recommendations (RECOMMENDATIONS, getRecommendation)

  const MinimalAdvice: string := "A glass of water will do. Save the salt for when you actually need it."
  const LowAdvice: string := "Light hydration recommended. One serving before or after should suffice."
  const ModerateAdvice: string := "Pre-load before activity. Consider mid-session replenishment if going longer."
  const HighAdvice: string := "Full protocol recommended: Pre-flight, Loadout, and Reset. No shortcuts."
  const ExtremeAdvice: string := "Deploy all countermeasures. Pre-load heavily, replenish during, and recover aggressively."

  const Recommendations: map<string, string> := map[
    "minimal" := MinimalAdvice, "low" := LowAdvice, "moderate" := ModerateAdvice,
    "high" := HighAdvice, "extreme" := ExtremeAdvice]

  /** The key of a tier in RECOMMENDATIONS. */
  function RecommendationKey(t: Tier): string
  {
    match t
    case Minimal => "minimal"
    case Low => "low"
    case Moderate => "moderate"
    case High => "high"
    case Extreme => "extreme"
  }

  /** `getRecommendation`: look the lower-cased level up; an unknown key falls
      back to the moderate advice (every entry is non-empty, hence truthy). */
  function GetRecommendation(level: string): (r: string)
    ensures r in Recommendations.Values
    ensures ToLower(level) !in Recommendations ==> r == Recommendations["moderate"]
  {
    var key := ToLower(level);
    if key in Recommendations && Recommendations[key] != "" then Recommendations[key] else Recommendations["moderate"]
  }

  lemma LowerCaseOf(upper: string, lower: string)
    requires |upper| == |lower|
    requires forall i :: 0 <= i < |upper| ==> LowerChar(upper[i]) == lower[i]
    ensures ToLower(upper) == lower
  {
  }

  /** Each of the five level names finds its own entry. */
  lemma RecommendationForTier(t: Tier)
    ensures GetRecommendation(Level(t)) == Recommendations[RecommendationKey(t)]
  {
    var level, key := Level(t), RecommendationKey(t);
    LowerCaseOf(level, key);
  }

  /** The lookup ignores letter case. */
  lemma GetRecommendationIgnoresCase(level: string)
    ensures GetRecommendation(ToLower(level)) == GetRecommendation(level)
  {
    ToLowerIdempotent(level);
  }

  // ---------------------------------------------------------------------
  // Message draw (getRandomMessage) and display (formatSodiumLoss)

  lemma ScaledDrawBelow(r: real, n: nat)
    requires 0.0 <= r < 1.0 && n > 0
    ensures 0.0 <= r * n as real < n as real
    ensures 0 <= (r * n as real).Floor < n
  {
    assert (1.0 - r) * n as real > 0.0;
    var x := r * n as real;
    assert x.Floor as real <= x;
  }

  /** `getRandomMessage` with the draw `Math.random()` passed as `r`: the
      element at index floor(r * length); an empty array gives undefined. */
  function RandomMessage(messages: seq<string>, r: real): (m: Option<string>)
    requires 0.0 <= r < 1.0
    ensures m.Some? <==> |messages| > 0
    ensures m.Some? ==> m.value in messages
  {
    if |messages| == 0 then None
    else
      ScaledDrawBelow(r, |messages|);
      Some(messages[(r * |messages| as real).Floor])
  }

  /** Every candidate message is drawn for some value of the random source. */
  lemma RandomMessageReachesEach(messages: seq<string>, k: nat)
    requires k < |messages|
    ensures RandomMessage(messages, k as real / |messages| as real) == Some(messages[k])
  {
    DrawForIndex(k, |messages|);
  }

  /** The draw k/n picks index k out of n. */
  lemma DrawForIndex(k: nat, n: nat)
    requires k < n
    ensures 0.0 <= k as real / n as real < 1.0
    ensures ((k as real / n as real) * n as real).Floor == k
  {
    DivideThenScale(k as real, n as real);
    FractionBelowOne(k as real, n as real);
  }

  lemma DivideThenScale(a: real, n: real)
    requires n > 0.0
    ensures (a / n) * n == a
  {
  }

  lemma FractionBelowOne(a: real, n: real)
    requires 0.0 <= a < n
    ensures 0.0 <= a / n < 1.0
  {
    DivideThenScale(a, n);
  }

  /** The digits before the unit of a formatted loss, in tenths of a gram. */
  function GramTenths(s: string): nat
    requires |s| >= 4 && AllDigits(s[..|s| - 3]) && IsDigit(s[|s| - 2])
  {
    DecimalValue(s[..|s| - 3]) * 10 + DigitValue(s[|s| - 2])
  }

  /** `formatSodiumLoss`: below 1000 the integer and "mg"; otherwise grams with
      one fractional digit (`toFixed(1)`) and "g". */
  function FormatSodiumLoss(mg: int): (s: string)
    ensures mg < 1000 ==> |s| >= 3 && s[|s| - 2..] == "mg" && s[..|s| - 2] == IntToString(mg)
    ensures 0 <= mg < 1000 ==> AllDigits(s[..|s| - 2]) && DecimalValue(s[..|s| - 2]) == mg
    ensures mg >= 1000 ==> |s| >= 4 && s[|s| - 1] == 'g' && s[|s| - 3] == '.' && IsDigit(s[|s| - 2])
    ensures mg >= 1000 ==> AllDigits(s[..|s| - 3]) && -50 <= GramTenths(s) * 100 - mg <= 50
    ensures mg >= 1000 ==> s[..|s| - 3] == NatToDecimal(GramTenths(s) / 10)
    ensures mg >= 1000 && mg % 100 != 50 ==> GramTenths(s) == (mg + 50) / 100
  {
    if mg >= 1000 then
      var tenths: nat := (mg + 50) / 100;
      var whole := NatToDecimal(tenths / 10);
      var s := whole + "." + [DigitChar(tenths % 10)] + "g";
      assert s[..|s| - 3] == whole;
      assert s[|s| - 2] == DigitChar(tenths % 10);
      assert GramTenths(s) == tenths;
      s
    else
      var s := IntToString(mg) + "mg";
      assert s[..|s| - 2] == IntToString(mg);
      s
  }

  lemma FormatSodiumLossMilligrams()
    ensures FormatSodiumLoss(999) == "999mg"
    ensures FormatSodiumLoss(726) == "726mg"
  {
  }

  /** Two losses away from the ties at mg = 50 (mod 100), where `toFixed(1)`
      and the model agree: whole grams, and 1.54 g shown as 1.5 g. */
  lemma FormatSodiumLossGrams()
    ensures FormatSodiumLoss(1000) == "1.0g"
    ensures FormatSodiumLoss(1540) == "1.5g"
  {
  }
}
