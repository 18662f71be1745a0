/** The reactive part of the salinity widget (src/widget.js): the texts the
    widget shows and the one piece of memory, `lastStatus`, that decides
    whether the status message and the recommendation are redrawn. */
module SalinityWidget {
  import opened Wrappers
  import opened Text
  import opened Salinity

  /** The text of every output element `updateCalculation` writes: the four
      slider value labels, the loss, the level, the message, the
      recommendation and the status card's class name. */
  datatype Texts = Texts(
    durationText: string,
    temperatureText: string,
    intensityText: string,
    humidityText: string,
    sodiumLossText: string,
    levelText: string,
    messageText: string,
    recommendationText: string,
    cardClass: string)

  /** The displayed texts together with the widget's memory `lastStatus`. */
  datatype Display = Display(texts: Texts, lastStatus: Option<Tier>)

  /** The placeholder texts the widget is built with, before any calculation. */
  const InitialTexts := Texts(
    "60 min", "75°F", "5/10", "50%",
    "600mg", "MODERATE",
    "Calculating your salt situation...",
    "Adjust the sliders to see your personalized assessment.",
    "status-card status-moderate")

  const InitialDisplay := Display(InitialTexts, None)

  /** The readings of freshly built sliders, whose values are the defaults. */
  const DefaultReadings := RawInputs(Some(DurationSlider.default), Some(TemperatureSlider.default),
                                     Some(IntensitySlider.default), Some(HumiditySlider.default))

  /** The tier the current readings fall into. */
  function TierOf(raw: RawInputs): Tier
  {
    Classify(SodiumLoss(Normalize(raw)))
  }

  /** Whether the copy is redrawn: no previous status, or a different level. */
  predicate Redraws(last: Option<Tier>, tier: Tier)
  {
    last.None? || Level(last.value) != Level(tier)
  }

  /** One run of `updateCalculation`, with `Math.random()` passed as `r`. */
  function Next(d: Display, raw: RawInputs, r: real): Display
    requires 0.0 <= r < 1.0
  {
    var x := Normalize(raw);
    var loss := SodiumLoss(x);
    var tier := Classify(loss);
    var redraw := Redraws(d.lastStatus, tier);
    Display(
      Texts(
        IntToString(x.duration) + " " + DurationSlider.unit,
        IntToString(x.temperature) + TemperatureSlider.unit,
        IntToString(x.intensity) + IntensitySlider.unit,
        IntToString(x.humidity) + HumiditySlider.unit,
        FormatSodiumLoss(loss),
        Level(tier),
        if redraw then RandomMessage(Messages(tier), r).value else d.texts.messageText,
        if redraw then GetRecommendation(Level(tier)) else d.texts.recommendationText,
        "status-card " + LevelClass(tier)),
      Some(tier))
  }

  /** The sticky-copy invariant: once a status exists, the level, card class
      and recommendation belong to it and the message is one of its messages. */
  predicate Consistent(d: Display)
  {
    d.lastStatus.Some? ==>
      var t := d.lastStatus.value;
      && d.texts.levelText == Level(t)
      && d.texts.cardClass == "status-card " + LevelClass(t)
      && d.texts.recommendationText == GetRecommendation(Level(t))
      && d.texts.messageText in Messages(t)
  }

  /** Every update keeps the invariant, and afterwards the displayed status is
      the tier of the readings. */
  lemma {:induction false} NextConsistent(d: Display, raw: RawInputs, r: real)
    requires 0.0 <= r < 1.0
    requires Consistent(d)
    ensures Next(d, raw, r).lastStatus == Some(TierOf(raw))
    ensures Consistent(Next(d, raw, r))
  {
    var tier := TierOf(raw);
    if !Redraws(d.lastStatus, tier) {
      LevelInjective(d.lastStatus.value, tier);
    }
  }

  /** After any update from a consistent state the recommendation is the one
      for the current level, redrawn or not. */
  lemma NextRecommendation(d: Display, raw: RawInputs, r: real)
    requires 0.0 <= r < 1.0
    requires Consistent(d)
    ensures Next(d, raw, r).texts.recommendationText == Recommendations[RecommendationKey(TierOf(raw))]
    ensures Next(d, raw, r).texts.messageText in Messages(TierOf(raw))
  {
    NextConsistent(d, raw, r);
    RecommendationForTier(TierOf(raw));
  }

  /** Within one tier the message and recommendation never change, whatever
      the random draw. */
  lemma NextKeepsCopyWithinTier(d: Display, raw: RawInputs, r: real)
    requires 0.0 <= r < 1.0
    requires d.lastStatus == Some(TierOf(raw))
    ensures Next(d, raw, r).texts.messageText == d.texts.messageText
    ensures Next(d, raw, r).texts.recommendationText == d.texts.recommendationText
  {
  }

  /** A change of tier redraws the copy from the new tier. */
  lemma NextRedrawsOnTierChange(d: Display, raw: RawInputs, r: real)
    requires 0.0 <= r < 1.0
    requires d.lastStatus != Some(TierOf(raw))
    ensures Next(d, raw, r).texts.messageText == RandomMessage(Messages(TierOf(raw)), r).value
    ensures Next(d, raw, r).texts.recommendationText == GetRecommendation(Level(TierOf(raw)))
  {
    if d.lastStatus.Some? {
      LevelInjective(d.lastStatus.value, TierOf(raw));
    }
  }

  /** Recomputing with unchanged readings changes nothing, whatever the draw. */
  lemma NextIdempotent(d: Display, raw: RawInputs, r1: real, r2: real)
    requires 0.0 <= r1 < 1.0 && 0.0 <= r2 < 1.0
    ensures Next(Next(d, raw, r1), raw, r2) == Next(d, raw, r1)
  {
  }

  /** The slider maxima are an EXTREME session with the EXTREME advice. */
  lemma MaximaAreExtreme(d: Display, r: real)
    requires 0.0 <= r < 1.0
    requires Consistent(d)
    ensures Next(d, RawInputs(Some(180), Some(110), Some(10), Some(100)), r).texts.levelText == "EXTREME"
    ensures Next(d, RawInputs(Some(180), Some(110), Some(10), Some(100)), r).texts.recommendationText
            == ExtremeAdvice
  {
    var raw := RawInputs(Some(180), Some(110), Some(10), Some(100));
    assert Normalize(raw) == Inputs(180, 110, 10, 100);
    SodiumLossWorkedValues();
    NextRecommendation(d, raw, r);
  }

  /** The widget's output elements and its memory, updated in place. */
  class Widget {
    var texts: Texts
    var lastStatus: Option<Tier>

    function View(): Display
      reads this
    {
      Display(texts, lastStatus)
    }

    ghost predicate Valid()
      reads this
    {
      Consistent(View())
    }

    /** The widget as built, before its first calculation. */
    constructor ()
      ensures Valid() && View() == InitialDisplay
    {
      texts := InitialTexts;
      lastStatus := None;
    }

    /** `updateCalculation`: normalise, estimate, classify, and redraw the copy
        only when the level differs from the last one. */
    method UpdateCalculation(raw: RawInputs, r: real)
      requires 0.0 <= r < 1.0
      requires Valid()
      modifies this
      ensures Valid()
      ensures View() == Next(old(View()), raw, r)
    {
      var values := Normalize(raw);
      texts := texts.(durationText := IntToString(values.duration) + " " + DurationSlider.unit);
      texts := texts.(temperatureText := IntToString(values.temperature) + TemperatureSlider.unit);
      texts := texts.(intensityText := IntToString(values.intensity) + IntensitySlider.unit);
      texts := texts.(humidityText := IntToString(values.humidity) + HumiditySlider.unit);

      var sodiumLoss := SodiumLoss(values);
      var status := Classify(sodiumLoss);

      texts := texts.(sodiumLossText := FormatSodiumLoss(sodiumLoss));
      texts := texts.(levelText := Level(status));

      if lastStatus.None? || Level(lastStatus.value) != Level(status) {
        texts := texts.(messageText := RandomMessage(Messages(status), r).value);
        texts := texts.(recommendationText := GetRecommendation(Level(status)));
      }

      texts := texts.(cardClass := "status-card " + LevelClass(status));
      lastStatus := Some(status);
      NextConsistent(old(View()), raw, r);
    }
  }

  /** Sliders at their defaults read as a 726 mg, MODERATE session. */
  lemma DefaultReadingsModerate()
    ensures SodiumLoss(Normalize(DefaultReadings)) == 726
    ensures TierOf(DefaultReadings) == Moderate
  {
    assert Normalize(DefaultReadings) == Inputs(60, 75, 5, 50);
    SodiumLossWorkedValues();
  }

  /** The first calculation, on sliders at their defaults, shows a MODERATE
      session with the moderate advice and one of the moderate messages. */
  lemma FirstCalculation(r: real)
    requires 0.0 <= r < 1.0
    ensures Next(InitialDisplay, DefaultReadings, r).lastStatus == Some(Moderate)
    ensures Next(InitialDisplay, DefaultReadings, r).texts.levelText == "MODERATE"
    ensures Next(InitialDisplay, DefaultReadings, r).texts.recommendationText == ModerateAdvice
    ensures Next(InitialDisplay, DefaultReadings, r).texts.messageText in Messages(Moderate)
  {
    DefaultReadingsModerate();
    NextRecommendation(InitialDisplay, DefaultReadings, r);
  }

  /** The first calculation shows the loss as "726mg". */
  lemma FirstCalculationLoss(r: real)
    requires 0.0 <= r < 1.0
    ensures Next(InitialDisplay, DefaultReadings, r).texts.sodiumLossText == "726mg"
  {
    DefaultReadingsModerate();
    FormatSodiumLossMilligrams();
  }

  /** `initWidget`'s first calculation, run with the sliders at their defaults. */
  method InitWidget(r: real) returns (w: Widget)
    requires 0.0 <= r < 1.0
    ensures fresh(w) && w.Valid()
    ensures w.View() == Next(InitialDisplay, DefaultReadings, r)
  {
    w := new Widget();
    w.UpdateCalculation(DefaultReadings, r);
  }
}
