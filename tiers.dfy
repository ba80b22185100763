/** The judgement shown after a stroke is scored: a threshold ladder on the
    accuracy with four outcomes.  Only the choice of tier and its label text
    are modelled; the colour and percentage formatting are display glue. */
module Tiers {

  /** The four outcomes, from worst to best.  `StrongPerfect` is the
      "PERFECT!" label set in bold. */
  datatype Tier = Good | Great | Perfect | StrongPerfect

  /** The position of a tier on the ladder, from 0 (worst) to 3 (best). */
  function Rank(t: Tier): (r: nat)
    ensures r <= 3
  {
    match t
    case Good => 0
    case Great => 1
    case Perfect => 2
    case StrongPerfect => 3
  }

  /** The tier for an accuracy: below 0.6, below 0.8, below 0.9, and the rest. */
  function Classify(accuracy: real): (t: Tier)
    ensures t == Good <==> accuracy < 0.6
    ensures t == Great <==> 0.6 <= accuracy < 0.8
    ensures t == Perfect <==> 0.8 <= accuracy < 0.9
    ensures t == StrongPerfect <==> 0.9 <= accuracy
  {
    if accuracy < 0.6 then Good
    else if accuracy < 0.8 then Great
    else if accuracy < 0.9 then Perfect
    else StrongPerfect
  }

  /** The text the tier writes into the score element. */
  function Label(t: Tier): (s: string)
    ensures |s| > 0
  {
    match t
    case Good => "GOOD"
    case Great => " GREAT!"
    case Perfect => " PERFECT!"
    case StrongPerfect => "<strong> PERFECT!</strong>"
  }

  /** A higher accuracy never earns a lower tier. */
  lemma ClassifyMonotone(a: real, b: real)
    requires a <= b
    ensures Rank(Classify(a)) <= Rank(Classify(b))
  {
  }

  /** Different tiers show different labels, so the label identifies the tier. */
  lemma LabelInjective(t: Tier, u: Tier)
    ensures Label(t) == Label(u) ==> t == u
  {
  }

  /** The ladder is a step function of the rank: the tier is determined by
      how many of the thresholds 0.6, 0.8 and 0.9 the accuracy reaches. */
  lemma RankCountsThresholds(accuracy: real)
    ensures Rank(Classify(accuracy))
         == (if 0.6 <= accuracy then 1 else 0)
          + (if 0.8 <= accuracy then 1 else 0)
          + (if 0.9 <= accuracy then 1 else 0)
  {
  }

  /** A JavaScript number as the ladder sees it: finite, or `NaN`, which
      compares false with everything. */
  datatype Number = Finite(value: real) | NaN

  /** The JavaScript `accuracy < bound`. */
  predicate Below(accuracy: Number, bound: real) {
    accuracy.Finite? && accuracy.value < bound
  }

  /** The ladder as the script writes it, on JavaScript numbers: a finite
      accuracy gets the tier of `Classify`, and `NaN`, failing every test,
      falls through to the top tier. */
  function ClassifyAsWritten(accuracy: Number): (t: Tier)
    ensures accuracy.Finite? ==> t == Classify(accuracy.value)
    ensures accuracy == NaN ==> t == StrongPerfect
  {
    if Below(accuracy, 0.6) then Good
    else if Below(accuracy, 0.8) then Great
    else if Below(accuracy, 0.9) then Perfect
    else StrongPerfect
  }
}
