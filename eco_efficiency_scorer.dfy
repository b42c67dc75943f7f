/** Eco-efficiency points on a 0-25 scale: each quote's price per kilogram
    and CO2 per kilogram are normalised against the whole batch, weighted,
    adjusted by service name, clamped and placed in a tier; a batch of
    scores is summarised by its point range, best entry and tier counts. */
module EcoEfficiencyScorer {
  import opened Base
  import CarbonCalculator
  import QuoteGenerator

  // ---------------------------------------------------------------------
  // Weights and construction
  // ---------------------------------------------------------------------

  datatype ScoringWeights = ScoringWeights(costEffectiveness: real, environmentalImpact: real)

  /** 70% cost, 30% environment. */
  function DefaultWeights(): ScoringWeights { ScoringWeights(0.70, 0.30) }

  /** ScoringWeights.validate: the weights sum to 1 within 0.001. */
  predicate WeightsValid(w: ScoringWeights)
  {
    Abs(w.costEffectiveness + w.environmentalImpact - 1.0) < 0.001
  }

  datatype ScorerError = WeightsDoNotSumToOne | NoQuotes | WeightNotPositive

  /** EcoEfficiencyScorer(weights): no weights means the defaults, and
      weights that fail validation are refused. */
  function NewScorer(weights: Option<ScoringWeights>): (r: Result<ScoringWeights, ScorerError>)
    ensures r.Ok? ==> WeightsValid(r.value)
    ensures weights.None? ==> r == Ok(DefaultWeights())
    ensures weights.Some? ==> (r.Ok? <==> WeightsValid(weights.value))
    ensures weights.Some? && r.Ok? ==> r.value == weights.value
    ensures r.Err? ==> r.error == WeightsDoNotSumToOne
  {
    var w := if weights.Some? then weights.value else DefaultWeights();
    if WeightsValid(w) then Ok(w) else Err(WeightsDoNotSumToOne)
  }

  // ---------------------------------------------------------------------
  // Normalisation
  // ---------------------------------------------------------------------

  /** What _normalize_cost_scores and _normalize_environmental_scores
      compute (the two are the same code): (max - v) / (max - min) for each
      value, or 1.0 everywhere when all values are equal. */
  function Normalized(values: seq<real>): (r: seq<real>)
    ensures |r| == |values|
  {
    if values == [] then []
    else
      var lo := CarbonCalculator.SeqMin(values);
      var hi := CarbonCalculator.SeqMax(values);
      if hi == lo then seq(|values|, i => 1.0)
      else seq(|values|, i requires 0 <= i < |values| => Inverted(values[i], lo, hi))
  }

  /** One inverted min-max score. */
  function Inverted(v: real, lo: real, hi: real): real
    requires hi != lo
  {
    (hi - v) / (hi - lo)
  }

  /** The normalisation loop: min, max, then one inverted score per value. */
  method NormalizeInverted(values: seq<real>) returns (normalized: seq<real>)
    ensures normalized == Normalized(values)
  {
    if values == [] {
      return [];
    }
    var lo := CarbonCalculator.SeqMin(values);
    var hi := CarbonCalculator.SeqMax(values);
    if hi == lo {
      return seq(|values|, i => 1.0);
    }
    normalized := [];
    var i := 0;
    while i < |values|
      invariant 0 <= i <= |values| && |normalized| == i
      invariant forall j :: 0 <= j < i ==> normalized[j] == Inverted(values[j], lo, hi)
    {
      normalized := normalized + [(hi - values[i]) / (hi - lo)];
      i := i + 1;
    }
  }

  /** Every normalised score lies in [0, 1]. */
  lemma NormalizedInUnit(values: seq<real>)
    ensures forall i :: 0 <= i < |values| ==> 0.0 <= Normalized(values)[i] <= 1.0
  {
    if values != [] {
      var lo := CarbonCalculator.SeqMin(values);
      var hi := CarbonCalculator.SeqMax(values);
      if hi != lo {
        forall i | 0 <= i < |values| ensures 0.0 <= Normalized(values)[i] <= 1.0 {
          assert values[i] in values;
          assert Normalized(values)[i] == Inverted(values[i], lo, hi);
          DivInUnit(hi - values[i], hi - lo);
        }
      }
    }
  }

  lemma DivInUnit(a: real, b: real)
    requires 0.0 <= a <= b && b > 0.0
    ensures 0.0 <= a / b <= 1.0
  {
    assert a / b * b == a;
  }

  /** A batch whose values are all equal scores 1.0 everywhere. */
  lemma NormalizedAllEqual(values: seq<real>)
    requires forall i :: 0 <= i < |values| ==> values[i] == values[0]
    ensures forall i :: 0 <= i < |values| ==> Normalized(values)[i] == 1.0
  {
    if values != [] {
      var lo := CarbonCalculator.SeqMin(values);
      var hi := CarbonCalculator.SeqMax(values);
      var k :| 0 <= k < |values| && values[k] == lo;
      var m :| 0 <= m < |values| && values[m] == hi;
      assert lo == values[0] == hi;
    }
  }

  /** The lowest value scores 1.0 and, when the values differ, the highest
      scores 0.0. */
  lemma NormalizedExtremes(values: seq<real>, i: nat)
    requires i < |values|
    ensures values[i] == CarbonCalculator.SeqMin(values) ==> Normalized(values)[i] == 1.0
    ensures values[i] == CarbonCalculator.SeqMax(values) && CarbonCalculator.SeqMin(values) != CarbonCalculator.SeqMax(values)
            ==> Normalized(values)[i] == 0.0
  {
    var lo := CarbonCalculator.SeqMin(values);
    var hi := CarbonCalculator.SeqMax(values);
    if hi != lo {
      assert Normalized(values)[i] == Inverted(values[i], lo, hi);
      InvertedEnds(lo, hi);
    }
  }

  lemma InvertedEnds(lo: real, hi: real)
    requires hi != lo
    ensures Inverted(lo, lo, hi) == 1.0 && Inverted(hi, lo, hi) == 0.0
  {
    DivSelf(hi - lo);
  }

  lemma DivSelf(d: real)
    requires d != 0.0
    ensures d / d == 1.0
  {
    var r := d / d;
    assert r * d == d;
    assert (r - 1.0) * d == 0.0;
  }

  /** Normalisation reverses order: a lower value never scores lower. */
  lemma NormalizedAntitone(values: seq<real>, i: nat, j: nat)
    requires i < |values| && j < |values| && values[i] <= values[j]
    ensures Normalized(values)[i] >= Normalized(values)[j]
  {
    var lo := CarbonCalculator.SeqMin(values);
    var hi := CarbonCalculator.SeqMax(values);
    if hi != lo {
      assert values[i] in values;
      assert Normalized(values)[i] == Inverted(values[i], lo, hi) && Normalized(values)[j] == Inverted(values[j], lo, hi);
      DivMonotone(hi - values[j], hi - values[i], hi - lo);
    }
  }

  // ---------------------------------------------------------------------
  // Business logic
  // ---------------------------------------------------------------------

  /** The name adjustment of _apply_business_logic as written: the plain
      "Next Day Air" test comes before the "Next Day Air Saver" test. */
  function AdjustmentAsWritten(name: string): real
  {
    if Contains(name, "Next Day Air Early") then -0.15
    else if Contains(name, "Next Day Air") && !Contains(name, "Early") then -0.08
    else if Contains(name, "Next Day Air Saver") then 0.25
    else if Contains(name, "2nd Day Air") then 0.28
    else if Contains(name, "3-Day Select") then 0.30
    else if Contains(name, "Ground") then 0.32
    else 0.0
  }

  /** As written, the +0.25 Saver branch is reached only by a name that
      contains "Early" (and not "Next Day Air Early"), since every Saver
      name also contains "Next Day Air". */
  lemma SaverBranchNeedsEarly(name: string)
    ensures AdjustmentAsWritten(name) == 0.25 ==> Contains(name, "Early") && Contains(name, "Next Day Air Saver")
  {
    if Contains(name, "Next Day Air Saver") {
      assert "Next Day Air" + " Saver" == "Next Day Air Saver";
      ContainsPrefix(name, "Next Day Air", " Saver");
    }
  }

  /** An occurrence of p + q is an occurrence of p. */
  lemma {:induction false} ContainsPrefix(s: string, p: string, q: string)
    requires Contains(s, p + q)
    ensures Contains(s, p)
    decreases |s|
  {
    if p + q <= s {
      assert p <= s by { assert forall i :: 0 <= i < |p| ==> s[i] == (p + q)[i]; }
    } else {
      ContainsPrefix(s[1..], p, q);
    }
  }

  /** The catalog's Saver service gets the Next Day Air penalty instead of
      its own boost. */
  lemma SaverGetsNextDayAirPenalty(name: string)
    requires name == "UPS Next Day Air Saver"
    ensures AdjustmentAsWritten(name) == -0.08
  {
    assert !Contains(name, "Next Day Air Early") by { CarbonCalculator.AbsentChar(name, "Next Day Air Early", 13); }
    assert !Contains(name, "Early") by { CarbonCalculator.AbsentChar(name, "Early", 0); }
    assert Contains(name, "Next Day Air") by {
      assert name[4..16] == "Next Day Air";
      ContainsAt(name, "Next Day Air", 4);
    }
  }

  /** The name adjustment as evidently intended: the Saver test before the
      plain Next Day Air test. */
  function Adjustment(name: string): real
  {
    if Contains(name, "Next Day Air Early") then -0.15
    else if Contains(name, "Next Day Air Saver") then 0.25
    else if Contains(name, "Next Day Air") && !Contains(name, "Early") then -0.08
    else if Contains(name, "2nd Day Air") then 0.28
    else if Contains(name, "3-Day Select") then 0.30
    else if Contains(name, "Ground") then 0.32
    else 0.0
  }

  /** The corrected adjustment differs from the one written only on names
      with "Next Day Air Saver" in them, and gives each catalog service the
      adjustment its comment names. */
  lemma AdjustmentCorrection(name: string)
    ensures !Contains(name, "Next Day Air Saver") ==> Adjustment(name) == AdjustmentAsWritten(name)
    ensures Contains(name, "Next Day Air Saver") && !Contains(name, "Next Day Air Early") ==> Adjustment(name) == 0.25
  {
  }

  lemma CatalogAdjustments()
    ensures Adjustment("UPS Next Day Air Early") == -0.15
    ensures Adjustment("UPS Next Day Air Saver") == 0.25
    ensures Adjustment("UPS Next Day Air") == -0.08
  {
    EarlyAdjustment("UPS Next Day Air Early");
    SaverAdjustment("UPS Next Day Air Saver");
    PlainNextDayAdjustment("UPS Next Day Air");
  }

  lemma EarlyAdjustment(name: string)
    requires name == "UPS Next Day Air Early"
    ensures Adjustment(name) == -0.15
  {
    assert Contains(name, "Next Day Air Early") by {
      assert name[4..22] == "Next Day Air Early";
      ContainsAt(name, "Next Day Air Early", 4);
    }
  }

  lemma SaverAdjustment(name: string)
    requires name == "UPS Next Day Air Saver"
    ensures Adjustment(name) == 0.25
  {
    SaverNameFacts(name);
  }

  lemma SaverNameFacts(name: string)
    requires name == "UPS Next Day Air Saver"
    ensures !Contains(name, "Next Day Air Early") && Contains(name, "Next Day Air Saver")
  {
    CarbonCalculator.AbsentChar(name, "Next Day Air Early", 13);
    assert name[4..] == "Next Day Air Saver";
    ContainsAt(name, "Next Day Air Saver", 4);
  }

  lemma PlainNextDayAdjustment(name: string)
    requires name == "UPS Next Day Air"
    ensures Adjustment(name) == -0.08
  {
    PlainNextDayNameFacts(name);
  }

  lemma PlainNextDayNameFacts(name: string)
    requires name == "UPS Next Day Air"
    ensures !Contains(name, "Next Day Air Early") && !Contains(name, "Next Day Air Saver")
    ensures !Contains(name, "Early") && Contains(name, "Next Day Air")
  {
    CarbonCalculator.AbsentChar(name, "Next Day Air Early", 13);
    CarbonCalculator.AbsentChar(name, "Next Day Air Saver", 15);
    CarbonCalculator.AbsentChar(name, "Early", 0);
    assert name[4..] == "Next Day Air";
    ContainsAt(name, "Next Day Air", 4);
  }

  /** The slower catalog services get their boosts. */
  lemma SlowServiceAdjustments()
    ensures Adjustment("UPS 2nd Day Air") == 0.28
    ensures Adjustment("UPS 3-Day Select") == 0.30
    ensures Adjustment("UPS Ground") == 0.32
  {
    SecondDayAdjustment("UPS 2nd Day Air");
    ThreeDayAdjustment("UPS 3-Day Select");
    GroundAdjustment("UPS Ground");
  }

  /** A name without "N" matches none of the Next Day Air tests. */
  lemma NotNextDay(name: string)
    requires 'N' !in name
    ensures !Contains(name, "Next Day Air Early") && !Contains(name, "Next Day Air Saver")
    ensures !Contains(name, "Next Day Air")
  {
    CarbonCalculator.AbsentChar(name, "Next Day Air Early", 0);
    CarbonCalculator.AbsentChar(name, "Next Day Air Saver", 0);
    CarbonCalculator.AbsentChar(name, "Next Day Air", 0);
  }

  lemma SecondDayAdjustment(name: string)
    requires name == "UPS 2nd Day Air"
    ensures Adjustment(name) == 0.28
  {
    NotNextDay(name);
    SecondDayNameFacts(name);
  }

  lemma SecondDayNameFacts(name: string)
    requires name == "UPS 2nd Day Air"
    ensures Contains(name, "2nd Day Air")
  {
    assert name[4..] == "2nd Day Air";
    ContainsAt(name, "2nd Day Air", 4);
  }

  lemma ThreeDayAdjustment(name: string)
    requires name == "UPS 3-Day Select"
    ensures Adjustment(name) == 0.30
  {
    NotNextDay(name);
    ThreeDayNameFacts(name);
  }

  lemma ThreeDayNameFacts(name: string)
    requires name == "UPS 3-Day Select"
    ensures !Contains(name, "2nd Day Air") && Contains(name, "3-Day Select")
  {
    CarbonCalculator.AbsentChar(name, "2nd Day Air", 0);
    assert name[4..] == "3-Day Select";
    ContainsAt(name, "3-Day Select", 4);
  }

  lemma GroundAdjustment(name: string)
    requires name == "UPS Ground"
    ensures Adjustment(name) == 0.32
  {
    NotNextDay(name);
    GroundNameFacts(name);
  }

  lemma GroundNameFacts(name: string)
    requires name == "UPS Ground"
    ensures !Contains(name, "2nd Day Air") && !Contains(name, "3-Day Select") && Contains(name, "Ground")
  {
    CarbonCalculator.AbsentChar(name, "2nd Day Air", 0);
    CarbonCalculator.AbsentChar(name, "3-Day Select", 0);
    assert name[4..] == "Ground";
    ContainsAt(name, "Ground", 4);
  }

  /** The weighted score before clamping. */
  function RawPoints(w: ScoringWeights, name: string, costScore: real, envScore: real): real
  {
    (costScore * w.costEffectiveness + envScore * w.environmentalImpact) * (1.0 + Adjustment(name)) * 25.0
  }

  /** _apply_business_logic: the weighted score, adjusted by name and
      scaled to 25 points, clamped to [0, 25]. */
  function ApplyBusinessLogic(w: ScoringWeights, name: string, costScore: real, envScore: real): (p: real)
    ensures 0.0 <= p <= 25.0
    ensures 0.0 <= RawPoints(w, name, costScore, envScore) <= 25.0 ==> p == RawPoints(w, name, costScore, envScore)
    ensures RawPoints(w, name, costScore, envScore) < 0.0 ==> p == 0.0
    ensures RawPoints(w, name, costScore, envScore) > 25.0 ==> p == 25.0
  {
    Max(0.0, Min(25.0, RawPoints(w, name, costScore, envScore)))
  }

  /** With non-negative weights, a better cost or environmental score never
      lowers the points of a service. */
  lemma PointsMonotone(w: ScoringWeights, name: string, c1: real, e1: real, c2: real, e2: real)
    requires w.costEffectiveness >= 0.0 && w.environmentalImpact >= 0.0
    requires c1 <= c2 && e1 <= e2
    ensures ApplyBusinessLogic(w, name, c1, e1) <= ApplyBusinessLogic(w, name, c2, e2)
  {
    MulMonotone(c1, c2, w.costEffectiveness);
    MulMonotone(e1, e2, w.environmentalImpact);
    var b1 := c1 * w.costEffectiveness + e1 * w.environmentalImpact;
    var b2 := c2 * w.costEffectiveness + e2 * w.environmentalImpact;
    assert b1 <= b2;
    var a := Adjustment(name);
    assert a >= -0.15;
    var k := (1.0 + a) * 25.0;
    assert k == 25.0 + 25.0 * a;
    MulMonotone(b1, b2, k);
    assert RawPoints(w, name, c1, e1) == b1 * (1.0 + a) * 25.0 == b1 * k;
    assert RawPoints(w, name, c2, e2) == b2 * (1.0 + a) * 25.0 == b2 * k;
  }

  // ---------------------------------------------------------------------
  // Tiers
  // ---------------------------------------------------------------------

  datatype Tier = Excellent | VeryGood | Good | Fair | Poor | VeryPoor | Unranked

  /** _determine_tier as written: the first of the closed integer ranges
      21-25, 17-20, 13-16, 9-12, 5-8, 0-4 that contains the score, else
      "unranked". */
  function DetermineTierAsWritten(score: real): Tier
  {
    if 21.0 <= score <= 25.0 then Excellent
    else if 17.0 <= score <= 20.0 then VeryGood
    else if 13.0 <= score <= 16.0 then Good
    else if 9.0 <= score <= 12.0 then Fair
    else if 5.0 <= score <= 8.0 then Poor
    else if 0.0 <= score <= 4.0 then VeryPoor
    else Unranked
  }

  /** As written, a score inside the 0-25 scale is unranked exactly when it
      falls strictly between two ranges. */
  lemma TierGapsUnranked(score: real)
    requires 0.0 <= score <= 25.0
    ensures DetermineTierAsWritten(score) == Unranked <==>
              (4.0 < score < 5.0 || 8.0 < score < 9.0 || 12.0 < score < 13.0
               || 16.0 < score < 17.0 || 20.0 < score < 21.0)
  {
  }

  /** A concrete unranked score. */
  lemma TierGapExample()
    ensures DetermineTierAsWritten(4.5) == Unranked && DetermineTierAsWritten(20.5) == Unranked
  {
  }

  /** The tiers as evidently intended: each range runs from its lower bound
      up to the next range's lower bound, so the whole scale is covered. */
  function DetermineTier(score: real): (t: Tier)
    ensures t == Unranked <==> score < 0.0 || score > 25.0
  {
    if 21.0 <= score <= 25.0 then Excellent
    else if 17.0 <= score < 21.0 then VeryGood
    else if 13.0 <= score < 17.0 then Good
    else if 9.0 <= score < 13.0 then Fair
    else if 5.0 <= score < 9.0 then Poor
    else if 0.0 <= score < 5.0 then VeryPoor
    else Unranked
  }

  function TierRank(t: Tier): int
  {
    match t
    case Unranked => 0
    case VeryPoor => 1
    case Poor => 2
    case Fair => 3
    case Good => 4
    case VeryGood => 5
    case Excellent => 6
  }

  /** The corrected tiers agree with the written ones wherever those rank a
      score, and a higher score on the scale never gets a lower tier. */
  lemma DetermineTierCorrection(s1: real, s2: real)
    ensures DetermineTierAsWritten(s1) != Unranked ==> DetermineTier(s1) == DetermineTierAsWritten(s1)
    ensures 0.0 <= s1 <= s2 <= 25.0 ==> TierRank(DetermineTier(s1)) <= TierRank(DetermineTier(s2))
  {
  }

  // ---------------------------------------------------------------------
  // calculate_scores
  // ---------------------------------------------------------------------

  datatype EcoScore = EcoScore(
    points: real,
    costEffectivenessScore: real,
    environmentalScore: real,
    costPerKg: real,
    carbonPerKg: real,
    tier: Tier,
    explanation: string)

  /** The first sentence of _generate_explanation, per tier. */
  function TierSentence(t: Tier, costScore: real, envScore: real): string
  {
    var primary := if costScore > envScore then "cost-effective" else "environmentally friendly";
    match t
    case Excellent => "Outstanding balance of cost" + " and environmental performance"
    case VeryGood => "Strong " + primary + " option with good overall value"
    case Good => "Moderate eco-friendly choice" + " with reasonable cost trade-offs"
    case Fair => "Balanced medium-speed service" + " option with competitive scoring"
    case Poor => "Express service with higher" + " cost and environmental impact"
    case VeryPoor => "Premium express service with" + " significant cost and" + " environmental trade-offs"
    case Unranked => "Standard shipping option"
  }

  /** _generate_explanation; `render` stands for the two-decimal format. */
  function Explanation(t: Tier, costScore: real, envScore: real, render: real -> string): string
  {
    var secondary := if costScore > envScore then "environmental score: " + render(envScore)
                     else "cost score: " + render(costScore);
    TierSentence(t, costScore, envScore) + ". Cost effectiveness: " + render(costScore) + ", " + secondary + "."
  }

  function CostsPerKg(quotes: seq<QuoteGenerator.Quote>, weightKg: real): (r: seq<real>)
    requires weightKg > 0.0
    ensures |r| == |quotes| && forall i :: 0 <= i < |quotes| ==> r[i] == quotes[i].costUsd / weightKg
  {
    seq(|quotes|, i requires 0 <= i < |quotes| => quotes[i].costUsd / weightKg)
  }

  function CarbonsPerKg(quotes: seq<QuoteGenerator.Quote>, weightKg: real): (r: seq<real>)
    requires weightKg > 0.0
    ensures |r| == |quotes| && forall i :: 0 <= i < |quotes| ==> r[i] == QuoteGenerator.Co2(quotes[i]) / weightKg
  {
    seq(|quotes|, i requires 0 <= i < |quotes| => QuoteGenerator.Co2(quotes[i]) / weightKg)
  }

  /** What the scoring loop reads for quote i: the quote, its two
      normalised scores and its two per-kg figures. */
  datatype ScoreInput = ScoreInput(quote: QuoteGenerator.Quote, costScore: real, envScore: real,
                                   costPerKg: real, carbonPerKg: real)

  /** The score of one quote. */
  function MakeScore(w: ScoringWeights, x: ScoreInput, render: real -> string): EcoScore
  {
    var points := ApplyBusinessLogic(w, x.quote.serviceName, x.costScore, x.envScore);
    var tier := DetermineTier(points);
    EcoScore(RoundTo(points, 10.0), RoundTo(x.costScore, 100.0), RoundTo(x.envScore, 100.0),
             x.costPerKg, x.carbonPerKg, tier, Explanation(tier, x.costScore, x.envScore, render))
  }

  function Scorer(w: ScoringWeights, render: real -> string): ScoreInput -> EcoScore
  {
    x => MakeScore(w, x, render)
  }

  /** The loop's inputs, index by index. */
  function Inputs(quotes: seq<QuoteGenerator.Quote>, costScores: seq<real>, envScores: seq<real>,
                  costs: seq<real>, carbons: seq<real>): (r: seq<ScoreInput>)
    requires |costScores| == |envScores| == |costs| == |carbons| == |quotes|
    ensures |r| == |quotes|
    ensures forall i :: 0 <= i < |quotes| ==> r[i] == ScoreInput(quotes[i], costScores[i], envScores[i], costs[i], carbons[i])
  {
    seq(|quotes|, i requires 0 <= i < |quotes| => ScoreInput(quotes[i], costScores[i], envScores[i], costs[i], carbons[i]))
  }

  /** The inputs calculate_scores builds for a batch and a positive weight. */
  function InputsOf(quotes: seq<QuoteGenerator.Quote>, weightKg: real): (r: seq<ScoreInput>)
    requires weightKg > 0.0
    ensures |r| == |quotes|
  {
    var costs := CostsPerKg(quotes, weightKg);
    var carbons := CarbonsPerKg(quotes, weightKg);
    Inputs(quotes, Normalized(costs), Normalized(carbons), costs, carbons)
  }

  /** What calculate_scores returns for a non-empty batch and a positive weight. */
  function ScoresOf(w: ScoringWeights, quotes: seq<QuoteGenerator.Quote>, weightKg: real, render: real -> string)
    : (r: seq<EcoScore>)
    requires weightKg > 0.0
    ensures |r| == |quotes|
  {
    Map(Scorer(w, render), InputsOf(quotes, weightKg))
  }

  /** Score i of a batch is the score of quote i's figures. */
  lemma ScoresOfAt(w: ScoringWeights, quotes: seq<QuoteGenerator.Quote>, weightKg: real, render: real -> string, i: nat)
    requires weightKg > 0.0 && i < |quotes|
    ensures var costs := CostsPerKg(quotes, weightKg);
            var carbons := CarbonsPerKg(quotes, weightKg);
            ScoresOf(w, quotes, weightKg, render)[i]
            == MakeScore(w, ScoreInput(quotes[i], Normalized(costs)[i], Normalized(carbons)[i], costs[i], carbons[i]), render)
  {
    MapAt(Scorer(w, render), InputsOf(quotes, weightKg), i);
  }

  /** The per-kilogram loop of calculate_scores. */
  method PerKgValues(quotes: seq<QuoteGenerator.Quote>, weightKg: real) returns (costs: seq<real>, carbons: seq<real>)
    requires weightKg > 0.0
    ensures costs == CostsPerKg(quotes, weightKg) && carbons == CarbonsPerKg(quotes, weightKg)
  {
    costs, carbons := [], [];
    var i := 0;
    while i < |quotes|
      invariant 0 <= i <= |quotes| && |costs| == i && |carbons| == i
      invariant forall j :: 0 <= j < i ==> costs[j] == quotes[j].costUsd / weightKg
      invariant forall j :: 0 <= j < i ==> carbons[j] == QuoteGenerator.Co2(quotes[j]) / weightKg
    {
      costs := costs + [quotes[i].costUsd / weightKg];
      carbons := carbons + [quotes[i].carbon.totalCo2Kg / weightKg];
      i := i + 1;
    }
  }

  /** calculate_scores: an empty batch and a non-positive weight raise, in
      that order; otherwise one score per quote, aligned by index. */
  method CalculateScores(w: ScoringWeights, quotes: seq<QuoteGenerator.Quote>, weightKg: real, render: real -> string)
    returns (r: Result<seq<EcoScore>, ScorerError>)
    ensures quotes == [] ==> r == Err(NoQuotes)
    ensures quotes != [] && weightKg <= 0.0 ==> r == Err(WeightNotPositive)
    ensures quotes != [] && weightKg > 0.0 ==> r == Ok(ScoresOf(w, quotes, weightKg, render))
  {
    if quotes == [] {
      return Err(NoQuotes);
    }
    if weightKg <= 0.0 {
      return Err(WeightNotPositive);
    }
    var costs, carbons := PerKgValues(quotes, weightKg);
    var costScores := NormalizeInverted(costs);
    var envScores := NormalizeInverted(carbons);
    var scores := BuildScores(w, Inputs(quotes, costScores, envScores, costs, carbons), render);
    return Ok(scores);
  }

  /** The scoring loop of calculate_scores. */
  method BuildScores(w: ScoringWeights, inputs: seq<ScoreInput>, render: real -> string) returns (scores: seq<EcoScore>)
    ensures scores == Map(Scorer(w, render), inputs)
  {
    scores := [];
    var i := 0;
    while i < |inputs|
      invariant 0 <= i <= |inputs|
      invariant scores == Map(Scorer(w, render), inputs[..i])
    {
      MapStep(Scorer(w, render), inputs, i);
      scores := scores + [MakeScore(w, inputs[i], render)];
      i := i + 1;
    }
    assert inputs[..|inputs|] == inputs;
  }

  /** Every score carries its own quote's per-kg figures, points within
      [0, 25] and a tier on the scale. */
  lemma ScoresAligned(w: ScoringWeights, quotes: seq<QuoteGenerator.Quote>, weightKg: real, render: real -> string)
    requires weightKg > 0.0
    ensures forall i :: 0 <= i < |quotes| ==>
              ScoresOf(w, quotes, weightKg, render)[i].costPerKg == quotes[i].costUsd / weightKg
              && ScoresOf(w, quotes, weightKg, render)[i].carbonPerKg == QuoteGenerator.Co2(quotes[i]) / weightKg
              && 0.0 <= ScoresOf(w, quotes, weightKg, render)[i].points <= 25.0
              && ScoresOf(w, quotes, weightKg, render)[i].tier != Unranked
  {
    var scores := ScoresOf(w, quotes, weightKg, render);
    forall i | 0 <= i < |quotes|
      ensures scores[i].costPerKg == quotes[i].costUsd / weightKg
              && scores[i].carbonPerKg == QuoteGenerator.Co2(quotes[i]) / weightKg
              && 0.0 <= scores[i].points <= 25.0 && scores[i].tier != Unranked
    {
      ScoresOfAt(w, quotes, weightKg, render, i);
      var p := ApplyBusinessLogic(w, quotes[i].serviceName, Normalized(CostsPerKg(quotes, weightKg))[i],
                                  Normalized(CarbonsPerKg(quotes, weightKg))[i]);
      RoundToMonotone(0.0, p, 10.0);
      RoundToMonotone(p, 25.0, 10.0);
    }
  }

  /** Within a batch a cheaper quote never gets a lower cost score, and a
      lower-carbon quote never gets a lower environmental score. */
  lemma CheaperScoresHigher(w: ScoringWeights, quotes: seq<QuoteGenerator.Quote>, weightKg: real,
                            render: real -> string, i: nat, j: nat)
    requires weightKg > 0.0 && i < |quotes| && j < |quotes|
    ensures quotes[i].costUsd <= quotes[j].costUsd ==>
              ScoresOf(w, quotes, weightKg, render)[i].costEffectivenessScore
              >= ScoresOf(w, quotes, weightKg, render)[j].costEffectivenessScore
    ensures QuoteGenerator.Co2(quotes[i]) <= QuoteGenerator.Co2(quotes[j]) ==>
              ScoresOf(w, quotes, weightKg, render)[i].environmentalScore
              >= ScoresOf(w, quotes, weightKg, render)[j].environmentalScore
  {
    var costs := CostsPerKg(quotes, weightKg);
    var carbons := CarbonsPerKg(quotes, weightKg);
    ScoresOfAt(w, quotes, weightKg, render, i);
    ScoresOfAt(w, quotes, weightKg, render, j);
    if quotes[i].costUsd <= quotes[j].costUsd {
      DivMonotone(quotes[i].costUsd, quotes[j].costUsd, weightKg);
      NormalizedAntitone(costs, i, j);
      RoundToMonotone(Normalized(costs)[j], Normalized(costs)[i], 100.0);
    }
    if QuoteGenerator.Co2(quotes[i]) <= QuoteGenerator.Co2(quotes[j]) {
      DivMonotone(QuoteGenerator.Co2(quotes[i]), QuoteGenerator.Co2(quotes[j]), weightKg);
      NormalizedAntitone(carbons, i, j);
      RoundToMonotone(Normalized(carbons)[j], Normalized(carbons)[i], 100.0);
    }
  }

  // ---------------------------------------------------------------------
  // get_scoring_summary
  // ---------------------------------------------------------------------

  datatype ScoringSummary = ScoringSummary(
    minPoints: real,
    maxPoints: real,
    averagePoints: real,
    bestServiceName: string,
    bestPoints: real,
    bestTier: Tier,
    tierDistribution: map<Tier, nat>,
    costWeight: real,
    environmentalWeight: real)

  function Points(scores: seq<EcoScore>): (r: seq<real>)
    ensures |r| == |scores| && forall i :: 0 <= i < |scores| ==> r[i] == scores[i].points
  {
    seq(|scores|, i requires 0 <= i < |scores| => scores[i].points)
  }

  function Tiers(scores: seq<EcoScore>): (r: seq<Tier>)
    ensures |r| == |scores| && forall i :: 0 <= i < |scores| ==> r[i] == scores[i].tier
  {
    seq(|scores|, i requires 0 <= i < |scores| => scores[i].tier)
  }

  /** max(scores, key=points): the first entry with the largest points. */
  function FirstMaxIndex(s: seq<real>): (k: nat)
    requires s != []
    ensures k < |s|
    ensures forall j :: 0 <= j < |s| ==> s[j] <= s[k]
    ensures forall j :: 0 <= j < k ==> s[j] < s[k]
  {
    if |s| == 1 then 0
    else
      var k := FirstMaxIndex(s[..|s| - 1]);
      assert forall j :: 0 <= j < |s| - 1 ==> s[..|s| - 1][j] == s[j];
      if s[|s| - 1] > s[k] then |s| - 1 else k
  }

  /** The counts a tier-counting loop holds after `tiers`: each tier seen,
      with the number of times it occurs. */
  ghost predicate CountsOf(counts: map<Tier, nat>, tiers: seq<Tier>)
  {
    forall t :: (t in counts <==> t in tiers) && (t in counts ==> counts[t] == multiset(tiers)[t])
  }

  /** The tier_counts loop. */
  method TierCounts(tiers: seq<Tier>) returns (counts: map<Tier, nat>)
    ensures forall t :: t in counts <==> t in tiers
    ensures forall t :: t in counts ==> counts[t] == multiset(tiers)[t]
  {
    counts := map[];
    var i := 0;
    while i < |tiers|
      invariant 0 <= i <= |tiers|
      invariant CountsOf(counts, tiers[..i])
    {
      var t := tiers[i];
      assert tiers[..i + 1] == tiers[..i] + [t];
      counts := counts[t := (if t in counts then counts[t] else 0) + 1];
      i := i + 1;
    }
    assert tiers[..|tiers|] == tiers;
  }

  /** The sum of the counts of every tier. */
  function CountTotal(counts: map<Tier, nat>): nat
  {
    Get(counts, Excellent) + Get(counts, VeryGood) + Get(counts, Good) + Get(counts, Fair)
    + Get(counts, Poor) + Get(counts, VeryPoor) + Get(counts, Unranked)
  }

  function Get(counts: map<Tier, nat>, t: Tier): nat
  {
    if t in counts then counts[t] else 0
  }

  function MultisetTotal(m: multiset<Tier>): nat
  {
    m[Excellent] + m[VeryGood] + m[Good] + m[Fair] + m[Poor] + m[VeryPoor] + m[Unranked]
  }

  lemma {:induction false} MultisetTotalIsLength(tiers: seq<Tier>)
    ensures MultisetTotal(multiset(tiers)) == |tiers|
  {
    if tiers != [] {
      var init := tiers[..|tiers| - 1];
      var last := tiers[|tiers| - 1];
      assert tiers == init + [last];
      assert multiset(tiers) == multiset(init) + multiset{last};
      MultisetTotalIsLength(init);
      match last
      case Excellent =>
      case VeryGood =>
      case Good =>
      case Fair =>
      case Poor =>
      case VeryPoor =>
      case Unranked =>
    }
  }

  /** The tier counts add up to the number of scores. */
  lemma TierCountsSumToLength(tiers: seq<Tier>, counts: map<Tier, nat>)
    requires forall t :: t in counts <==> t in tiers
    requires forall t :: t in counts ==> counts[t] == multiset(tiers)[t]
    ensures CountTotal(counts) == |tiers|
  {
    MultisetTotalIsLength(tiers);
  }

  /** get_scoring_summary: nothing for no scores, else the point range, the
      first best entry (its "service name" is the first sentence of its
      explanation), the tier counts and the weights. */
  method GetScoringSummary(w: ScoringWeights, scores: seq<EcoScore>) returns (r: Option<ScoringSummary>)
    ensures scores == [] <==> r.None?
    ensures r.Some? ==>
              var points := Points(scores);
              var best := scores[FirstMaxIndex(points)];
              r.value.minPoints == CarbonCalculator.SeqMin(points)
              && r.value.maxPoints == CarbonCalculator.SeqMax(points)
              && r.value.averagePoints == CarbonCalculator.SeqSum(points) / |points| as real
              && r.value.bestServiceName == Split(best.explanation, ".")[0]
              && r.value.bestPoints == best.points && r.value.bestTier == best.tier
              && CountsOf(r.value.tierDistribution, Tiers(scores))
              && r.value.costWeight == w.costEffectiveness && r.value.environmentalWeight == w.environmentalImpact
  {
    if scores == [] {
      return None;
    }
    var points := Points(scores);
    var tiers := Tiers(scores);
    var best := scores[FirstMaxIndex(points)];
    var counts := TierCounts(tiers);
    r := Some(ScoringSummary(CarbonCalculator.SeqMin(points), CarbonCalculator.SeqMax(points),
                             CarbonCalculator.SeqSum(points) / |points| as real,
                             Split(best.explanation, ".")[0], best.points, best.tier, counts,
                             w.costEffectiveness, w.environmentalImpact));
  }

  /** The best entry's points are the maximum, no earlier entry reaches
      them, and every entry lies within the reported range. */
  lemma BestIsFirstMaximum(scores: seq<EcoScore>)
    requires scores != []
    ensures var k := FirstMaxIndex(Points(scores));
            scores[k].points == CarbonCalculator.SeqMax(Points(scores))
            && forall j :: 0 <= j < k ==> scores[j].points < scores[k].points
    ensures forall i :: 0 <= i < |scores| ==>
              CarbonCalculator.SeqMin(Points(scores)) <= scores[i].points <= CarbonCalculator.SeqMax(Points(scores))
  {
    var points := Points(scores);
    var k := FirstMaxIndex(points);
    assert points[k] in points;
    assert forall i :: 0 <= i < |scores| ==> points[i] in points;
  }

  /** The summary's "service name" of a computed score is the first
      sentence of its tier's explanation, never the service's name. */
  lemma BestNameIsTierSentence(t: Tier, costScore: real, envScore: real, render: real -> string)
    ensures Split(Explanation(t, costScore, envScore, render), ".")[0] == TierSentence(t, costScore, envScore)
  {
    var sentence := TierSentence(t, costScore, envScore);
    var rest := ". Cost effectiveness: " + render(costScore) + ", "
                + (if costScore > envScore then "environmental score: " + render(envScore)
                   else "cost score: " + render(costScore)) + ".";
    assert Explanation(t, costScore, envScore, render) == sentence + rest;
    TierSentenceHasNoDot(t, costScore, envScore);
    SplitAtFirstDot(sentence, rest);
  }

  /** None of the tier sentences contains a full stop. */
  lemma TierSentenceHasNoDot(t: Tier, costScore: real, envScore: real)
    ensures '.' !in TierSentence(t, costScore, envScore)
  {
    match t
    case Excellent => ExcellentPieces();
    case VeryGood => VeryGoodPieces();
    case Good => GoodPieces();
    case Fair => FairPieces();
    case Poor => PoorPieces();
    case VeryPoor => VeryPoorPieces();
    case Unranked => assert '.' !in "Standard shipping option";
  }

  // The pieces of each tier sentence, none holding a full stop.
  lemma ExcellentPieces()
    ensures '.' !in "Outstanding balance of cost" && '.' !in " and environmental performance"
  {
  }

  lemma VeryGoodPieces()
    ensures '.' !in "Strong " && '.' !in " option with good overall value"
    ensures '.' !in "cost-effective" && '.' !in "environmentally friendly"
  {
  }

  lemma GoodPieces()
    ensures '.' !in "Moderate eco-friendly choice" && '.' !in " with reasonable cost trade-offs"
  {
  }

  lemma FairPieces()
    ensures '.' !in "Balanced medium-speed service" && '.' !in " option with competitive scoring"
  {
  }

  lemma PoorPieces()
    ensures '.' !in "Express service with higher" && '.' !in " cost and environmental impact"
  {
  }

  lemma VeryPoorPieces()
    ensures '.' !in "Premium express service with" && '.' !in " significant cost and"
    ensures '.' !in " environmental trade-offs"
  {
  }

  /** Splitting p + r at "." yields p first when p has no "." and r starts with one. */
  lemma SplitAtFirstDot(p: string, r: string)
    requires '.' !in p && r != [] && r[0] == '.'
    ensures Split(p + r, ".")[0] == p
  {
    IndexOfAfterPlain(p, r);
    assert (p + r)[..|p|] == p;
  }

  /** The first "." in p + r, when p has none and r starts with one, is at |p|. */
  lemma {:induction false} IndexOfAfterPlain(p: string, r: string)
    requires '.' !in p && r != [] && r[0] == '.'
    ensures IndexOf(p + r, ".") == Some(|p|)
    decreases |p|
  {
    if p == [] {
      assert p + r == r;
      assert "." <= r;
    } else {
      assert (p + r)[0] == p[0];
      assert !("." <= p + r);
      assert (p + r)[1..] == p[1..] + r;
      IndexOfAfterPlain(p[1..], r);
    }
  }
}
