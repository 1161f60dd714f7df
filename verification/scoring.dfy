/** Values the quiz works on, and the per-question scoring arithmetic:
    the exponential-decay point award, the buyer's share of a tax, and the
    record of one answered question. */
module Scoring {

  /** One good of the reference dataset (the dataset's field is called `good`). */
  datatype Good = Good(name: string, demandElasticity: real, supplyElasticity: real)

  /** The record of one completed question. */
  datatype QuestionResult = QuestionResult(
    questionNumber: int,
    good: string,
    demandPoints: int,
    supplyPoints: int,
    taxIncidencePoints: int,
    totalPoints: int,
    demandGuess: real,
    demandActual: real,
    supplyGuess: real,
    supplyActual: real,
    taxIncidenceGuess: real,
    taxIncidenceActual: real)

  /** The breakdown shown on the result screen. */
  datatype QuestionPoints = QuestionPoints(demand: int, supply: int, taxIncidence: int, total: int)

  const DemandMaxPoints: nat := 2000
  const SupplyMaxPoints: nat := 2000
  const TaxIncidenceMaxPoints: nat := 1000
  /** The default decay rate of the point award, used for both elasticities. */
  const DefaultScaleFactor: real := 2.0
  /** The steeper decay used for the tax incidence, whose differences are small. */
  const TaxIncidenceScaleFactor: real := 10.0
  /** The most one question can score. */
  const MaxQuestionPoints: nat := DemandMaxPoints + SupplyMaxPoints + TaxIncidenceMaxPoints

  function Abs(x: real): (r: real)
    ensures r >= 0.0 && (r == x || r == -x)
  {
    if x < 0.0 then -x else x
  }

  /** Stand-in for exp(-x) on x >= 0: the reciprocal of the quadratic Taylor
      polynomial of exp(x). It shares the properties of exp(-x) that the
      scoring relies on. */
  function Decay(x: real): (r: real)
    requires x >= 0.0
    ensures 0.0 < r <= 1.0
    ensures r == 1.0 <==> x == 0.0
  {
    var p := 1.0 + x + x * x / 2.0;
    assert p >= 1.0 + x;
    assert x > 0.0 ==> p > 1.0;
    1.0 / p
  }

  /** Multiplying by a non-negative factor keeps an order. */
  lemma MulMonotone(c: real, x: real, y: real)
    requires c >= 0.0 && x <= y
    ensures c * x <= c * y
  {
    assert c * y - c * x == c * (y - x);
  }

  /** With a positive factor, a product has the sign of the other factor. */
  lemma SignOfProduct(a: real, t: real)
    requires t > 0.0
    ensures a > 0.0 <==> a * t > 0.0
    ensures a == 0.0 <==> a * t == 0.0
  {
    if a < 0.0 {
      assert (-a) * t > 0.0;
    }
  }

  lemma ReciprocalAntitone(a: real, b: real)
    requires 0.0 < a <= b
    ensures 1.0 / b <= 1.0 / a
  {
    var ia, ib := 1.0 / a, 1.0 / b;
    assert ia * a == 1.0 && ib * b == 1.0;
    assert ib > 0.0;
    MulMonotone(ib, a, b);
    assert (ib - ia) * a <= 0.0;
    SignOfProduct(ib - ia, a);
  }

  lemma DecayAntitone(x: real, y: real)
    requires 0.0 <= x <= y
    ensures Decay(y) <= Decay(x)
  {
    MulMonotone(x, x, y);
    MulMonotone(y, x, y);
    assert x * x <= y * y;
    ReciprocalAntitone(1.0 + x + x * x / 2.0, 1.0 + y + y * y / 2.0);
  }

  /** JavaScript's Math.round: the nearest integer, halves rounded up. */
  function Round(v: real): (n: int)
    ensures v - 0.5 < n as real <= v + 0.5
  {
    (v + 0.5).Floor
  }

  lemma RoundMonotone(u: real, v: real)
    requires u <= v
    ensures Round(u) <= Round(v)
  {
  }

  /** The unrounded award: maxPoints scaled by the decay of x. */
  function DecayedPoints(maxPoints: nat, x: real): (v: real)
    requires x >= 0.0
    ensures 0.0 <= v <= maxPoints as real
    ensures x == 0.0 ==> v == maxPoints as real
  {
    var d := Decay(x);
    MulMonotone(maxPoints as real, d, 1.0);
    MulMonotone(maxPoints as real, 0.0, d);
    maxPoints as real * d
  }

  lemma DecayedPointsAntitone(maxPoints: nat, x: real, y: real)
    requires 0.0 <= x <= y
    ensures DecayedPoints(maxPoints, y) <= DecayedPoints(maxPoints, x)
  {
    var m := maxPoints as real;
    assert DecayedPoints(maxPoints, x) == m * Decay(x);
    assert DecayedPoints(maxPoints, y) == m * Decay(y);
    DecayAntitone(x, y);
    MulMonotone(m, Decay(y), Decay(x));
  }

  /** calculatePoints: maxPoints scaled by the decay of difference * scaleFactor, rounded. */
  function CalculatePoints(difference: real, maxPoints: nat, scaleFactor: real): (points: int)
    requires difference >= 0.0 && scaleFactor >= 0.0
    ensures 0 <= points <= maxPoints
    ensures difference == 0.0 ==> points == maxPoints
  {
    Round(DecayedPoints(maxPoints, difference * scaleFactor))
  }

  /** A closer guess never earns fewer points. */
  lemma CalculatePointsAntitone(d1: real, d2: real, maxPoints: nat, scaleFactor: real)
    requires 0.0 <= d1 <= d2 && scaleFactor >= 0.0
    ensures CalculatePoints(d2, maxPoints, scaleFactor) <= CalculatePoints(d1, maxPoints, scaleFactor)
  {
    MulMonotone(scaleFactor, d1, d2);
    DecayedPointsAntitone(maxPoints, d1 * scaleFactor, d2 * scaleFactor);
    RoundMonotone(DecayedPoints(maxPoints, d2 * scaleFactor), DecayedPoints(maxPoints, d1 * scaleFactor));
  }

  /** The buyer's share of a tax cannot be computed when both elasticities vanish. */
  predicate IncidenceDefined(demand: real, supply: real) {
    Abs(demand) + supply != 0.0
  }

  /** Fraction of a tax borne by buyers: s / (|d| + s). */
  function BuyerShare(demand: real, supply: real): (share: real)
    requires IncidenceDefined(demand, supply)
    ensures share * (Abs(demand) + supply) == supply
    ensures supply >= 0.0 ==> 0.0 <= share <= 1.0
    ensures supply == 0.0 ==> share == 0.0
    ensures demand == 0.0 ==> share == 1.0
  {
    supply / (Abs(demand) + supply)
  }

  /** The less elastic side bears more of the tax: buyers pay more than half
      exactly when supply is more elastic than demand. */
  lemma BuyersBearMoreIffSupplyMoreElastic(demand: real, supply: real)
    requires supply >= 0.0 && IncidenceDefined(demand, supply)
    ensures BuyerShare(demand, supply) > 0.5 <==> supply > Abs(demand)
    ensures BuyerShare(demand, supply) == 0.5 <==> supply == Abs(demand)
  {
    var t := Abs(demand) + supply;
    var share := BuyerShare(demand, supply);
    assert (share - 0.5) * t == 0.5 * (supply - Abs(demand));
    SignOfProduct(share - 0.5, t);
  }

  /** The scoring done by a successful supply submit: three point awards and
      their sum, recorded with the guesses and the actual values. */
  function ScoreQuestion(questionNumber: int, good: Good, demandGuess: real, supplyGuess: real): (r: QuestionResult)
    requires IncidenceDefined(demandGuess, supplyGuess)
    requires IncidenceDefined(good.demandElasticity, good.supplyElasticity)
    ensures r.questionNumber == questionNumber && r.good == good.name
    ensures r.demandGuess == demandGuess && r.demandActual == good.demandElasticity
    ensures r.supplyGuess == supplyGuess && r.supplyActual == good.supplyElasticity
    ensures r.taxIncidenceGuess == BuyerShare(demandGuess, supplyGuess)
    ensures r.taxIncidenceActual == BuyerShare(good.demandElasticity, good.supplyElasticity)
    ensures 0 <= r.demandPoints <= DemandMaxPoints
    ensures 0 <= r.supplyPoints <= SupplyMaxPoints
    ensures 0 <= r.taxIncidencePoints <= TaxIncidenceMaxPoints
    ensures r.totalPoints == r.demandPoints + r.supplyPoints + r.taxIncidencePoints
    ensures 0 <= r.totalPoints <= MaxQuestionPoints
  {
    var demandActual := good.demandElasticity;
    var supplyActual := good.supplyElasticity;
    var demandPoints := CalculatePoints(Abs(demandGuess - demandActual), DemandMaxPoints, DefaultScaleFactor);
    var supplyPoints := CalculatePoints(Abs(supplyGuess - supplyActual), SupplyMaxPoints, DefaultScaleFactor);
    var actualTaxIncidence := BuyerShare(demandActual, supplyActual);
    var guessTaxIncidence := BuyerShare(demandGuess, supplyGuess);
    var taxIncidencePoints := CalculatePoints(Abs(guessTaxIncidence - actualTaxIncidence), TaxIncidenceMaxPoints, TaxIncidenceScaleFactor);
    QuestionResult(
      questionNumber, good.name,
      demandPoints, supplyPoints, taxIncidencePoints,
      demandPoints + supplyPoints + taxIncidencePoints,
      demandGuess, demandActual, supplyGuess, supplyActual,
      guessTaxIncidence, actualTaxIncidence)
  }

  /** Exact guesses earn every point of every component. */
  lemma ExactGuessScoresMaximum(questionNumber: int, good: Good)
    requires IncidenceDefined(good.demandElasticity, good.supplyElasticity)
    ensures var r := ScoreQuestion(questionNumber, good, good.demandElasticity, good.supplyElasticity);
      r.demandPoints == DemandMaxPoints && r.supplyPoints == SupplyMaxPoints &&
      r.taxIncidencePoints == TaxIncidenceMaxPoints && r.totalPoints == MaxQuestionPoints
  {
    var r := ScoreQuestion(questionNumber, good, good.demandElasticity, good.supplyElasticity);
    assert r.taxIncidenceGuess == r.taxIncidenceActual;
  }

  /** The demand points never fall when the demand guess gets closer to the actual value. */
  lemma CloserDemandGuessScoresNoLess(questionNumber: int, good: Good, g1: real, g2: real, supplyGuess: real)
    requires IncidenceDefined(good.demandElasticity, good.supplyElasticity)
    requires IncidenceDefined(g1, supplyGuess) && IncidenceDefined(g2, supplyGuess)
    requires Abs(g1 - good.demandElasticity) <= Abs(g2 - good.demandElasticity)
    ensures ScoreQuestion(questionNumber, good, g2, supplyGuess).demandPoints
         <= ScoreQuestion(questionNumber, good, g1, supplyGuess).demandPoints
  {
    CalculatePointsAntitone(Abs(g1 - good.demandElasticity), Abs(g2 - good.demandElasticity), DemandMaxPoints, DefaultScaleFactor);
  }

  /** The supply points never fall when the supply guess gets closer to the actual value. */
  lemma CloserSupplyGuessScoresNoLess(questionNumber: int, good: Good, demandGuess: real, g1: real, g2: real)
    requires IncidenceDefined(good.demandElasticity, good.supplyElasticity)
    requires IncidenceDefined(demandGuess, g1) && IncidenceDefined(demandGuess, g2)
    requires Abs(g1 - good.supplyElasticity) <= Abs(g2 - good.supplyElasticity)
    ensures ScoreQuestion(questionNumber, good, demandGuess, g2).supplyPoints
         <= ScoreQuestion(questionNumber, good, demandGuess, g1).supplyPoints
  {
    CalculatePointsAntitone(Abs(g1 - good.supplyElasticity), Abs(g2 - good.supplyElasticity), SupplyMaxPoints, DefaultScaleFactor);
  }
}
