/**
 * The risk segmentation and recommendation engine of
 * backend/app/recommendations.py. The engine's only state is its action
 * catalog, assigned once when the engine is built and only read afterwards,
 * so it is a constant here and both operations are functions of the
 * default probability.
 */
module Recommendations {
  import opened Rounding

  const LowRisk: string := "Low Risk"
  const MediumRisk: string := "Medium Risk"
  const HighRisk: string := "High Risk"

  /** The action catalog: each segment's fixed, ordered list of actions. */
  const Actions: map<string, seq<string>> := map[
    LowRisk := [
      "Send gentle SMS reminder",
      "Automated email nudge",
      "Offer loyalty discount for early payment"
    ],
    MediumRisk := [
      "Offer flexible repayment plan",
      "SMS/Email Warning",
      "Schedule automated robo-call"
    ],
    HighRisk := [
      "Assign to recovery agent",
      "Offer significant settlement waiver",
      "Legal notice preparation"
    ]
  ]

  /** The dictionary `get_recommendation` returns. */
  datatype Recommendation = Recommendation(
    riskSegment: string,
    recommendedActions: seq<string>,
    defaultProbability: real)

  /** The position of a segment on the risk scale: Low < Medium < High. */
  function RiskRank(segment: string): int {
    if segment == LowRisk then 0
    else if segment == MediumRisk then 1
    else if segment == HighRisk then 2
    else -1
  }

  /**
   * `segment_borrower`: half-open thresholds at 0.2 and 0.6, each boundary
   * belonging to the riskier segment. Every real is accepted; the result is
   * always a key of the catalog.
   */
  function SegmentBorrower(defaultProb: real): (segment: string)
    ensures segment in Actions
    ensures 0 <= RiskRank(segment) <= 2
  {
    if defaultProb < 0.2 then LowRisk
    else if defaultProb < 0.6 then MediumRisk
    else HighRisk
  }

  /** `actions.get(segment, [])`: the catalog entry, or no actions at all. */
  function ActionsFor(segment: string): (actions: seq<string>)
    ensures segment in Actions ==> actions == Actions[segment] && |actions| == 3
    ensures segment !in Actions ==> actions == []
  {
    if segment in Actions then Actions[segment] else []
  }

  /**
   * `get_recommendation`: the segment of the probability, that segment's
   * catalog list (never the empty fallback), and the probability rounded to
   * 4 decimal places.
   */
  function GetRecommendation(defaultProb: real): (r: Recommendation)
    ensures r.riskSegment == SegmentBorrower(defaultProb)
    ensures r.riskSegment in Actions && r.recommendedActions == Actions[r.riskSegment]
    ensures |r.recommendedActions| == 3
    ensures r.defaultProbability == Round(defaultProb, 4)
    ensures Abs(r.defaultProbability - defaultProb) * 10000.0 <= 0.5
    ensures Round(r.defaultProbability, 4) == r.defaultProbability
  {
    RoundError(defaultProb, 4);
    RoundIdempotent(defaultProb, 4);
    var segment := SegmentBorrower(defaultProb);
    Recommendation(segment, ActionsFor(segment), Round(defaultProb, 4))
  }

  /** Each segment is exactly one interval of probabilities. */
  lemma SegmentIntervals(p: real)
    ensures SegmentBorrower(p) == LowRisk <==> p < 0.2
    ensures SegmentBorrower(p) == MediumRisk <==> 0.2 <= p < 0.6
    ensures SegmentBorrower(p) == HighRisk <==> p >= 0.6
  {
  }

  /** The boundary values go to the riskier segment. */
  lemma SegmentBoundaries()
    ensures SegmentBorrower(0.1999) == LowRisk
    ensures SegmentBorrower(0.2) == MediumRisk
    ensures SegmentBorrower(0.5999) == MediumRisk
    ensures SegmentBorrower(0.6) == HighRisk
    ensures SegmentBorrower(0.7) == HighRisk
  {
  }

  /** Out-of-range probabilities are neither rejected nor clamped. */
  lemma SegmentOutOfRange(p: real)
    ensures p < 0.0 ==> SegmentBorrower(p) == LowRisk
    ensures p > 1.0 ==> SegmentBorrower(p) == HighRisk
  {
  }

  /** A higher probability never gives a less risky segment. */
  lemma SegmentMonotone(p: real, q: real)
    requires p <= q
    ensures RiskRank(SegmentBorrower(p)) <= RiskRank(SegmentBorrower(q))
  {
  }

  /** The three segments have distinct ranks, so the ranking is faithful. */
  lemma RiskRankDistinguishes(s: string, t: string)
    requires s in Actions && t in Actions
    ensures RiskRank(s) == RiskRank(t) <==> s == t
  {
  }

  /**
   * The catalog's three lists are pairwise different, so the recommended
   * actions alone tell which segment a probability fell in.
   */
  lemma ActionsIdentifySegment(p: real, q: real)
    ensures GetRecommendation(p).recommendedActions == GetRecommendation(q).recommendedActions
        <==> SegmentBorrower(p) == SegmentBorrower(q)
  {
  }

  /**
   * The reported probability is rounded after segmenting. Away from the
   * thresholds by more than the rounding error, the rounded probability
   * falls in the same segment as the exact one.
   */
  lemma SegmentStableUnderRounding(p: real)
    requires Abs(p - 0.2) > 0.00005 && Abs(p - 0.6) > 0.00005
    ensures SegmentBorrower(GetRecommendation(p).defaultProbability) == GetRecommendation(p).riskSegment
  {
  }

  /**
   * Next to a threshold the two can differ: 0.19999 is segmented as Low Risk
   * but reported as 0.2, which is a Medium Risk probability.
   */
  lemma ReportedProbabilityCanCrossThreshold()
    ensures GetRecommendation(0.19999).riskSegment == LowRisk
    ensures GetRecommendation(0.19999).defaultProbability == 0.2
    ensures SegmentBorrower(GetRecommendation(0.19999).defaultProbability) == MediumRisk
  {
  }
}
