/**
 * The TMF scorer (`TMFScorer` in src/scoring.py): a pure map from a record of
 * nullable market indicators to a composite score in [0, 100], its category
 * breakdown, the boost rules, a status tier and a list of signals.
 */
module Scoring {
  import opened Wrappers
  import opened Decimal

  // ---------------------------------------------------------------------------
  // The class constants
  // ---------------------------------------------------------------------------

  /** `WEIGHTS`: how the two category totals combine. */
  const InterestRateWeight: real := 0.40
  const RiskOffWeight: real := 0.60

  /** `INTEREST_WEIGHTS`. */
  const Treasury10yWeight: real := 0.35
  const Treasury30yWeight: real := 0.35
  const RateDeclineWeight: real := 0.30

  /** `RISK_WEIGHTS`. */
  const VixWeight: real := 0.50
  const Sp500DeviationWeight: real := 0.50

  /** The multiplier candidates and trigger levels of the two boost rules. */
  const RateDeclineBoost: real := 1.15
  const VixSpikeBoost: real := 1.20
  const RateDeclineTrigger: real := -0.5
  const VixTrigger: real := 20.0
  const DeviationTrigger: real := -2.0

  /** A sub-score strictly above this produces a signal. */
  const SignalThreshold: real := 60.0

  // ---------------------------------------------------------------------------
  // Data model
  // ---------------------------------------------------------------------------

  /** The S&P 500 snapshot: price, 200-sample moving average, and percentage deviation. */
  datatype SP500 = SP500(price: real, ma200: real, deviationPct: real)

  /** The change of the 10-year yield over a look-back window of `weeks` weeks. */
  datatype RateChange = RateChange(current: real, past: real, changePct: real, weeks: nat)

  /** `data['indicators']`: every field is `None` when its fetch failed. */
  datatype Indicators = Indicators(
    treasury10y: Option<real>,
    treasury30y: Option<real>,
    vix: Option<real>,
    sp500: Option<SP500>,
    treasury10yChange: Option<RateChange>)

  const NoIndicators: Indicators := Indicators(None, None, None, None, None)

  /** One entry of a category's `details`: the raw value and its rounded sub-score. */
  datatype Detail = Detail(value: Option<real>, score: real)

  /** The S&P 500 entry of `details`, which also carries the price and the moving average. */
  datatype Sp500Detail = Sp500Detail(value: Option<real>, price: Option<real>, ma200: Option<real>, score: real)

  datatype InterestScore = InterestScore(total: real, treasury10y: Detail, treasury30y: Detail, rateDecline: Detail)

  datatype RiskScore = RiskScore(total: real, vix: Detail, sp500Deviation: Sp500Detail)

  /** The two boost rules, in the order they are evaluated. */
  datatype BoostRule = RateDecline2w | VixSpikeAndSp500Drop {
    /** The text appended to `conditions` when the rule fires. */
    function Label(): string {
      match this
      case RateDecline2w => "金利2週連続急低下"
      case VixSpikeAndSp500Drop => "VIX高騰 + S&P500急落"
    }
  }

  datatype Boost = Boost(applied: bool, multiplier: real, conditions: seq<BoostRule>)

  /** The four status tiers, with the tier table's bounds and display colour. */
  datatype Status = Normal | Precursor | Alert | Imminent {
    function Level(): string {
      match this
      case Normal => "normal"
      case Precursor => "precursor"
      case Alert => "alert"
      case Imminent => "imminent"
    }

    function Color(): string {
      match this
      case Normal => "#10b981"
      case Precursor => "#f59e0b"
      case Alert => "#ef4444"
      case Imminent => "#dc2626"
    }

    /** Position in the order normal < precursor < alert < imminent. */
    function Rank(): nat {
      match this
      case Normal => 0
      case Precursor => 1
      case Alert => 2
      case Imminent => 3
    }

    /** `THRESHOLDS[level]`: the (low, high) pair the table gives each tier. */
    function Lower(): real {
      match this
      case Normal => 0.0
      case Precursor => 40.0
      case Alert => 65.0
      case Imminent => 80.0
    }

    function Upper(): real {
      match this
      case Normal => 39.0
      case Precursor => 64.0
      case Alert => 79.0
      case Imminent => 100.0
    }
  }

  /** A signal and the raw value it reports; `NoNotableChange` is the placeholder. */
  datatype Signal =
    | LowTreasury10y(yieldPct: Option<real>)
    | SharpRateDecline(changePct: Option<real>)
    | VixRise(vix: Option<real>)
    | Sp500Drop(deviationPct: Option<real>)
    | NoNotableChange
  {
    /** The fixed position of each kind of signal in the list. */
    function Order(): nat {
      match this
      case LowTreasury10y(_) => 0
      case SharpRateDecline(_) => 1
      case VixRise(_) => 2
      case Sp500Drop(_) => 3
      case NoNotableChange => 4
    }
  }

  datatype ScoreResult = ScoreResult(
    totalScore: real,
    status: Status,
    interestRate: InterestScore,
    riskOff: RiskScore,
    boost: Boost,
    signals: seq<Signal>,
    rawIndicators: Indicators)

  // ---------------------------------------------------------------------------
  // Per-indicator sub-scores (before rounding)
  // ---------------------------------------------------------------------------

  /** 10-year yield: 100 at or below 2%, 0 at or above 6%, linear between. */
  function Treasury10yScore(yieldPct: real): (s: real)
    ensures 0.0 <= s <= 100.0
    ensures yieldPct <= 2.0 ==> s == 100.0
    ensures 6.0 <= yieldPct ==> s == 0.0
    ensures 2.0 < yieldPct < 6.0 ==> 0.0 < s < 100.0
  {
    Clamp((6.0 - yieldPct) / 4.0 * 100.0)
  }

  /** 30-year yield: 100 at or below 2.5%, 0 at or above 6.5%, linear between. */
  function Treasury30yScore(yieldPct: real): (s: real)
    ensures 0.0 <= s <= 100.0
    ensures yieldPct <= 2.5 ==> s == 100.0
    ensures 6.5 <= yieldPct ==> s == 0.0
    ensures 2.5 < yieldPct < 6.5 ==> 0.0 < s < 100.0
  {
    Clamp((6.5 - yieldPct) / 4.0 * 100.0)
  }

  /**
   * Rate decline: 100 at or below -1.0%, 0 at or above +0.5%, otherwise the
   * clamped line through the origin, which is 0 for every change in [0, 0.5)
   * and stays below 200/3 just above -1.0, so the score jumps at -1.0.
   */
  function RateDeclineScore(changePct: real): (s: real)
    ensures 0.0 <= s <= 100.0
    ensures changePct <= -1.0 ==> s == 100.0
    ensures 0.0 <= changePct ==> s == 0.0
    ensures -1.0 < changePct < 0.0 ==> 0.0 < s < 200.0 / 3.0
  {
    if changePct <= -1.0 then 100.0
    else if changePct >= 0.5 then 0.0
    else Clamp(-changePct / 1.5 * 100.0)
  }

  /** VIX: 0 at or below 10, 100 at or above 30, linear between. */
  function VixScore(vix: real): (s: real)
    ensures 0.0 <= s <= 100.0
    ensures vix <= 10.0 ==> s == 0.0
    ensures 30.0 <= vix ==> s == 100.0
    ensures 10.0 < vix < 30.0 ==> 0.0 < s < 100.0
  {
    Clamp((vix - 10.0) / 20.0 * 100.0)
  }

  /**
   * S&P 500 deviation from its moving average: 100 at or below -10%, 0 at or
   * above +5%, otherwise the clamped line through the origin, which is 0 on
   * [0, 5) and stays below 200/3 just above -10, so the score jumps at -10.
   */
  function Sp500DeviationScore(deviationPct: real): (s: real)
    ensures 0.0 <= s <= 100.0
    ensures deviationPct <= -10.0 ==> s == 100.0
    ensures 0.0 <= deviationPct ==> s == 0.0
    ensures -10.0 < deviationPct < 0.0 ==> 0.0 < s < 200.0 / 3.0
  {
    if deviationPct <= -10.0 then 100.0
    else if deviationPct >= 5.0 then 0.0
    else Clamp(-deviationPct / 15.0 * 100.0)
  }

  // ---------------------------------------------------------------------------
  // Details: the value and the rounded sub-score, or (None, 0) when absent
  // ---------------------------------------------------------------------------

  function Treasury10yDetail(yieldPct: Option<real>): (d: Detail)
    ensures d.value == yieldPct
    ensures 0.0 <= d.score <= 100.0
    ensures yieldPct.None? ==> d.score == 0.0
    ensures yieldPct.Some? ==> d.score == Round1(Treasury10yScore(yieldPct.value))
  {
    match yieldPct
    case None => Detail(None, 0.0)
    case Some(y) => Detail(Some(y), Round1(Treasury10yScore(y)))
  }

  function Treasury30yDetail(yieldPct: Option<real>): (d: Detail)
    ensures d.value == yieldPct
    ensures 0.0 <= d.score <= 100.0
    ensures yieldPct.None? ==> d.score == 0.0
    ensures yieldPct.Some? ==> d.score == Round1(Treasury30yScore(yieldPct.value))
  {
    match yieldPct
    case None => Detail(None, 0.0)
    case Some(y) => Detail(Some(y), Round1(Treasury30yScore(y)))
  }

  /** The rate-decline entry records `change_pct`, not the whole change record. */
  function RateDeclineDetail(change: Option<RateChange>): (d: Detail)
    ensures change.None? ==> d == Detail(None, 0.0)
    ensures change.Some? ==> d.value == Some(change.value.changePct)
    ensures change.Some? ==> d.score == Round1(RateDeclineScore(change.value.changePct))
    ensures 0.0 <= d.score <= 100.0
  {
    match change
    case None => Detail(None, 0.0)
    case Some(c) => Detail(Some(c.changePct), Round1(RateDeclineScore(c.changePct)))
  }

  function VixDetail(vix: Option<real>): (d: Detail)
    ensures d.value == vix
    ensures 0.0 <= d.score <= 100.0
    ensures vix.None? ==> d.score == 0.0
    ensures vix.Some? ==> d.score == Round1(VixScore(vix.value))
  {
    match vix
    case None => Detail(None, 0.0)
    case Some(v) => Detail(Some(v), Round1(VixScore(v)))
  }

  function Sp500DeviationDetail(sp: Option<SP500>): (d: Sp500Detail)
    ensures sp.None? ==> d == Sp500Detail(None, None, None, 0.0)
    ensures sp.Some? ==> d.value == Some(sp.value.deviationPct)
    ensures sp.Some? ==> d.price == Some(sp.value.price) && d.ma200 == Some(sp.value.ma200)
    ensures sp.Some? ==> d.score == Round1(Sp500DeviationScore(sp.value.deviationPct))
    ensures 0.0 <= d.score <= 100.0
  {
    match sp
    case None => Sp500Detail(None, None, None, 0.0)
    case Some(s) => Sp500Detail(Some(s.deviationPct), Some(s.price), Some(s.ma200), Round1(Sp500DeviationScore(s.deviationPct)))
  }

  // ---------------------------------------------------------------------------
  // Category totals and the composite
  // ---------------------------------------------------------------------------

  /**
   * `_calculate_interest_score`: the weighted sum of the three ROUNDED
   * sub-scores, itself rounded to one decimal. Because the weights sum to 1 the
   * total lies between the smallest and the largest sub-score, up to rounding.
   */
  function InterestRateScore(ind: Indicators): (r: InterestScore)
    ensures r.treasury10y == Treasury10yDetail(ind.treasury10y)
    ensures r.treasury30y == Treasury30yDetail(ind.treasury30y)
    ensures r.rateDecline == RateDeclineDetail(ind.treasury10yChange)
    ensures 0.0 <= r.total <= 100.0
    ensures Min(Min(r.treasury10y.score, r.treasury30y.score), r.rateDecline.score) - 0.05 < r.total
    ensures r.total <= Max(Max(r.treasury10y.score, r.treasury30y.score), r.rateDecline.score) + 0.05
  {
    var t10 := Treasury10yDetail(ind.treasury10y);
    var t30 := Treasury30yDetail(ind.treasury30y);
    var rd := RateDeclineDetail(ind.treasury10yChange);
    var total := t10.score * Treasury10yWeight + t30.score * Treasury30yWeight + rd.score * RateDeclineWeight;
    InterestScore(Round1(total), t10, t30, rd)
  }

  /** `_calculate_risk_score`: half VIX, half S&P 500 deviation, rounded to one decimal. */
  function RiskOffScore(ind: Indicators): (r: RiskScore)
    ensures r.vix == VixDetail(ind.vix)
    ensures r.sp500Deviation == Sp500DeviationDetail(ind.sp500)
    ensures 0.0 <= r.total <= 100.0
    ensures Min(r.vix.score, r.sp500Deviation.score) - 0.05 < r.total
    ensures r.total <= Max(r.vix.score, r.sp500Deviation.score) + 0.05
  {
    var v := VixDetail(ind.vix);
    var sp := Sp500DeviationDetail(ind.sp500);
    var total := v.score * VixWeight + sp.score * Sp500DeviationWeight;
    RiskScore(Round1(total), v, sp)
  }

  /** 0.40 of the interest-rate total plus 0.60 of the risk-off total. */
  function Composite(interestTotal: real, riskTotal: real): (c: real)
    ensures 0.0 <= interestTotal <= 100.0 && 0.0 <= riskTotal <= 100.0 ==> 0.0 <= c <= 100.0
    ensures interestTotal <= riskTotal ==> interestTotal <= c <= riskTotal
    ensures riskTotal <= interestTotal ==> riskTotal <= c <= interestTotal
  {
    interestTotal * InterestRateWeight + riskTotal * RiskOffWeight
  }

  // ---------------------------------------------------------------------------
  // Boost
  // ---------------------------------------------------------------------------

  /** Rule A: the 10-year yield changed by -0.5% or less. */
  predicate RateDeclineTriggered(ind: Indicators) {
    ind.treasury10yChange.Some? && ind.treasury10yChange.value.changePct <= RateDeclineTrigger
  }

  /** Rule B: VIX strictly above 20 and the S&P 500 strictly more than 2% below its average. */
  predicate VixSpikeTriggered(ind: Indicators) {
    && ind.vix.Some? && ind.vix.value > VixTrigger
    && ind.sp500.Some? && ind.sp500.value.deviationPct < DeviationTrigger
  }

  /**
   * `_check_boost_conditions`: the triggered rules in rule order, and the
   * LARGEST of their multiplier candidates (1.0 when none triggers).
   */
  function BoostConditions(ind: Indicators): (b: Boost)
    ensures b.applied <==> b.conditions != []
    ensures b.applied <==> RateDeclineTriggered(ind) || VixSpikeTriggered(ind)
    ensures RateDecline2w in b.conditions <==> RateDeclineTriggered(ind)
    ensures VixSpikeAndSp500Drop in b.conditions <==> VixSpikeTriggered(ind)
    ensures |b.conditions| == 2 ==> b.conditions == [RateDecline2w, VixSpikeAndSp500Drop]
    ensures |b.conditions| <= 2
    ensures b.multiplier == if VixSpikeTriggered(ind) then VixSpikeBoost
                            else if RateDeclineTriggered(ind) then RateDeclineBoost
                            else 1.0
  {
    var afterA := if RateDeclineTriggered(ind) then Max(1.0, RateDeclineBoost) else 1.0;
    var condsA := if RateDeclineTriggered(ind) then [RateDecline2w] else [];
    var afterB := if VixSpikeTriggered(ind) then Max(afterA, VixSpikeBoost) else afterA;
    var conds := condsA + if VixSpikeTriggered(ind) then [VixSpikeAndSp500Drop] else [];
    Boost(|conds| > 0, afterB, conds)
  }

  /** Lines 76-77: multiply by the boost and cap at 100; without a boost the score is untouched. */
  function ApplyBoost(total: real, boost: Boost): (r: real)
    ensures !boost.applied ==> r == total
    ensures r <= 100.0 || (!boost.applied && r == total)
    ensures 0.0 <= total <= 100.0 && 1.0 <= boost.multiplier ==> total <= r <= 100.0
    ensures boost.applied && total * boost.multiplier <= 100.0 ==> r == total * boost.multiplier
    ensures boost.applied && 100.0 <= total * boost.multiplier ==> r == 100.0
    ensures boost.applied && 1.0 < boost.multiplier && 0.0 < total && total * boost.multiplier < 100.0 ==> total < r
  {
    if boost.applied then
      assert 1.0 < boost.multiplier && 0.0 < total ==> total < total * boost.multiplier by {
        if 1.0 < boost.multiplier && 0.0 < total {
          assert total * boost.multiplier - total == total * (boost.multiplier - 1.0);
        }
      }
      assert 0.0 <= total && 1.0 <= boost.multiplier ==> total <= total * boost.multiplier by {
        if 0.0 <= total && 1.0 <= boost.multiplier {
          assert total * boost.multiplier - total == total * (boost.multiplier - 1.0);
        }
      }
      Min(100.0, total * boost.multiplier)
    else total
  }

  // ---------------------------------------------------------------------------
  // Status and signals
  // ---------------------------------------------------------------------------

  /**
   * `_determine_status`: only the upper bounds 39, 64 and 79 are tested, with
   * `<=`, so every real score gets exactly one tier.
   */
  function DetermineStatus(score: real): (s: Status)
    ensures s == Normal <==> score <= 39.0
    ensures s == Precursor <==> 39.0 < score <= 64.0
    ensures s == Alert <==> 64.0 < score <= 79.0
    ensures s == Imminent <==> 79.0 < score
  {
    if score <= Normal.Upper() then Normal
    else if score <= Precursor.Upper() then Precursor
    else if score <= Alert.Upper() then Alert
    else Imminent
  }

  /** The signals appear in their fixed order, each kind at most once. */
  predicate InOrder(s: seq<Signal>) {
    forall i, j :: 0 <= i < j < |s| ==> s[i].Order() < s[j].Order()
  }

  /** Puts `sig` in front of the signals after it when its condition holds. */
  function FireBefore(condition: bool, sig: Signal, after: seq<Signal>): (s: seq<Signal>)
    requires InOrder(after) && forall i :: 0 <= i < |after| ==> sig.Order() < after[i].Order()
    ensures |s| == |after| + (if condition then 1 else 0)
    ensures forall x :: x in s <==> (condition && x == sig) || x in after
    ensures InOrder(s)
    ensures forall i :: 0 <= i < |s| ==> sig.Order() <= s[i].Order()
  {
    if condition then [sig] + after else after
  }

  /** The risk-off signals, VIX before S&P 500; possibly none. */
  function RiskSignals(risk: RiskScore): (s: seq<Signal>)
    ensures |s| <= 2
    ensures s == [] <==> risk.vix.score <= SignalThreshold && risk.sp500Deviation.score <= SignalThreshold
    ensures VixRise(risk.vix.value) in s <==> risk.vix.score > SignalThreshold
    ensures Sp500Drop(risk.sp500Deviation.value) in s <==> risk.sp500Deviation.score > SignalThreshold
    ensures forall sig :: sig in s ==> sig == VixRise(risk.vix.value) || sig == Sp500Drop(risk.sp500Deviation.value)
    ensures InOrder(s)
    ensures forall i :: 0 <= i < |s| ==> VixRise(risk.vix.value).Order() <= s[i].Order()
  {
    var sp := FireBefore(risk.sp500Deviation.score > SignalThreshold, Sp500Drop(risk.sp500Deviation.value), []);
    FireBefore(risk.vix.score > SignalThreshold, VixRise(risk.vix.value), sp)
  }

  /** The rate-decline signal, then the risk-off ones; possibly none. */
  function DeclineAndRiskSignals(rateDecline: Detail, risk: RiskScore): (s: seq<Signal>)
    ensures |s| <= 3
    ensures s == [] <==>
              && rateDecline.score <= SignalThreshold
              && risk.vix.score <= SignalThreshold
              && risk.sp500Deviation.score <= SignalThreshold
    ensures SharpRateDecline(rateDecline.value) in s <==> rateDecline.score > SignalThreshold
    ensures VixRise(risk.vix.value) in s <==> risk.vix.score > SignalThreshold
    ensures Sp500Drop(risk.sp500Deviation.value) in s <==> risk.sp500Deviation.score > SignalThreshold
    ensures forall sig :: sig in s ==>
              sig == SharpRateDecline(rateDecline.value) || sig == VixRise(risk.vix.value) || sig == Sp500Drop(risk.sp500Deviation.value)
    ensures InOrder(s)
    ensures forall i :: 0 <= i < |s| ==> SharpRateDecline(rateDecline.value).Order() <= s[i].Order()
  {
    FireBefore(rateDecline.score > SignalThreshold, SharpRateDecline(rateDecline.value), RiskSignals(risk))
  }

  /** The signals whose sub-score is strictly above 60, in their fixed order; possibly none. */
  function FiredSignals(interest: InterestScore, risk: RiskScore): (s: seq<Signal>)
    ensures |s| <= 4
    ensures s == [] <==>
              && interest.treasury10y.score <= SignalThreshold
              && interest.rateDecline.score <= SignalThreshold
              && risk.vix.score <= SignalThreshold
              && risk.sp500Deviation.score <= SignalThreshold
    ensures LowTreasury10y(interest.treasury10y.value) in s <==> interest.treasury10y.score > SignalThreshold
    ensures SharpRateDecline(interest.rateDecline.value) in s <==> interest.rateDecline.score > SignalThreshold
    ensures VixRise(risk.vix.value) in s <==> risk.vix.score > SignalThreshold
    ensures Sp500Drop(risk.sp500Deviation.value) in s <==> risk.sp500Deviation.score > SignalThreshold
    ensures forall sig :: sig in s ==>
              || sig == LowTreasury10y(interest.treasury10y.value) || sig == SharpRateDecline(interest.rateDecline.value)
              || sig == VixRise(risk.vix.value) || sig == Sp500Drop(risk.sp500Deviation.value)
    ensures InOrder(s)
  {
    FireBefore(interest.treasury10y.score > SignalThreshold, LowTreasury10y(interest.treasury10y.value), DeclineAndRiskSignals(interest.rateDecline, risk))
  }

  /**
   * `_identify_signals`: one signal per sub-score strictly above 60, in the
   * order 10-year, rate decline, VIX, S&P 500; the placeholder alone when none
   * fires. The 30-year yield has no signal.
   */
  function IdentifySignals(interest: InterestScore, risk: RiskScore): (s: seq<Signal>)
    ensures 1 <= |s| <= 4
    ensures LowTreasury10y(interest.treasury10y.value) in s <==> interest.treasury10y.score > SignalThreshold
    ensures SharpRateDecline(interest.rateDecline.value) in s <==> interest.rateDecline.score > SignalThreshold
    ensures VixRise(risk.vix.value) in s <==> risk.vix.score > SignalThreshold
    ensures Sp500Drop(risk.sp500Deviation.value) in s <==> risk.sp500Deviation.score > SignalThreshold
    ensures s == [NoNotableChange] <==>
              && interest.treasury10y.score <= SignalThreshold
              && interest.rateDecline.score <= SignalThreshold
              && risk.vix.score <= SignalThreshold
              && risk.sp500Deviation.score <= SignalThreshold
    ensures NoNotableChange in s ==> s == [NoNotableChange]
    ensures forall sig :: sig in s ==>
              || sig == LowTreasury10y(interest.treasury10y.value) || sig == SharpRateDecline(interest.rateDecline.value)
              || sig == VixRise(risk.vix.value) || sig == Sp500Drop(risk.sp500Deviation.value) || sig == NoNotableChange
    ensures InOrder(s)
  {
    var fired := FiredSignals(interest, risk);
    if fired == [] then [NoNotableChange]
    else
      assert NoNotableChange in fired ==> NoNotableChange.Order() < 4;
      fired
  }

  // ---------------------------------------------------------------------------
  // calculate_score
  // ---------------------------------------------------------------------------

  /** The score after the boost and before the final rounding: what the status is decided on. */
  function BoostedScore(ind: Indicators): (b: real)
    ensures 0.0 <= b <= 100.0
    ensures Composite(InterestRateScore(ind).total, RiskOffScore(ind).total) <= b
    ensures b == ApplyBoost(Composite(InterestRateScore(ind).total, RiskOffScore(ind).total), BoostConditions(ind))
  {
    var interest := InterestRateScore(ind);
    var risk := RiskOffScore(ind);
    ApplyBoost(Composite(interest.total, risk.total), BoostConditions(ind))
  }

  /**
   * `calculate_score`. Never fails: an absent indicator only contributes a
   * zero sub-score. The status comes from the unrounded boosted score; only the
   * returned total is rounded.
   */
  function CalculateScore(ind: Indicators): (r: ScoreResult)
    ensures 0.0 <= r.totalScore <= 100.0
    ensures r.totalScore == Round1(BoostedScore(ind))
    ensures r.status == DetermineStatus(BoostedScore(ind))
    ensures r.interestRate == InterestRateScore(ind) && r.riskOff == RiskOffScore(ind)
    ensures r.boost == BoostConditions(ind)
    ensures r.signals == IdentifySignals(r.interestRate, r.riskOff)
    ensures r.rawIndicators == ind
  {
    var interest := InterestRateScore(ind);
    var risk := RiskOffScore(ind);
    var boost := BoostConditions(ind);
    var total := ApplyBoost(Composite(interest.total, risk.total), boost);
    ScoreResult(Round1(total), DetermineStatus(total), interest, risk, boost, IdentifySignals(interest, risk), ind)
  }

  // ---------------------------------------------------------------------------
  // Properties
  // ---------------------------------------------------------------------------

  /**
   * The 10-year sub-score never rises with the yield, and falls strictly
   * whenever the two yields are not both at or beyond the same clamp; the
   * rounded sub-score keeps the weak order.
   */
  lemma Treasury10yScoreDecreasing(y1: real, y2: real)
    requires y1 <= y2
    ensures Treasury10yScore(y2) <= Treasury10yScore(y1)
    ensures y1 < y2 && y1 < 6.0 && 2.0 < y2 ==> Treasury10yScore(y2) < Treasury10yScore(y1)
    ensures Treasury10yDetail(Some(y2)).score <= Treasury10yDetail(Some(y1)).score
  {
    Round1Monotone(Treasury10yScore(y2), Treasury10yScore(y1));
  }

  lemma Treasury30yScoreDecreasing(y1: real, y2: real)
    requires y1 <= y2
    ensures Treasury30yScore(y2) <= Treasury30yScore(y1)
    ensures y1 < y2 && y1 < 6.5 && 2.5 < y2 ==> Treasury30yScore(y2) < Treasury30yScore(y1)
    ensures Treasury30yDetail(Some(y2)).score <= Treasury30yDetail(Some(y1)).score
  {
    Round1Monotone(Treasury30yScore(y2), Treasury30yScore(y1));
  }

  /** The VIX sub-score never falls as VIX rises, and rises strictly inside (10, 30). */
  lemma VixScoreIncreasing(v1: real, v2: real)
    requires v1 <= v2
    ensures VixScore(v1) <= VixScore(v2)
    ensures v1 < v2 && v1 < 30.0 && 10.0 < v2 ==> VixScore(v1) < VixScore(v2)
    ensures VixDetail(Some(v1)).score <= VixDetail(Some(v2)).score
  {
    Round1Monotone(VixScore(v1), VixScore(v2));
  }

  /** Despite the threshold branches, the rate-decline sub-score never rises with the change. */
  lemma RateDeclineScoreDecreasing(c1: real, c2: real)
    requires c1 <= c2
    ensures RateDeclineScore(c2) <= RateDeclineScore(c1)
  {
  }

  lemma Sp500DeviationScoreDecreasing(d1: real, d2: real)
    requires d1 <= d2
    ensures Sp500DeviationScore(d2) <= Sp500DeviationScore(d1)
  {
  }

  /**
   * A fired rule raises a positive composite strictly, unless the raised score
   * reaches the cap of 100.
   */
  lemma BoostRaisesScore(ind: Indicators)
    requires BoostConditions(ind).applied
    requires var c := Composite(InterestRateScore(ind).total, RiskOffScore(ind).total);
             0.0 < c && c * BoostConditions(ind).multiplier < 100.0
    ensures Composite(InterestRateScore(ind).total, RiskOffScore(ind).total) < BoostedScore(ind)
  {
    var boost := BoostConditions(ind);
    assert 1.0 < boost.multiplier;
  }

  /** Both boost rules triggering give the larger multiplier, 1.20, never the product 1.15 * 1.20. */
  lemma BothRulesGiveLargerMultiplier(ind: Indicators)
    requires RateDeclineTriggered(ind) && VixSpikeTriggered(ind)
    ensures BoostConditions(ind).multiplier == VixSpikeBoost
    ensures BoostConditions(ind).multiplier != RateDeclineBoost * VixSpikeBoost
    ensures BoostConditions(ind).conditions == [RateDecline2w, VixSpikeAndSp500Drop]
  {
  }

  /** The tier never goes down when the score goes up. */
  lemma StatusMonotone(x: real, y: real)
    requires x <= y
    ensures DetermineStatus(x).Rank() <= DetermineStatus(y).Rank()
  {
  }

  /**
   * On the whole scores 0..100 the classification agrees with the tier table
   * `THRESHOLDS` read with both bounds: exactly the tier whose band holds it.
   */
  lemma StatusAgreesWithTableOnWholeScores(n: int, t: Status)
    requires 0 <= n <= 100
    ensures DetermineStatus(n as real) == t <==> t.Lower() <= n as real <= t.Upper()
  {
  }

  /**
   * Between the table's bands, where no (low, high) pair holds the score, the
   * classification still answers: 39.5 is a precursor score.
   */
  lemma StatusBetweenTableBands()
    ensures forall t: Status :: !(t.Lower() <= 39.5 <= t.Upper())
    ensures DetermineStatus(39.5) == Precursor
  {
    forall t: Status ensures !(t.Lower() <= 39.5 <= t.Upper()) {
      match t
      case Normal =>
      case Precursor =>
      case Alert =>
      case Imminent =>
    }
  }

  /** With every indicator absent the score is 0, the status normal, and nothing is boosted or signalled. */
  lemma NoIndicatorsScoreZero()
    ensures CalculateScore(NoIndicators).totalScore == 0.0
    ensures CalculateScore(NoIndicators).status == Normal
    ensures !CalculateScore(NoIndicators).boost.applied && CalculateScore(NoIndicators).boost.multiplier == 1.0
    ensures CalculateScore(NoIndicators).signals == [NoNotableChange]
  {
    Round1OfTenths(0);
  }

  /** A signal in the list carries the value of the detail that fired it, whose score is above the threshold. */
  lemma SignalCarriesItsDetail(interest: InterestScore, risk: RiskScore, sig: Signal)
    requires sig in IdentifySignals(interest, risk)
    ensures sig.LowTreasury10y? ==> sig.yieldPct == interest.treasury10y.value && interest.treasury10y.score > SignalThreshold
    ensures sig.SharpRateDecline? ==> sig.changePct == interest.rateDecline.value && interest.rateDecline.score > SignalThreshold
    ensures sig.VixRise? ==> sig.vix == risk.vix.value && risk.vix.score > SignalThreshold
    ensures sig.Sp500Drop? ==> sig.deviationPct == risk.sp500Deviation.value && risk.sp500Deviation.score > SignalThreshold
  {
    var signals := IdentifySignals(interest, risk);
    if sig.LowTreasury10y? {
      assert sig == LowTreasury10y(interest.treasury10y.value);
    } else if sig.SharpRateDecline? {
      assert sig == SharpRateDecline(interest.rateDecline.value);
    } else if sig.VixRise? {
      assert sig == VixRise(risk.vix.value);
    } else if sig.Sp500Drop? {
      assert sig == Sp500Drop(risk.sp500Deviation.value);
    }
  }

  /** With every sub-score above 60 all four signals appear, in their fixed order. */
  lemma AllSignalsFire(interest: InterestScore, risk: RiskScore)
    requires interest.treasury10y.score > SignalThreshold && interest.rateDecline.score > SignalThreshold
    requires risk.vix.score > SignalThreshold && risk.sp500Deviation.score > SignalThreshold
    ensures IdentifySignals(interest, risk) ==
              [LowTreasury10y(interest.treasury10y.value), SharpRateDecline(interest.rateDecline.value),
               VixRise(risk.vix.value), Sp500Drop(risk.sp500Deviation.value)]
  {
    assert RiskSignals(risk) == [VixRise(risk.vix.value), Sp500Drop(risk.sp500Deviation.value)];
  }

  /** Every signal in a result reports the value of an indicator that was present. */
  lemma SignalsReportPresentIndicators(ind: Indicators, i: nat)
    requires i < |CalculateScore(ind).signals|
    ensures var sig := CalculateScore(ind).signals[i];
            && (sig.LowTreasury10y? ==> ind.treasury10y.Some? && sig.yieldPct == ind.treasury10y)
            && (sig.SharpRateDecline? ==> ind.treasury10yChange.Some? && sig.changePct == Some(ind.treasury10yChange.value.changePct))
            && (sig.VixRise? ==> ind.vix.Some? && sig.vix == ind.vix)
            && (sig.Sp500Drop? ==> ind.sp500.Some? && sig.deviationPct == Some(ind.sp500.value.deviationPct))
  {
    var r := CalculateScore(ind);
    var sig := r.signals[i];
    assert sig in r.signals;
    SignalCarriesItsDetail(r.interestRate, r.riskOff, sig);
  }

  /** The signal list reads only the 10-year and rate-decline details of the interest-rate score. */
  lemma SignalsIgnoreTreasury30y(interest: InterestScore, other: InterestScore, risk: RiskScore)
    requires interest.treasury10y == other.treasury10y && interest.rateDecline == other.rateDecline
    ensures IdentifySignals(interest, risk) == IdentifySignals(other, risk)
  {
  }

  /** The 30-year yield never produces a signal: changing it leaves the signal list as it was. */
  lemma Treasury30yNeverSignals(ind: Indicators, other: Option<real>)
    ensures CalculateScore(ind.(treasury30y := other)).signals == CalculateScore(ind).signals
  {
    var moved := ind.(treasury30y := other);
    var interest, risk := InterestRateScore(ind), RiskOffScore(ind);
    assert RiskOffScore(moved) == risk;
    SignalsIgnoreTreasury30y(InterestRateScore(moved), interest, risk);
  }

  /**
   * The status is decided before the final rounding, so the returned score can
   * read as a normal 39.0 while the status is precursor: the composite here is
   * 0.4 * 0.5 + 0.6 * 64.7 = 39.02.
   */
  lemma StatusDecidedOnUnroundedScore()
    ensures var r := CalculateScore(Indicators(None, None, Some(15.88), Some(SP500(4000.0, 4444.4, -10.0)),
                                               Some(RateChange(4.0, 4.001, -0.0255, 2))));
            && r.totalScore == 39.0
            && r.status == Precursor
            && DetermineStatus(r.totalScore) == Normal
  {
    var ind := Indicators(None, None, Some(15.88), Some(SP500(4000.0, 4444.4, -10.0)), Some(RateChange(4.0, 4.001, -0.0255, 2)));
    assert RateDeclineDetail(ind.treasury10yChange).score == 1.7 by {
      assert RateDeclineScore(-0.0255) == 1.7;
      Round1OfTenths(17);
    }
    assert VixDetail(ind.vix).score == 29.4 by {
      assert VixScore(15.88) == 29.4;
      Round1OfTenths(294);
    }
    assert Sp500DeviationDetail(ind.sp500).score == 100.0 by { Round1OfTenths(1000); }
    assert Treasury10yDetail(None).score == 0.0 && Treasury30yDetail(None).score == 0.0;
    assert InterestRateScore(ind).total == Round1(0.51);
    assert Round1(0.51) == 0.5 by { assert (0.51 * 10.0 + 0.5).Floor == 5; }
    assert RiskOffScore(ind).total == 64.7 by { Round1OfTenths(647); }
    assert !BoostConditions(ind).applied;
    assert BoostedScore(ind) == 39.02;
    assert Round1(39.02) == 39.0 by { assert (39.02 * 10.0 + 0.5).Floor == 390; }
  }

  /** All five indicators at their extreme: every sub-score is 100, both rules fire, the cap holds the score at 100. */
  lemma ExampleAllExtreme()
    ensures var r := CalculateScore(Indicators(Some(2.0), Some(2.5), Some(30.0), Some(SP500(4000.0, 4444.4, -10.0)),
                                               Some(RateChange(2.0, 2.02, -1.0, 2))));
            && r.interestRate.total == 100.0 && r.riskOff.total == 100.0
            && r.boost.applied && r.boost.multiplier == 1.20
            && r.totalScore == 100.0 && r.status == Imminent
            && r.signals == [LowTreasury10y(Some(2.0)), SharpRateDecline(Some(-1.0)), VixRise(Some(30.0)), Sp500Drop(Some(-10.0))]
  {
    var ind := Indicators(Some(2.0), Some(2.5), Some(30.0), Some(SP500(4000.0, 4444.4, -10.0)), Some(RateChange(2.0, 2.02, -1.0, 2)));
    Round1OfTenths(1000);
    assert Treasury10yDetail(ind.treasury10y).score == 100.0;
    assert Treasury30yDetail(ind.treasury30y).score == 100.0;
    assert RateDeclineDetail(ind.treasury10yChange).score == 100.0;
    assert VixDetail(ind.vix).score == 100.0;
    assert Sp500DeviationDetail(ind.sp500).score == 100.0;
    assert InterestRateScore(ind).total == 100.0;
    assert RiskOffScore(ind).total == 100.0;
    assert BoostConditions(ind).multiplier == 1.20;
    assert BoostedScore(ind) == 100.0;
    AllSignalsFire(InterestRateScore(ind), RiskOffScore(ind));
  }

  /** Indicators at their baselines: 50, 50, 0, 25 and 0 give 35.0 and 12.5, hence 21.5 and a normal status. */
  lemma ExampleBaseline()
    ensures var r := CalculateScore(Indicators(Some(4.0), Some(4.5), Some(15.0), Some(SP500(4500.0, 4500.0, 0.0)),
                                               Some(RateChange(4.0, 4.0, 0.0, 2))));
            && r.interestRate.total == 35.0 && r.riskOff.total == 12.5
            && !r.boost.applied
            && r.totalScore == 21.5 && r.status == Normal
            && r.signals == [NoNotableChange]
  {
    var ind := Indicators(Some(4.0), Some(4.5), Some(15.0), Some(SP500(4500.0, 4500.0, 0.0)), Some(RateChange(4.0, 4.0, 0.0, 2)));
    assert Treasury10yDetail(ind.treasury10y).score == 50.0 by { Round1OfTenths(500); }
    assert Treasury30yDetail(ind.treasury30y).score == 50.0 by { Round1OfTenths(500); }
    assert RateDeclineDetail(ind.treasury10yChange).score == 0.0 by { Round1OfTenths(0); }
    assert VixDetail(ind.vix).score == 25.0 by { Round1OfTenths(250); }
    assert Sp500DeviationDetail(ind.sp500).score == 0.0 by { Round1OfTenths(0); }
    assert InterestRateScore(ind).total == 35.0 by { Round1OfTenths(350); }
    assert RiskOffScore(ind).total == 12.5 by { Round1OfTenths(125); }
    assert !BoostConditions(ind).applied;
    assert BoostedScore(ind) == 21.5;
    Round1OfTenths(215);
  }

  /**
   * Strong rate signals with VIX and the S&P 500 missing: the risk-off total is
   * 0, only rule A fires, and the boosted score is a precursor one.
   */
  lemma ExampleRatesOnly()
    ensures var r := CalculateScore(Indicators(Some(2.5), Some(3.0), None, None, Some(RateChange(2.5, 2.54, -1.5, 2))));
            && r.riskOff.total == 0.0
            && 91.2 <= r.interestRate.total <= 91.3
            && r.boost == Boost(true, 1.15, [RateDecline2w])
            && r.status == Precursor
  {
    var ind := Indicators(Some(2.5), Some(3.0), None, None, Some(RateChange(2.5, 2.54, -1.5, 2)));
    assert Treasury10yDetail(ind.treasury10y).score == 87.5 by { Round1OfTenths(875); }
    assert Treasury30yDetail(ind.treasury30y).score == 87.5 by { Round1OfTenths(875); }
    assert RateDeclineDetail(ind.treasury10yChange).score == 100.0 by { Round1OfTenths(1000); }
    assert 91.2 <= InterestRateScore(ind).total <= 91.3;
    assert RiskOffScore(ind).total == 0.0 by { Round1OfTenths(0); }
    assert BoostConditions(ind) == Boost(true, 1.15, [RateDecline2w]);
  }
}
