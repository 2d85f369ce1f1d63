/**
 * The Slack notifier: whether it is enabled, when a status-change
 * notification is sent or skipped, and what the two kinds of message say
 * (score difference, trend, previous status, boost line, signals). The HTTP
 * POST is a parameter: `delivered` is whether the webhook accepted the
 * message.
 */
module Notify {
  import opened Wrappers
  import opened Text
  import opened Scoring

  // ---------------------------------------------------------------------------
  // The webhook URL and the `enabled` flag
  // ---------------------------------------------------------------------------

  /** Python's truthiness of an optional string: present and non-empty. */
  predicate Truthy(s: Option<string>) {
    s.Some? && s.value != ""
  }

  /** `webhook_url or os.environ.get('SLACK_WEBHOOK_URL')`. */
  function ChosenUrl(argument: Option<string>, environment: Option<string>): (url: Option<string>)
    ensures Truthy(argument) ==> url == argument
    ensures !Truthy(argument) ==> url == environment
    ensures Truthy(url) <==> Truthy(argument) || Truthy(environment)
  {
    if Truthy(argument) then argument else environment
  }

  // ---------------------------------------------------------------------------
  // Trend and score baselines
  // ---------------------------------------------------------------------------

  /** The direction of a score difference. */
  datatype Trend = Up | Down | NoChange

  /** "up" for a positive difference, "down" for a negative one, "no change" for zero. */
  function TrendOf(diff: real): (t: Trend)
    ensures t == Up <==> 0.0 < diff
    ensures t == Down <==> diff < 0.0
    ensures t == NoChange <==> diff == 0.0
  {
    if diff > 0.0 then Up
    else if diff < 0.0 then Down
    else NoChange
  }

  /** Swapping the two scores turns the trend around. */
  lemma TrendReverses(a: real, b: real)
    ensures TrendOf(a - b) == Up <==> TrendOf(b - a) == Down
    ensures TrendOf(a - b) == NoChange <==> TrendOf(b - a) == NoChange
  {
  }

  /** `previous['total_score'] if previous else default`. */
  function PreviousScore(previous: Option<ScoreResult>, default: real): (s: real)
    ensures previous.Some? ==> s == previous.value.totalScore
    ensures previous.None? ==> s == default
  {
    match previous
    case Some(p) => p.totalScore
    case None => default
  }

  /** `signals[:n]`: the first `n` signals, or all of them when there are fewer. */
  function FirstSignals(signals: seq<Signal>, n: nat): (r: seq<Signal>)
    ensures r <= signals
    ensures |r| == if |signals| < n then |signals| else n
  {
    if |signals| < n then signals else signals[..n]
  }

  // ---------------------------------------------------------------------------
  // The status-change message
  // ---------------------------------------------------------------------------

  /** `previous['status']['level'] if previous else 'unknown'`. */
  function PreviousLevel(previous: Option<ScoreResult>): (level: string)
    ensures previous.Some? ==> level == previous.value.status.Level()
    ensures previous.None? ==> forall s: Status :: level != s.Level()
  {
    match previous
    case Some(p) => p.status.Level()
    case None => "unknown"
  }

  /** Different tiers have different level names. */
  lemma LevelsDiffer(s: Status, t: Status)
    ensures s.Level() == t.Level() <==> s == t
  {
    if s != t {
      assert |s.Level()| != |t.Level()|;
    }
  }

  /**
   * The skip rule of `send_status_change_notification`: skipped when the
   * level equals the previous level and there is a previous result.
   */
  predicate StatusChangeSkipped(current: ScoreResult, previous: Option<ScoreResult>) {
    current.status.Level() == PreviousLevel(previous) && previous.Some?
  }

  /**
   * A status-change notification is skipped exactly when there is a previous
   * result with the same tier: a first run always notifies.
   */
  lemma SkippedExactlyOnSameStatus(current: ScoreResult, previous: Option<ScoreResult>)
    ensures StatusChangeSkipped(current, previous) <==> previous.Some? && previous.value.status == current.status
    ensures previous.None? ==> !StatusChangeSkipped(current, previous)
  {
    if previous.Some? {
      LevelsDiffer(current.status, previous.value.status);
    }
  }

  /** The decision fields of the status-change message. */
  datatype StatusChangeMessage = StatusChangeMessage(
    status: Status,
    score: real,
    scoreDiff: real,
    trend: Trend,
    previousStatus: Option<Status>,
    signals: seq<Signal>,
    dashboardUrl: string)

  /**
   * `_build_status_change_message`: the difference against the previous score,
   * or against 0 on a first run, its trend, the previous tier if any, and the
   * first three signals.
   */
  function BuildStatusChangeMessage(current: ScoreResult, previous: Option<ScoreResult>, dashboardUrl: string)
    : (m: StatusChangeMessage)
    ensures m.status == current.status && m.score == current.totalScore && m.dashboardUrl == dashboardUrl
    ensures previous.Some? ==> m.scoreDiff == current.totalScore - previous.value.totalScore
    ensures previous.None? ==> m.scoreDiff == current.totalScore
    ensures m.trend == Up <==> 0.0 < m.scoreDiff
    ensures m.trend == Down <==> m.scoreDiff < 0.0
    ensures m.previousStatus.Some? <==> previous.Some?
    ensures previous.Some? ==> m.previousStatus == Some(previous.value.status)
    ensures m.signals <= current.signals
    ensures |m.signals| == if |current.signals| < 3 then |current.signals| else 3
  {
    var diff := current.totalScore - PreviousScore(previous, 0.0);
    StatusChangeMessage(
      current.status,
      current.totalScore,
      diff,
      TrendOf(diff),
      match previous case Some(p) => Some(p.status) case None => None,
      FirstSignals(current.signals, 3),
      dashboardUrl)
  }

  /**
   * What `send_status_change_notification` hands to the webhook: nothing when
   * the notifier is disabled or the tier did not change, the message otherwise.
   */
  function StatusChangePost(enabled: bool, current: ScoreResult, previous: Option<ScoreResult>, dashboardUrl: string)
    : (post: Option<StatusChangeMessage>)
    ensures post.Some? <==> enabled && !(previous.Some? && previous.value.status == current.status)
    ensures post.Some? ==> post.value == BuildStatusChangeMessage(current, previous, dashboardUrl)
  {
    SkippedExactlyOnSameStatus(current, previous);
    if !enabled || StatusChangeSkipped(current, previous) then None
    else Some(BuildStatusChangeMessage(current, previous, dashboardUrl))
  }

  // ---------------------------------------------------------------------------
  // The daily summary
  // ---------------------------------------------------------------------------

  /** The separator between boost conditions. */
  const ConditionSeparator: char := '、'

  /** The start of the boost line. */
  const BoostPrefix: string := "\n⚡ "

  /** The labels of the boost conditions, in their stored order. */
  function ConditionLabels(conditions: seq<BoostRule>): (labels: seq<string>)
    ensures |labels| == |conditions|
    ensures forall i :: 0 <= i < |labels| ==> labels[i] == conditions[i].Label()
  {
    if |conditions| == 0 then [] else [conditions[0].Label()] + ConditionLabels(conditions[1..])
  }

  /** The boost line: empty without a boost, else the conditions joined by the separator. */
  function BoostText(boost: Boost): (t: string)
    ensures t == "" <==> !boost.applied
    ensures boost.applied ==> t == BoostPrefix + Join(ConditionLabels(boost.conditions), [ConditionSeparator])
  {
    if boost.applied then BoostPrefix + Join(ConditionLabels(boost.conditions), [ConditionSeparator]) else ""
  }

  /** No label holds the separator. */
  lemma LabelsAvoidSeparator(r: BoostRule)
    ensures ConditionSeparator !in r.Label()
  {
  }

  /**
   * The boost line of an applied boost lists its conditions in order: cutting
   * the prefix and splitting on the separator gives their labels back.
   */
  lemma BoostTextListsConditions(boost: Boost)
    requires boost.applied && |boost.conditions| > 0
    ensures |BoostText(boost)| >= |BoostPrefix|
    ensures BoostText(boost)[..|BoostPrefix|] == BoostPrefix
    ensures Split(BoostText(boost)[|BoostPrefix|..], ConditionSeparator) == ConditionLabels(boost.conditions)
  {
    var labels := ConditionLabels(boost.conditions);
    forall i | 0 <= i < |labels| ensures ConditionSeparator !in labels[i] {
      LabelsAvoidSeparator(boost.conditions[i]);
    }
    SplitJoin(labels, ConditionSeparator);
    var t := BoostText(boost);
    assert t[|BoostPrefix|..] == Join(labels, [ConditionSeparator]);
  }

  /** The decision fields of the daily summary. */
  datatype DailySummaryMessage = DailySummaryMessage(
    status: Status,
    score: real,
    scoreDiff: real,
    trend: Trend,
    interestRate: real,
    riskOff: real,
    boostText: string,
    signals: seq<Signal>,
    dashboardUrl: string)

  /**
   * `_build_daily_summary_message`: the difference against the previous score,
   * or against the score itself on a first run, its trend, both category
   * totals, the boost line and the first four signals.
   */
  function BuildDailySummaryMessage(result: ScoreResult, previous: Option<ScoreResult>, dashboardUrl: string)
    : (m: DailySummaryMessage)
    ensures m.status == result.status && m.score == result.totalScore && m.dashboardUrl == dashboardUrl
    ensures previous.Some? ==> m.scoreDiff == result.totalScore - previous.value.totalScore
    ensures previous.None? ==> m.scoreDiff == 0.0 && m.trend == NoChange
    ensures m.trend == Up <==> 0.0 < m.scoreDiff
    ensures m.trend == Down <==> m.scoreDiff < 0.0
    ensures m.interestRate == result.interestRate.total && m.riskOff == result.riskOff.total
    ensures m.boostText == BoostText(result.boost)
    ensures m.boostText != "" <==> result.boost.applied
    ensures m.signals <= result.signals
    ensures |m.signals| == if |result.signals| < 4 then |result.signals| else 4
  {
    var diff := result.totalScore - PreviousScore(previous, result.totalScore);
    DailySummaryMessage(
      result.status,
      result.totalScore,
      diff,
      TrendOf(diff),
      result.interestRate.total,
      result.riskOff.total,
      BoostText(result.boost),
      FirstSignals(result.signals, 4),
      dashboardUrl)
  }

  /** What `send_daily_summary` hands to the webhook: the summary whenever the notifier is enabled. */
  function DailySummaryPost(enabled: bool, result: ScoreResult, previous: Option<ScoreResult>, dashboardUrl: string)
    : (post: Option<DailySummaryMessage>)
    ensures post.Some? <==> enabled
    ensures post.Some? ==> post.value == BuildDailySummaryMessage(result, previous, dashboardUrl)
  {
    if enabled then Some(BuildDailySummaryMessage(result, previous, dashboardUrl)) else None
  }

  // ---------------------------------------------------------------------------
  // Properties across the two messages and the scorer
  // ---------------------------------------------------------------------------

  /**
   * On a first run the two messages use different baselines: the status change
   * reports the whole score as a rise (unless it is 0), the summary reports no change.
   */
  lemma FirstRunBaselines(ind: Indicators, dashboardUrl: string)
    ensures var r := CalculateScore(ind);
            && BuildStatusChangeMessage(r, None, dashboardUrl).scoreDiff == r.totalScore
            && (BuildStatusChangeMessage(r, None, dashboardUrl).trend == Up <==> r.totalScore != 0.0)
            && BuildStatusChangeMessage(r, None, dashboardUrl).trend != Down
            && BuildDailySummaryMessage(r, None, dashboardUrl).trend == NoChange
  {
    var r := CalculateScore(ind);
    assert 0.0 <= r.totalScore;
  }

  /** A scored result has at most four signals, so the daily summary shows all of them. */
  lemma DailySummaryShowsAllSignals(r: ScoreResult, previous: Option<ScoreResult>, dashboardUrl: string)
    requires r.signals == IdentifySignals(r.interestRate, r.riskOff)
    ensures BuildDailySummaryMessage(r, previous, dashboardUrl).signals == r.signals
  {
    var m := BuildDailySummaryMessage(r, previous, dashboardUrl);
    assert |r.signals| <= 4;
    assert m.signals == r.signals[..|m.signals|];
  }

  /**
   * The status-change message of a scored result drops a signal only when all
   * four fired, and then it is the S&P 500 one.
   */
  lemma StatusChangeDropsOnlySp500(r: ScoreResult, previous: Option<ScoreResult>, dashboardUrl: string)
    requires r.signals == IdentifySignals(r.interestRate, r.riskOff)
    ensures var m := BuildStatusChangeMessage(r, previous, dashboardUrl);
            m.signals != r.signals ==> |r.signals| == 4 && r.signals == m.signals + [r.signals[3]] && r.signals[3].Sp500Drop?
  {
    var m := BuildStatusChangeMessage(r, previous, dashboardUrl);
    var s := r.signals;
    if m.signals != s {
      assert |s| == 4;
      assert m.signals == s[..3];
      assert s == s[..3] + [s[3]];
      assert s[0].Order() < s[1].Order() < s[2].Order() < s[3].Order();
      assert s[3] in s;
    }
  }

  // ---------------------------------------------------------------------------
  // The notifier
  // ---------------------------------------------------------------------------

  /** `SlackNotifier`: a webhook URL and whether notifications are enabled. */
  class SlackNotifier {
    var webhookUrl: Option<string>
    var enabled: bool

    /** Enabled exactly when there is a non-empty webhook URL. */
    predicate Valid()
      reads this
    {
      enabled <==> Truthy(webhookUrl)
    }

    /**
     * `__init__`: the URL passed in, or when that is absent or empty the one in
     * the environment; enabled exactly when the chosen URL is non-empty.
     */
    constructor (argument: Option<string>, environment: Option<string>)
      ensures Valid()
      ensures webhookUrl == ChosenUrl(argument, environment)
      ensures enabled <==> Truthy(argument) || Truthy(environment)
    {
      webhookUrl := ChosenUrl(argument, environment);
      enabled := Truthy(ChosenUrl(argument, environment));
    }

    /**
     * `send_status_change_notification`: `posted` is what goes to the webhook,
     * and the result is whether it was sent and accepted.
     */
    method SendStatusChangeNotification(current: ScoreResult, previous: Option<ScoreResult>, dashboardUrl: string,
                                        delivered: bool)
      returns (sent: bool, posted: Option<StatusChangeMessage>)
      requires Valid()
      ensures posted.Some? ==> Truthy(webhookUrl)
      ensures posted == StatusChangePost(enabled, current, previous, dashboardUrl)
      ensures !enabled ==> !sent && posted.None?
      ensures sent <==> posted.Some? && delivered
    {
      if !enabled {
        return false, None;
      }
      var currentLevel := current.status.Level();
      var previousLevel := PreviousLevel(previous);
      if currentLevel == previousLevel && previous.Some? {
        return false, None;
      }
      var message := BuildStatusChangeMessage(current, previous, dashboardUrl);
      sent, posted := SendToSlack(message, delivered);
    }

    /** `send_daily_summary`: no skip rule; sent whenever enabled and accepted. */
    method SendDailySummary(result: ScoreResult, previous: Option<ScoreResult>, dashboardUrl: string, delivered: bool)
      returns (sent: bool, posted: Option<DailySummaryMessage>)
      requires Valid()
      ensures posted.Some? ==> Truthy(webhookUrl)
      ensures posted == DailySummaryPost(enabled, result, previous, dashboardUrl)
      ensures enabled ==> posted.Some?
      ensures sent <==> enabled && delivered
    {
      if !enabled {
        return false, None;
      }
      var message := BuildDailySummaryMessage(result, previous, dashboardUrl);
      sent, posted := SendToSlack(message, delivered);
    }

    /**
     * `_send_to_slack`: posts nothing when disabled; otherwise the outcome is
     * `delivered`. A message only ever goes to a non-empty webhook URL.
     */
    method SendToSlack<M>(message: M, delivered: bool) returns (sent: bool, posted: Option<M>)
      requires Valid()
      ensures posted.Some? ==> Truthy(webhookUrl)
      ensures posted == (if enabled then Some(message) else None)
      ensures sent <==> enabled && delivered
    {
      if !enabled {
        return false, None;
      }
      return delivered, Some(message);
    }
  }
}
