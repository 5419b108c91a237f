/**
 * The decision rules of `POST /start-broadcast`: validation in a fixed order,
 * default resolution, and the scheduled-time rule. The scheduled text is
 * converted from Moscow time by a time-zone library. The model takes that
 * instant, and the two readings of the server clock, as integer milliseconds.
 */
module Intake {
  import opened Wrappers
  import opened Js
  import opened Dispatch

  /** The request body of `/start-broadcast`. A missing field is None. */
  datatype StartRequest = StartRequest(
    messageText: Option<string>,
    imageUrl: Option<string>,
    buttons: Option<seq<Button>>,
    reportChatId: Option<string>,
    webhookUrl: Option<string>,
    reportIntervalMinutes: Option<int>,
    scheduledTime: Option<string>,
    testUsers: seq<User>,
    delay: Option<int>)

  /**
   * The clock inputs of one request: the instant the scheduled text names
   * (after the time-zone conversion), and the reading of the clock at the
   * past-time check and at the delay computation.
   */
  datatype Clock = Clock(scheduledAt: int, checkedAt: int, diffedAt: int)

  datatype Rejection = MissingMessageText | InvalidApiKey | ScheduledInPast

  datatype Decision = Rejected(reason: Rejection) | Accepted(data: JobData, delayMs: Option<int>)

  /** The HTTP status of a rejection. */
  function Status(reason: Rejection): int {
    match reason
    case InvalidApiKey => 403
    case _ => 400
  }

  /**
   * The job data: every optional field replaced by its default when falsy.
   * The interval is 1 minute, the buttons [], the delay 1 second, and the
   * image, report chat and webhook null. The user count is the estimate
   * obtained at intake.
   */
  function Resolve(req: StartRequest, userCount: Option<int>): JobData
    requires TruthyText(req.messageText)
  {
    JobData(
      messageText := req.messageText.value,
      imageUrl := TextOrNull(req.imageUrl),
      buttons := if req.buttons.Some? then req.buttons.value else [],
      estimatedUserCount := userCount,
      reportChatId := TextOrNull(req.reportChatId),
      webhookUrl := TextOrNull(req.webhookUrl),
      reportIntervalMinutes := NumberOr(req.reportIntervalMinutes, 1),
      delay := NumberOr(req.delay, 1),
      testUsers := req.testUsers)
  }

  /**
   * The outcome of one request. The checks run in order: a missing text
   * (400), then a wrong API key (403), then a scheduled time in the past
   * (400). An accepted job with a scheduled time is delayed by
   * scheduled - now.
   */
  function Decide(req: StartRequest, apiKey: Option<string>, configuredKey: string,
                  userCount: Option<int>, clock: Clock): (d: Decision)
    ensures d == Rejected(MissingMessageText) <==> !TruthyText(req.messageText)
    ensures d == Rejected(InvalidApiKey) <==> TruthyText(req.messageText) && apiKey != Some(configuredKey)
    ensures d == Rejected(ScheduledInPast) <==>
      && TruthyText(req.messageText) && apiKey == Some(configuredKey)
      && TruthyText(req.scheduledTime) && clock.scheduledAt < clock.checkedAt
    ensures d.Accepted? ==>
      && d.data == Resolve(req, userCount)
      && d.delayMs == (if TruthyText(req.scheduledTime) then Some(clock.scheduledAt - clock.diffedAt) else None)
  {
    if !TruthyText(req.messageText) then Rejected(MissingMessageText)
    else if apiKey != Some(configuredKey) then Rejected(InvalidApiKey)
    else if TruthyText(req.scheduledTime) && clock.scheduledAt < clock.checkedAt then Rejected(ScheduledInPast)
    else Accepted(Resolve(req, userCount), if TruthyText(req.scheduledTime) then Some(clock.scheduledAt - clock.diffedAt) else None)
  }

  /**
   * A request is accepted exactly when it has a text, the right key, and no
   * scheduled time before now.
   */
  lemma AcceptedIff(req: StartRequest, apiKey: Option<string>, configuredKey: string,
                    userCount: Option<int>, clock: Clock)
    ensures Decide(req, apiKey, configuredKey, userCount, clock).Accepted? <==>
      && TruthyText(req.messageText) && apiKey == Some(configuredKey)
      && (TruthyText(req.scheduledTime) ==> clock.scheduledAt >= clock.checkedAt)
  {
    var d := Decide(req, apiKey, configuredKey, userCount, clock);
    if d.Rejected? {
      assert d == Rejected(d.reason);
    }
  }

  /** A missing text is rejected with 400 whatever API key comes with it. */
  lemma MissingTextBeforeKey(req: StartRequest, key1: Option<string>, key2: Option<string>,
                             configuredKey: string, userCount: Option<int>, clock: Clock)
    requires !TruthyText(req.messageText)
    ensures Decide(req, key1, configuredKey, userCount, clock) == Decide(req, key2, configuredKey, userCount, clock)
    ensures Status(Decide(req, key1, configuredKey, userCount, clock).reason) == 400
  {
  }

  /**
   * The job delay is never negative when the clock reads the same at the
   * check and at the subtraction. Otherwise it is short by at most the time
   * between the two readings.
   */
  lemma ScheduledDelayNonNegative(req: StartRequest, apiKey: Option<string>, configuredKey: string,
                                  userCount: Option<int>, clock: Clock)
    requires TruthyText(req.scheduledTime)
    requires Decide(req, apiKey, configuredKey, userCount, clock).Accepted?
    ensures var d := Decide(req, apiKey, configuredKey, userCount, clock);
      && d.delayMs.Some?
      && d.delayMs.value >= clock.checkedAt - clock.diffedAt
      && (clock.checkedAt == clock.diffedAt ==> d.delayMs.value >= 0)
  {
  }

  /**
   * Accepted jobs always carry a truthy delay, so the dispatcher pauses
   * `delay * 1000` ms between batches and never falls back to its own default.
   */
  lemma AcceptedPause(req: StartRequest, apiKey: Option<string>, configuredKey: string,
                      userCount: Option<int>, clock: Clock)
    requires Decide(req, apiKey, configuredKey, userCount, clock).Accepted?
    ensures var data := Decide(req, apiKey, configuredKey, userCount, clock).data;
      data.delay != 0 && PauseMs(data.delay) == data.delay * 1000
  {
  }

  /**
   * The status a caller sees: 403 exactly for a request with a text but the
   * wrong key, 400 exactly for a missing text or, past both checks, a
   * scheduled time before now.
   */
  lemma RejectionStatus(req: StartRequest, apiKey: Option<string>, configuredKey: string,
                        userCount: Option<int>, clock: Clock)
    ensures var d := Decide(req, apiKey, configuredKey, userCount, clock);
      && (d.Rejected? && Status(d.reason) == 403 <==> TruthyText(req.messageText) && apiKey != Some(configuredKey))
      && (d.Rejected? && Status(d.reason) == 400 <==>
            || !TruthyText(req.messageText)
            || (apiKey == Some(configuredKey) && TruthyText(req.scheduledTime) && clock.scheduledAt < clock.checkedAt))
  {
  }

  /** A request that gives only a text gets every default. */
  lemma ResolveDefaults(req: StartRequest, userCount: Option<int>)
    requires TruthyText(req.messageText)
    requires req.imageUrl == None && req.buttons == None && req.reportChatId == None && req.webhookUrl == None
    requires req.reportIntervalMinutes == None && req.delay == None
    ensures Resolve(req, userCount) ==
      JobData(req.messageText.value, None, [], userCount, None, None, 1, 1, req.testUsers)
  {
  }

  /** A request that gives every field with a truthy value keeps them all. */
  lemma ResolveKeepsGiven(req: StartRequest, userCount: Option<int>)
    requires TruthyText(req.messageText)
    requires TruthyText(req.imageUrl) && req.buttons.Some? && TruthyText(req.reportChatId) && TruthyText(req.webhookUrl)
    requires TruthyNumber(req.reportIntervalMinutes) && TruthyNumber(req.delay)
    ensures Resolve(req, userCount) ==
      JobData(req.messageText.value, req.imageUrl, req.buttons.value, userCount, req.reportChatId,
              req.webhookUrl, req.reportIntervalMinutes.value, req.delay.value, req.testUsers)
  {
  }

  /**
   * No resolved field is falsy but present: the image, the report chat and
   * the webhook are null or a non-empty text, and the delay is never 0.
   */
  lemma ResolvedNeverFalsy(req: StartRequest, userCount: Option<int>)
    requires TruthyText(req.messageText)
    ensures var data := Resolve(req, userCount);
      && (data.imageUrl == None || TruthyText(data.imageUrl))
      && (data.reportChatId == None || TruthyText(data.reportChatId))
      && (data.webhookUrl == None || TruthyText(data.webhookUrl))
      && data.delay != 0 && data.messageText != []
  {
  }
}
