/** `POST /api/test/scheduled-notification`: clamps the requested delay,
    acknowledges at once, and later sends one payload of type 3. The timer
    itself is not modelled; the payload the timer sends is, with the clock
    readings taken when it fires given as parameters. */
module ScheduledNotification {
  import opened Wrappers
  import JsText
  import opened FcmService

  const DefaultDelaySeconds: int := 5
  const DefaultTitle: string := "Scheduled Test"
  const DefaultDescription: string := "This notification was delayed"
  const MinDelaySeconds: int := 1
  const MaxDelaySeconds: int := 60

  /** `Math.max(1, Math.min(60, delaySeconds))`. */
  function ClampDelay(seconds: int): (delay: int)
    ensures MinDelaySeconds <= delay <= MaxDelaySeconds
    ensures MinDelaySeconds <= seconds <= MaxDelaySeconds ==> delay == seconds
    ensures seconds < MinDelaySeconds ==> delay == MinDelaySeconds
    ensures seconds > MaxDelaySeconds ==> delay == MaxDelaySeconds
  {
    var upper := if seconds < MaxDelaySeconds then seconds else MaxDelaySeconds;
    if upper > MinDelaySeconds then upper else MinDelaySeconds
  }

  /** Clamping is monotone and clamping twice changes nothing. */
  lemma ClampDelayMonotoneIdempotent(a: int, b: int)
    requires a <= b
    ensures ClampDelay(a) <= ClampDelay(b)
    ensures ClampDelay(ClampDelay(a)) == ClampDelay(a)
  {
  }

  datatype ScheduleReply =
    | MissingToken
    | Scheduled(message: string, delay: int, token: string, deferred: Payload)
  {
    function Status(): int {
      if MissingToken? then 400 else 200
    }
  }

  /** The handler. `firedAt`, `firedTime` and `firedStamp` are `Date.now()`,
      the locale time string and the ISO date read when the timer fires. */
  function ScheduleNotification(token: Option<string>, delaySeconds: Option<int>,
                                title: Option<string>, description: Option<string>,
                                firedAt: int, firedTime: string, firedStamp: string): (r: ScheduleReply)
    ensures r.MissingToken? <==> !JsText.Truthy(token)
    ensures r.MissingToken? ==> r.Status() == 400
    ensures r.Scheduled? ==>
      && r.Status() == 200
      && r.delay == ClampDelay(delaySeconds.GetOr(DefaultDelaySeconds))
      && MinDelaySeconds <= r.delay <= MaxDelaySeconds
      && r.message == "Notification scheduled to be sent in " + JsText.NumberToString(r.delay) + " seconds"
      && r.token == token.value
      && r.deferred.token == token.value
      && r.deferred.id == firedAt
      && r.deferred.notificationType == 3
      && r.deferred.title == title.GetOr(DefaultTitle)
      && r.deferred.description == description.GetOr(DefaultDescription) + " (sent at " + firedTime + ")"
      && !r.deferred.read
      && r.deferred.issuedDate == firedStamp
  {
    if !JsText.Truthy(token) then MissingToken
    else
      var delay := ClampDelay(delaySeconds.GetOr(DefaultDelaySeconds));
      Scheduled(
        "Notification scheduled to be sent in " + JsText.NumberToString(delay) + " seconds",
        delay,
        token.value,
        Payload(token.value, firedAt, 3, title.GetOr(DefaultTitle),
                description.GetOr(DefaultDescription) + " (sent at " + firedTime + ")",
                false, firedStamp))
  }
}
