/** `POST /api/test/bulk-send`: one notification per token, sent one after the
    other in input order; each outcome is filed under `results` or `errors` and
    the reply reports the counts. */
module BulkSend {
  import opened Wrappers
  import JsText
  import opened FcmService

  const DefaultTitle: string := "Bulk Test"
  const DefaultDescription: string := "Bulk notification test"

  datatype SuccessRecord = SuccessRecord(token: string, response: string)
  datatype ErrorRecord = ErrorRecord(token: string, error: string)

  datatype BulkReply =
    | MissingTokens
    | Completed(total: nat, successful: nat, failed: nat, results: seq<SuccessRecord>, errors: seq<ErrorRecord>)
  {
    function Status(): int {
      if MissingTokens? then 400 else 200
    }
  }

  /** The text that precedes the counter in the i-th description. */
  function CounterPrefix(description: string): string {
    description + " - Message "
  }

  /** The payload built for token `i` of the batch. `clock(i)` and `stamp(i)`
      are `Date.now()` and the ISO date read during iteration `i`. */
  function BulkPayload(tokens: seq<string>, i: nat, title: string, description: string,
                       clock: nat -> int, stamp: nat -> string): (p: Payload)
    requires i < |tokens|
    ensures p.token == tokens[i] && p.id == clock(i) + i
    ensures p.notificationType == 2 && !p.read && p.issuedDate == stamp(i)
    ensures p.title == title + " (" + JsText.NumberToString(i + 1) + "/" + JsText.NumberToString(|tokens|) + ")"
    ensures p.description == CounterPrefix(description) + JsText.NumberToString(i + 1)
  {
    Payload(tokens[i], clock(i) + i, 2,
            title + " (" + JsText.NumberToString(i + 1) + "/" + JsText.NumberToString(|tokens|) + ")",
            CounterPrefix(description) + JsText.NumberToString(i + 1),
            false, stamp(i))
  }

  /** The i-th description carries its one-based position, which reads back. */
  lemma BulkCounterRoundTrip(tokens: seq<string>, i: nat, title: string, description: string,
                             clock: nat -> int, stamp: nat -> string)
    requires i < |tokens|
    ensures var d := BulkPayload(tokens, i, title, description, clock, stamp).description;
      && |CounterPrefix(description)| <= |d|
      && d[..|CounterPrefix(description)|] == CounterPrefix(description)
      && JsText.ParseInteger(d[|CounterPrefix(description)|..]) == Some(i + 1)
  {
    var d := BulkPayload(tokens, i, title, description, clock, stamp).description;
    assert d[|CounterPrefix(description)|..] == JsText.NumberToString(i + 1);
    JsText.NumberToStringRoundTrip(i + 1);
  }

  /** Two iterations never build the same message, so a provider that is a
      function of the message can still answer each call independently. */
  lemma BulkMessagesDistinct(tokens: seq<string>, i: nat, j: nat, title: string, description: string,
                             clock: nat -> int, stamp: nat -> string)
    requires i < |tokens| && j < |tokens| && i != j
    ensures DeviceMessage(BulkPayload(tokens, i, title, description, clock, stamp))
         != DeviceMessage(BulkPayload(tokens, j, title, description, clock, stamp))
  {
    BulkCounterRoundTrip(tokens, i, title, description, clock, stamp);
    BulkCounterRoundTrip(tokens, j, title, description, clock, stamp);
  }

  /** With a clock that never runs backwards, ids strictly increase along the batch. */
  lemma BulkIdsIncrease(tokens: seq<string>, i: nat, j: nat, title: string, description: string,
                        clock: nat -> int, stamp: nat -> string)
    requires i < j < |tokens|
    requires clock(i) <= clock(j)
    ensures BulkPayload(tokens, i, title, description, clock, stamp).id
          < BulkPayload(tokens, j, title, description, clock, stamp).id
  {
  }

  /** One send of the loop: the token and what the provider made of it. */
  datatype Attempt = Attempt(token: string, outcome: Outcome)

  /** The payloads of a whole batch, in send order; the reference for what
      the handler hands to `sendNotification`. */
  function BulkPayloads(tokens: seq<string>, title: string, description: string,
                        clock: nat -> int, stamp: nat -> string): (ps: seq<Payload>)
    ensures |ps| == |tokens|
  {
    seq(|tokens|, i requires 0 <= i < |tokens| => BulkPayload(tokens, i, title, description, clock, stamp))
  }

  /** One batch sends one message per token, each addressed to its token,
      and no two alike. */
  lemma BulkMessagesOnePerToken(tokens: seq<string>, title: string, description: string,
                                clock: nat -> int, stamp: nat -> string)
    ensures var ps := BulkPayloads(tokens, title, description, clock, stamp);
      && |ps| == |tokens|
      && (forall i :: 0 <= i < |ps| ==> DeviceMessage(ps[i]).target == Device(tokens[i]))
      && (forall i, j :: 0 <= i < j < |ps| ==> DeviceMessage(ps[i]) != DeviceMessage(ps[j]))
  {
    var ps := BulkPayloads(tokens, title, description, clock, stamp);
    forall i, j | 0 <= i < j < |ps|
      ensures DeviceMessage(ps[i]) != DeviceMessage(ps[j])
    {
      BulkMessagesDistinct(tokens, i, j, title, description, clock, stamp);
    }
  }

  /** Pairs each token with the outcome of sending its payload. */
  function Attempts(tokens: seq<string>, payloads: seq<Payload>, provider: Provider): (a: seq<Attempt>)
    requires |payloads| == |tokens|
    ensures |a| == |tokens|
  {
    seq(|tokens|, i requires 0 <= i < |tokens| => Attempt(tokens[i], SendNotification(payloads[i], provider)))
  }

  /** The `results` entries of a run of attempts, in order. */
  function Successes(attempts: seq<Attempt>): seq<SuccessRecord> {
    if |attempts| == 0 then []
    else
      var last := attempts[|attempts| - 1];
      Successes(attempts[..|attempts| - 1])
        + (if last.outcome.Sent? then [SuccessRecord(last.token, last.outcome.response)] else [])
  }

  /** The `errors` entries of a run of attempts, in order. */
  function Failures(attempts: seq<Attempt>): seq<ErrorRecord> {
    if |attempts| == 0 then []
    else
      var last := attempts[|attempts| - 1];
      Failures(attempts[..|attempts| - 1])
        + (if last.outcome.Failed? then [ErrorRecord(last.token, last.outcome.error.message)] else [])
  }

  /** The positions, in increasing order, of attempts that succeeded (`succeeded`)
      or failed (`!succeeded`). */
  function Positions(attempts: seq<Attempt>, succeeded: bool): seq<nat> {
    if |attempts| == 0 then []
    else
      Positions(attempts[..|attempts| - 1], succeeded)
        + (if attempts[|attempts| - 1].outcome.Sent? == succeeded then [|attempts| - 1] else [])
  }

  /** Every attempt is filed exactly once: the two lists together are as long
      as the batch. */
  lemma {:induction false} PartitionCounts(attempts: seq<Attempt>)
    ensures |Successes(attempts)| + |Failures(attempts)| == |attempts|
  {
    if |attempts| > 0 {
      PartitionCounts(attempts[..|attempts| - 1]);
    }
  }

  /** `Positions(attempts, succeeded)` lists, in strictly increasing order, exactly
      the positions whose outcome is a success (`succeeded`) or a failure (`!succeeded`). */
  lemma {:induction false} PositionsCharacterised(attempts: seq<Attempt>, succeeded: bool)
    ensures forall k :: 0 <= k < |Positions(attempts, succeeded)| ==> Positions(attempts, succeeded)[k] < |attempts|
    ensures forall k, l :: 0 <= k < l < |Positions(attempts, succeeded)| ==>
      Positions(attempts, succeeded)[k] < Positions(attempts, succeeded)[l]
    ensures forall i :: 0 <= i < |attempts| ==> (i in Positions(attempts, succeeded) <==> attempts[i].outcome.Sent? == succeeded)
  {
    if |attempts| > 0 {
      var init := attempts[..|attempts| - 1];
      PositionsCharacterised(init, succeeded);
      assert forall i :: 0 <= i < |init| ==> init[i] == attempts[i];
    }
  }

  /** Each token lands in exactly one of the two lists. */
  lemma {:induction false} ExactlyOneList(attempts: seq<Attempt>, i: nat)
    requires i < |attempts|
    ensures (i in Positions(attempts, true)) != (i in Positions(attempts, false))
  {
    PositionsCharacterised(attempts, true);
    PositionsCharacterised(attempts, false);
  }

  /** `results` is the successful attempts in input order. */
  lemma {:induction false} SuccessesInInputOrder(attempts: seq<Attempt>)
    ensures |Successes(attempts)| == |Positions(attempts, true)|
    ensures forall k :: 0 <= k < |Successes(attempts)| ==>
      var i := Positions(attempts, true)[k];
      i < |attempts| && attempts[i].outcome.Sent?
      && Successes(attempts)[k] == SuccessRecord(attempts[i].token, attempts[i].outcome.response)
  {
    PositionsCharacterised(attempts, true);
    if |attempts| > 0 {
      var init := attempts[..|attempts| - 1];
      SuccessesInInputOrder(init);
      assert forall i :: 0 <= i < |init| ==> init[i] == attempts[i];
    }
  }

  /** `errors` is the failed attempts in input order, each with the provider
      error's message. */
  lemma {:induction false} FailuresInInputOrder(attempts: seq<Attempt>)
    ensures |Failures(attempts)| == |Positions(attempts, false)|
    ensures forall k :: 0 <= k < |Failures(attempts)| ==>
      var i := Positions(attempts, false)[k];
      i < |attempts| && attempts[i].outcome.Failed?
      && Failures(attempts)[k] == ErrorRecord(attempts[i].token, attempts[i].outcome.error.message)
  {
    PositionsCharacterised(attempts, false);
    if |attempts| > 0 {
      var init := attempts[..|attempts| - 1];
      FailuresInInputOrder(init);
      assert forall i :: 0 <= i < |init| ==> init[i] == attempts[i];
    }
  }

  /** Filing one more attempt appends it to exactly one of the two lists. */
  lemma FileNext(before: seq<Attempt>, a: Attempt)
    ensures Successes(before + [a]) == Successes(before)
      + (if a.outcome.Sent? then [SuccessRecord(a.token, a.outcome.response)] else [])
    ensures Failures(before + [a]) == Failures(before)
      + (if a.outcome.Failed? then [ErrorRecord(a.token, a.outcome.error.message)] else [])
  {
    assert (before + [a])[..|before|] == before;
  }

  /** Sending one more payload extends the attempts by that send's outcome. */
  lemma AttemptsGrow(ts: seq<string>, sent: seq<Payload>, payload: Payload, provider: Provider)
    requires |sent| < |ts|
    ensures Attempts(ts[..|sent| + 1], sent + [payload], provider)
         == Attempts(ts[..|sent|], sent, provider) + [Attempt(ts[|sent|], SendNotification(payload, provider))]
  {
    var n := |sent|;
    var longer := Attempts(ts[..n + 1], sent + [payload], provider);
    var shorter := Attempts(ts[..n], sent, provider);
    forall k | 0 <= k < n
      ensures longer[k] == shorter[k]
    {
      assert (sent + [payload])[k] == sent[k];
    }
  }

  /** The batch's payloads up to `i` are those before it plus the i-th. */
  lemma BulkPayloadsGrow(ts: seq<string>, i: nat, t: string, d: string, clock: nat -> int, stamp: nat -> string)
    requires i < |ts|
    ensures BulkPayloads(ts, t, d, clock, stamp)[..i + 1]
         == BulkPayloads(ts, t, d, clock, stamp)[..i] + [BulkPayload(ts, i, t, d, clock, stamp)]
  {
  }

  /** One send of the loop: hands `payload` to `sendNotification` for the
      next token and files the outcome under `results` if the send succeeded
      and under `errors` if not. */
  method SendNext(ts: seq<string>, sent: seq<Payload>, payload: Payload, provider: Provider,
                  results: seq<SuccessRecord>, errors: seq<ErrorRecord>)
    returns (results': seq<SuccessRecord>, errors': seq<ErrorRecord>)
    requires |sent| < |ts|
    requires results == Successes(Attempts(ts[..|sent|], sent, provider))
    requires errors == Failures(Attempts(ts[..|sent|], sent, provider))
    ensures results' == Successes(Attempts(ts[..|sent| + 1], sent + [payload], provider))
    ensures errors' == Failures(Attempts(ts[..|sent| + 1], sent + [payload], provider))
  {
    var outcome := SendNotification(payload, provider);
    AttemptsGrow(ts, sent, payload, provider);
    FileNext(Attempts(ts[..|sent|], sent, provider), Attempt(ts[|sent|], outcome));
    if outcome.Sent? {
      results', errors' := results + [SuccessRecord(ts[|sent|], outcome.response)], errors;
    } else {
      results', errors' := results, errors + [ErrorRecord(ts[|sent|], outcome.error.message)];
    }
  }

  /** The loop of the handler: every token in turn, never stopping at a
      failure. `sent` is the sequence of payloads handed to
      `sendNotification`, in call order. */
  method SendAll(ts: seq<string>, t: string, d: string,
                 clock: nat -> int, stamp: nat -> string, provider: Provider)
    returns (results: seq<SuccessRecord>, errors: seq<ErrorRecord>, sent: seq<Payload>)
    ensures sent == BulkPayloads(ts, t, d, clock, stamp)
    ensures results == Successes(Attempts(ts, sent, provider))
    ensures errors == Failures(Attempts(ts, sent, provider))
  {
    results, errors, sent := [], [], [];
    for i := 0 to |ts|
      invariant sent == BulkPayloads(ts, t, d, clock, stamp)[..i]
      invariant results == Successes(Attempts(ts[..i], sent, provider))
      invariant errors == Failures(Attempts(ts[..i], sent, provider))
    {
      var payload := BulkPayload(ts, i, t, d, clock, stamp);
      BulkPayloadsGrow(ts, i, t, d, clock, stamp);
      results, errors := SendNext(ts, sent, payload, provider, results, errors);
      sent := sent + [payload];
    }
    assert ts[..|ts|] == ts;
  }

  /** The route handler: rejects a missing or empty token list before any
      send, otherwise sends to every token and reports the counts. */
  method BulkSend(tokens: Option<seq<string>>, title: Option<string>, description: Option<string>,
                  clock: nat -> int, stamp: nat -> string, provider: Provider)
    returns (reply: BulkReply, sent: seq<Payload>)
    ensures reply.MissingTokens? <==> tokens.None? || |tokens.value| == 0
    ensures reply.MissingTokens? ==> reply.Status() == 400 && sent == []
    ensures reply.Completed? ==>
      var ts := tokens.value;
      && sent == BulkPayloads(ts, title.GetOr(DefaultTitle), description.GetOr(DefaultDescription), clock, stamp)
      && reply.total == |ts|
      && reply.successful == |reply.results| && reply.failed == |reply.errors|
      && reply.successful + reply.failed == reply.total
      && reply.results == Successes(Attempts(ts, sent, provider))
      && reply.errors == Failures(Attempts(ts, sent, provider))
  {
    if tokens.None? || |tokens.value| == 0 {
      return MissingTokens, [];
    }
    var ts := tokens.value;
    var t := title.GetOr(DefaultTitle);
    var d := description.GetOr(DefaultDescription);
    var results, errors;
    results, errors, sent := SendAll(ts, t, d, clock, stamp, provider);
    PartitionCounts(Attempts(ts, sent, provider));
    reply := Completed(|ts|, |results|, |errors|, results, errors);
  }
}
