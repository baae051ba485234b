/** The shared delivery step of the HTTP platform adapters: one POST, then
    the response classified as a success or a failure. The transport itself
    is not modelled: what the POST returns, or the exception raised while
    the request was built or sent, is an input. */
module HttpAdapters {
  import opened Php
  import opened Foreign
  import opened Responses

  /** Request timeouts, in seconds. */
  const Timeout := 10
  const ConnectTimeout := 5

  /** What the POST gave: a response with its status, body and decoded JSON
      (`$response->json()`, null when the body is not JSON), or the message
      of an exception. */
  datatype HttpOutcome =
    | HttpResponse(status: nat, body: string, json: Value)
    | HttpThrown(message: string)

  /** `successful()`: a 2xx status. */
  predicate Successful(status: nat) {
    200 <= status < 300
  }

  /** The decoded JSON as the `?array $rawResponse` argument: a decoded
      scalar breaks the parameter type, an `\Error` no `catch (\Exception)`
      intercepts. */
  function RawOf(json: Value): (r: Result<Option<Value>>)
    ensures r.Ok? <==> json == VNull || json.IsArray()
    ensures r.Ok? && r.value.Some? ==> r.value.value == json && json.IsArray()
    ensures r.Ok? && r.value.None? ==> json == VNull
    ensures r.Err? ==> !r.error.IsException()
  {
    if json == VNull then Ok(None)
    else if json.IsArray() then Ok(Some(json))
    else Err(TypeError("rawResponse"))
  }

  /** What one delivery returns and what it logs. */
  datatype Delivery = Delivery(response: Result<PlatformResponse>, logs: seq<LogLine>)

  /** `AbstractHttpPlatformAdapter::sendEvent`: a 2xx response is a success
      carrying the JSON; any other status a failure "HTTP {status}: {body}"
      carrying the JSON; an exception a failure with its message. */
  function Classify(outcome: HttpOutcome, now: int): (d: Delivery)
    ensures d.response.Ok? ==> d.response.value.WellFormed() && d.response.value.sentAt == now
    ensures outcome.HttpThrown? ==>
      d == Delivery(Ok(Failure(outcome.message, None, now)), [LogLine(ErrorLevel, "Platform adapter error")])
    ensures outcome.HttpResponse? && Successful(outcome.status) && RawOf(outcome.json).Ok? ==>
      d == Delivery(Ok(Success(RawOf(outcome.json).value, now)), [])
    ensures outcome.HttpResponse? && !Successful(outcome.status) && RawOf(outcome.json).Ok? ==>
      d.response == Ok(Failure("HTTP " + NatStr(outcome.status) + ": " + outcome.body,
                               RawOf(outcome.json).value, now))
    ensures d.response.Err? ==> outcome.HttpResponse? && RawOf(outcome.json).Err?
  {
    match outcome
    case HttpThrown(message) =>
      Delivery(Ok(Failure(message, None, now)), [LogLine(ErrorLevel, "Platform adapter error")])
    case HttpResponse(status, body, json) =>
      if Successful(status) then
        match RawOf(json)
        case Err(e) => Delivery(Err(e), [])
        case Ok(raw) => Delivery(Ok(Success(raw, now)), [])
      else
        var logs := [LogLine(Warning, "Platform API error")];
        match RawOf(json)
        case Err(e) => Delivery(Err(e), logs)
        case Ok(raw) => Delivery(Ok(Failure("HTTP " + NatStr(status) + ": " + body, raw, now)), logs)
  }

  /** `GooglePlatformAdapter::sendEvent`: a 2xx response is a success with
      no raw body; any other a failure "Google Analytics error: {body}". */
  function ClassifyGoogle(outcome: HttpOutcome, now: int): (d: Delivery)
    ensures d.response.Ok? ==> d.response.value.WellFormed() && d.response.value.sentAt == now
    ensures outcome.HttpThrown? ==>
      d == Delivery(Ok(Failure(outcome.message, None, now)), [LogLine(ErrorLevel, "Google Analytics 4 Exception")])
    ensures outcome.HttpResponse? && Successful(outcome.status) ==>
      d == Delivery(Ok(Success(None, now)), [])
    ensures outcome.HttpResponse? && !Successful(outcome.status) && RawOf(outcome.json).Ok? ==>
      d.response == Ok(Failure("Google Analytics error: " + outcome.body, RawOf(outcome.json).value, now))
    ensures d.response.Err? ==> outcome.HttpResponse? && !Successful(outcome.status) && RawOf(outcome.json).Err?
  {
    match outcome
    case HttpThrown(message) =>
      Delivery(Ok(Failure(message, None, now)), [LogLine(ErrorLevel, "Google Analytics 4 Exception")])
    case HttpResponse(status, body, json) =>
      if Successful(status) then Delivery(Ok(Success(None, now)), [])
      else
        var logs := [LogLine(Warning, "Google Analytics 4 Event Error")];
        match RawOf(json)
        case Err(e) => Delivery(Err(e), logs)
        case Ok(raw) => Delivery(Ok(Failure("Google Analytics error: " + body, raw, now)), logs)
  }

  /** The response is a success exactly for a 2xx status, for both
      classifications; an exception is never propagated. */
  lemma SuccessIffTwoHundred(outcome: HttpOutcome, now: int)
    ensures Classify(outcome, now).response.Ok? ==>
      (Classify(outcome, now).response.value.IsSuccess() <==> outcome.HttpResponse? && Successful(outcome.status))
    ensures ClassifyGoogle(outcome, now).response.Ok? ==>
      (ClassifyGoogle(outcome, now).response.value.IsSuccess() <==> outcome.HttpResponse? && Successful(outcome.status))
    ensures outcome.HttpThrown? ==> Classify(outcome, now).response.Ok? && ClassifyGoogle(outcome, now).response.Ok?
  {
  }

  /** A non-JSON body, such as the empty 204 reply, leaves no raw response. */
  lemma EmptyBodyNoRaw(status: nat, body: string, now: int)
    ensures Classify(HttpResponse(status, body, VNull), now).response.Ok?
    ensures Classify(HttpResponse(status, body, VNull), now).response.value.rawResponse.None?
  {
  }

  /** A decoded scalar, such as the body "1", breaks the response's
      parameter type on the abstract adapter's either branch. */
  lemma ScalarJsonEscapes(status: nat, now: int)
    ensures Classify(HttpResponse(status, "1", VInt(1)), now).response == Err(TypeError("rawResponse"))
  {
  }
}
