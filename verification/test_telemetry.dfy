/**
 Client scenarios for the telemetry model: what a caller can conclude from the
 contracts of TelemetryClient alone, mirroring tests/test_telemetry.py.
 */
module TelemetryScenarios {
  import opened Telemetry

  /** A custom sender whose every call raises. */
  function RaisingSender(): Sender<string> {
    (url: string, payload: Payload<string>, callNumber: nat) => Raised
  }

  /** A custom sender that raises on its first call only (a passing network
      error) and returns on every later call. */
  function RaisingOnceSender(): Sender<string> {
    (url: string, payload: Payload<string>, callNumber: nat) =>
      if callNumber == 0 then Raised else Returned
  }

  /** Log one event with data and flush it through a sender that returns: one
      event is queued, the flush reports one, the queue is empty again, and the
      single sender call carried the destination, a non-empty session id and the
      event's name and data. */
  method LogAndFlush(now: real, generatedId: string)
    returns (queuedBefore: nat, sent: FlushResult, queuedAfter: nat,
             ghost url: string, ghost sessionId: string, ghost firstName: string,
             ghost firstData: map<string, string>)
    requires generatedId != []
    ensures queuedBefore == 1 && sent == Sent(1) && queuedAfter == 0
    ensures url == "https://example.com/telemetry" && sessionId != []
    ensures firstName == "start" && firstData == map["user" := "Bob"]
  {
    var client := new TelemetryClient<string>("https://example.com/telemetry", None,
                                              Some(DefaultSender()), generatedId);
    client.LogEvent("start", now, Some(map["user" := "Bob"]));
    queuedBefore := |client.queue|;
    sent := client.Flush();
    queuedAfter := |client.queue|;
    assert |client.calls| == 1;
    ghost var call := client.calls[0];
    url, sessionId := call.url, call.payload.sessionId;
    firstName, firstData := call.payload.events[0].name, call.payload.events[0].data;
  }

  /** Two flushes with nothing logged between them: the second reports 0 and
      makes no further sender call; an explicit session id is used unchanged. */
  method FlushTwice(now: real, generatedId: string)
    returns (first: FlushResult, second: FlushResult, callCount: nat, ghost sessionId: string)
    requires generatedId != []
    ensures first == Sent(2) && second == Sent(0) && callCount == 1
    ensures sessionId == "session-42"
  {
    var client := new TelemetryClient<string>("https://example.com/telemetry", Some("session-42"),
                                              None, generatedId);
    client.LogEvent("a", now, None);
    client.LogEvent("b", now, Some(map[]));
    first := client.Flush();
    second := client.Flush();
    callCount := client.callCount;
    sessionId := client.calls[0].payload.sessionId;
  }

  /** Logging without data stores the empty map. */
  method LogWithoutData(now: real, generatedId: string) returns (data: map<string, string>)
    requires generatedId != []
    ensures data == map[]
  {
    var client := new TelemetryClient<string>("https://example.com/telemetry", None, None, generatedId);
    client.LogEvent("a", now, None);
    data := client.queue[0].data;
  }

  /** A custom sender that raises: the exception escapes flush, the sender was
      called once, and the event is still queued for the next flush. */
  method RaisingSenderKeepsQueue(now: real, generatedId: string)
    returns (sent: FlushResult, callCount: nat, queuedAfter: nat)
    requires generatedId != []
    ensures sent == SenderRaised && callCount == 1 && queuedAfter == 1
  {
    var client := new TelemetryClient<string>("https://example.com/telemetry", None,
                                              Some(RaisingSender()), generatedId);
    client.LogEvent("start", now, None);
    sent := client.Flush();
    callCount := client.callCount;
    queuedAfter := |client.queue|;
  }

  /** A sender that raises once and then returns: the kept event goes out with
      the next flush, which reports it and empties the queue, so the same batch
      was handed to the sender twice and flushed once. */
  method RetryAfterRaise(now: real, generatedId: string)
    returns (first: FlushResult, second: FlushResult, queuedAfter: nat,
             ghost firstBatch: seq<Event<string>>, ghost secondBatch: seq<Event<string>>)
    requires generatedId != []
    ensures first == SenderRaised && second == Sent(1) && queuedAfter == 0
    ensures firstBatch == secondBatch == [Event("start", now, map[])]
  {
    var client := new TelemetryClient<string>("https://example.com/telemetry", None,
                                              Some(RaisingOnceSender()), generatedId);
    client.LogEvent("start", now, None);
    first := client.Flush();
    second := client.Flush();
    queuedAfter := |client.queue|;
    firstBatch, secondBatch := client.calls[0].payload.events, client.calls[1].payload.events;
  }
}
