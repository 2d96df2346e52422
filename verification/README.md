# Telemetry client model

A Dafny model of `TelemetryClient` in `rbxtelemetry/telemetry.py`. The client collects named
events with timestamps and free-form data in an in-memory queue. On `flush` it hands the whole
queue to an injected sender as one payload `{session_id, events}`, addressed to its server URL.

The model is the class `Telemetry.TelemetryClient<V>` in `telemetry.dfy`. `V` is the abstract
type of the values in an event's data map. Its fields mirror the Python instance:

- `serverUrl`
- `sessionId`
- `sender`: the injected capability. It is a function from the destination, the payload and
  the call number (how many calls this client has made to it before) to `Returned | Raised`. The
  call number stands for whatever state a custom sender keeps across this client's calls, so it
  can raise on one flush and return on the next.
- `queue`: a `seq<Event<V>>`

One more field, `callCount`, counts the calls this client has made to its sender. The Python
client has no such field. It is the part of the sender's state that the model passes to the
sender as the call number.

Two ghost fields record what the program does:

- `calls`: every sender call, with its destination, payload and outcome. This is what the
  recording sender in `tests/test_telemetry.py` sees.
- `logged`: every event ever logged, in order.

The invariant `Valid()` says five things:

- The session id is never empty.
- `callCount` is the number of recorded calls.
- Every sender call went to this client's URL with a non-empty batch of this session.
- The i-th recorded call ended as the sender decides for this client's i-th call.
- Every logged event is either still queued or was flushed exactly once, in logging order:
  `Flushed(calls) + queue == logged`.

`test_telemetry.dfy` (module `TelemetryScenarios`) replays the repository's test and some
further scenarios as client methods. Their results follow from the class contracts alone.

Inputs that are not computed by the program are parameters:

- the timestamp from `time.time()` is a `real` argument of `LogEvent`;
- the `uuid4` string is the constructor argument `generatedId`, required to be non-empty;
- the sender's behaviour is the `sender` function.

`flush` clears the queue only after the sender returns (`rbxtelemetry/telemetry.py:75-77`). An
exception from a custom sender escapes `flush` with the queue intact. The model reports
`SenderRaised` in that case and keeps the queue.

## Model

| member | source | states |
|---|---|---|
| `Telemetry.TelemetryClient.constructor` | rbxtelemetry/telemetry.py:34-44 | stores the URL; the session id is the supplied one or the generated one; the sender is the supplied one or the default; queue and call log start empty; the invariant holds |
| `Telemetry.SessionIdFor` | rbxtelemetry/telemetry.py:42 | the session id is never empty; it is the supplied id when that is non-empty, otherwise the generated one |
| `Telemetry.SenderFor` | rbxtelemetry/telemetry.py:43 | the client's sender is the supplied one when one is given |
| `Telemetry.SenderForNoneNeverRaises` | rbxtelemetry/telemetry.py:43 | with no sender supplied, the client uses the default sender, and no call of it raises (it swallows every failure) |
| `Telemetry.TelemetryClient.LogEvent` | rbxtelemetry/telemetry.py:46-61 | the queue is the old queue plus exactly one new event at the end, with the given name, timestamp and data; URL, session id, sender and call log are unchanged; the invariant is kept |
| `Telemetry.EventData` | rbxtelemetry/telemetry.py:59 | the stored data equals the supplied map, including an empty one; with no data it is the empty map |
| `Telemetry.TelemetryClient.Flush` | rbxtelemetry/telemetry.py:63-78 | empty queue: returns 0, no sender call, queue stays empty. Otherwise: exactly one sender call, with the URL, the payload (session id, pre-flush queue in order) and the call number. `callCount` grows by one. If the sender returns, the result is the pre-flush length and the queue is empty. If it raises, the result is `SenderRaised` and the queue is unchanged. URL and session id are unchanged; the invariant is kept |
| `Telemetry.FlushedAppend` | rbxtelemetry/telemetry.py:74-77 | one more sender call adds its batch to the flushed events exactly when the sender returned |
| `Telemetry.FlushedWhenNoneRaised` | rbxtelemetry/telemetry.py:75-77 | if no sender call raised, the flushed events are exactly the events ever handed to the sender |
| `Telemetry.FlushedAtMostAttempted` | rbxtelemetry/telemetry.py:75-77 | never more events are flushed than were handed to the sender |
| `Telemetry.ExactlyOnceWithDefaultSender` | rbxtelemetry/telemetry.py:43-92 | a client built without a sender uses the default one, which swallows every failure; each logged event was handed to it exactly once, in logging order, or is still queued |
| `Telemetry.ExactlyOnceWithoutRaising` | rbxtelemetry/telemetry.py:71-92 | with a sender that never raises (such as the default one, which swallows every failure), each logged event was handed to the sender exactly once, in logging order, or is still queued |
| `TelemetryScenarios.LogAndFlush` | tests/test_telemetry.py:4-23 | after logging "start" with {"user": "Bob"}, one event is queued; flush reports 1 and empties the queue; the one sender call carries the URL, a non-empty session id, the event name and the data |
| `TelemetryScenarios.FlushTwice` | rbxtelemetry/telemetry.py:71-78 | a second flush with nothing logged in between reports 0 and makes no further sender call; an explicitly supplied session id is the one sent |
| `TelemetryScenarios.LogWithoutData` | rbxtelemetry/telemetry.py:56-61 | an event logged without data stores the empty map |
| `TelemetryScenarios.RaisingSenderKeepsQueue` | rbxtelemetry/telemetry.py:75-78 | when the custom sender raises, flush reports no count, the sender was called once, and the event stays queued |
| `TelemetryScenarios.RetryAfterRaise` | rbxtelemetry/telemetry.py:71-78 | with a sender that raises once and then returns, the first flush reports no count; the second hands over the same batch, reports 1 and empties the queue |

## Left out

- `_default_sender` (`rbxtelemetry/telemetry.py:80-92`): its HTTP POST with a 5-second timeout
  is not modelled. What the client can observe of it is modelled: it always returns
  (`Telemetry.DefaultSender`).
- Sender state: a custom sender's outcome is a function of the URL, the payload and the call
  number. A sender whose outcome depends on any other state is not modelled. An example is a
  sender that reads a global flag which the application changes between flushes.
- Shared senders: the call number counts only this client's calls. A sender shared by several
  clients, or also called outside `flush`, is not modelled.
- The exception raised by a custom sender: only the fact that it escapes is modelled, as
  `SenderRaised`. Its type and value are not.
- Telemetry.TelemetryClient.Flush: the count is taken after the sender call, from the same list
  the sender was given (`rbxtelemetry/telemetry.py:74-76`). The model returns the pre-flush queue
  length, because its sender is a function that cannot mutate the payload or call back into the
  client. Several Python cases are therefore not modelled:
  - A sender that shortens or extends `payload["events"]` changes the count Python returns.
  - A sender that calls `log_event` during the call appends to the list it was handed. Flush
    then counts that event, and line 77 drops it without it reaching a later flush.
  - A sender that keeps the list after raising sees later appends.
  - `log_event` stores a non-empty `data` dict by reference (line 59). A caller who mutates the
    dict later changes the queued event. Here events are immutable values.
- `uuid.uuid4()`: the generated id is a parameter. Uniqueness across clients is not modelled.
- `time.time()`: the timestamp is an opaque `real` parameter. Clock values are not reasoned about.
- Event data values (`Any`) are an abstract type `V`. JSON serialisation is not modelled.
- Thread safety: the code has none. The model assumes a single caller.
- Reassignment of the public attributes `server_url` and `session_id` by callers is not
  modelled. No method of the client changes them.
