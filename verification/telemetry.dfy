/**
 A model of the telemetry client: an in-memory queue of events that is handed,
 as one batch, to an injected sender whenever the client is flushed.

 The wall clock, the random session-id generator and the network are not part
 of the model: timestamps and generated ids are parameters, and the sender is a
 capability given to the client whose every call is recorded.
 */
module Telemetry {

  datatype Option<+T> = None | Some(value: T)

  /** One queued occurrence: its name, when it happened and free-form metadata. */
  datatype Event<V> = Event(name: string, timestamp: real, data: map<string, V>)

  /** The batch handed to the sender on a flush. */
  datatype Payload<V> = Payload(sessionId: string, events: seq<Event<V>>)

  /** How a call to the sender ended: it returned normally, or it raised. */
  datatype SendOutcome = Returned | Raised

  /** The sender capability: given the destination, the payload and the number of
      calls this client has made to it before this one, it transmits (effects not
      modelled) and either returns or raises. The call number stands for whatever
      state the sender keeps across this client's calls, so a sender may raise on
      one flush and return on the next. */
  type Sender<!V> = (string, Payload<V>, nat) -> SendOutcome

  /** One recorded call of the sender. */
  datatype SenderCall<V> = SenderCall(url: string, payload: Payload<V>, outcome: SendOutcome)

  /** What flush reports: the number of events handed to a sender that returned,
      or that the sender's exception escaped the call. */
  datatype FlushResult = Sent(count: nat) | SenderRaised

  /** The default sender posts the payload and swallows every failure, so to the
      client it always returns. */
  function DefaultSender<V>(): Sender<V> {
    (url: string, payload: Payload<V>, callNumber: nat) => Returned
  }

  /** The supplied sender, or the default one when none is given. */
  function SenderFor<V>(sender: Option<Sender<V>>): (s: Sender<V>)
    ensures sender.Some? ==> s == sender.value
  {
    if sender.None? then DefaultSender() else sender.value
  }

  /** A client built without a sender never sees a sender call raise. */
  lemma SenderForNoneNeverRaises<V>(sender: Option<Sender<V>>)
    requires sender.None?
    ensures forall url, payload, callNumber :: SenderFor(sender)(url, payload, callNumber) == Returned
  {
  }

  /** The session id is the supplied one unless it is absent or empty (falsy),
      in which case it is the generated one; either way it is never empty. */
  function SessionIdFor(supplied: Option<string>, generated: string): (id: string)
    requires generated != []
    ensures id != []
    ensures supplied.Some? && supplied.value != [] ==> id == supplied.value
    ensures supplied.None? || supplied.value == [] ==> id == generated
  {
    if supplied.None? || supplied.value == [] then generated else supplied.value
  }

  /** The data stored with an event: an absent or falsy (empty) map is replaced
      by a fresh empty map, so the stored data is always the supplied map, or the
      empty map when none was supplied. */
  function EventData<V>(data: Option<map<string, V>>): (d: map<string, V>)
    ensures data.Some? ==> d == data.value
    ensures data.None? ==> d == map[]
  {
    if data.None? || data.value == map[] then map[] else data.value
  }

  /** The events taken off the queue by the recorded flushes: the batches of the
      calls whose sender returned, in call order. */
  ghost function Flushed<V>(calls: seq<SenderCall<V>>): seq<Event<V>> {
    if calls == [] then []
    else (if calls[0].outcome == Returned then calls[0].payload.events else [])
         + Flushed(calls[1..])
  }

  /** Every event ever handed to the sender, in call order, whatever the outcome. */
  ghost function Attempted<V>(calls: seq<SenderCall<V>>): seq<Event<V>> {
    if calls == [] then [] else calls[0].payload.events + Attempted(calls[1..])
  }

  /** Recording one more call extends the flushed events by that call's batch
      exactly when the sender returned. */
  lemma {:induction false} FlushedAppend<V>(calls: seq<SenderCall<V>>, call: SenderCall<V>)
    ensures Flushed(calls + [call])
         == Flushed(calls) + (if call.outcome == Returned then call.payload.events else [])
  {
    if calls == [] {
      assert calls + [call] == [call];
      assert [call][1..] == [];
    } else {
      assert (calls + [call])[1..] == calls[1..] + [call];
      FlushedAppend(calls[1..], call);
    }
  }

  /** When no sender call raised, every event handed to the sender was flushed,
      so no batch was ever handed over twice. */
  lemma {:induction false} FlushedWhenNoneRaised<V>(calls: seq<SenderCall<V>>)
    requires forall i :: 0 <= i < |calls| ==> calls[i].outcome == Returned
    ensures Flushed(calls) == Attempted(calls)
  {
    if calls != [] {
      FlushedWhenNoneRaised(calls[1..]);
    }
  }

  /** Never more events are flushed than were handed to the sender. */
  lemma {:induction false} FlushedAtMostAttempted<V>(calls: seq<SenderCall<V>>)
    ensures |Flushed(calls)| <= |Attempted(calls)|
  {
    if calls != [] {
      FlushedAtMostAttempted(calls[1..]);
    }
  }

  class TelemetryClient<V> {
    var serverUrl: string
    var sessionId: string
    var sender: Sender<V>
    var queue: seq<Event<V>>

    /** How many calls this client has made to its sender. */
    var callCount: nat
    /** Every call this client made to the sender, in order: what a recording
        sender sees. */
    ghost var calls: seq<SenderCall<V>>
    /** Every event ever logged, in order. */
    ghost var logged: seq<Event<V>>

    /** The client's invariant: the session id is non-empty; every sender call
        went to this client's destination with a non-empty batch of this
        session; the i-th call ended as the sender decides for this client's
        i-th call;
        and each logged event is either still queued or was flushed exactly
        once, in logging order. */
    ghost predicate Valid()
      reads this
    {
      && sessionId != []
      && callCount == |calls|
      && (forall i :: 0 <= i < |calls| ==>
            && calls[i].url == serverUrl
            && calls[i].payload.sessionId == sessionId
            && calls[i].payload.events != []
            && calls[i].outcome == sender(calls[i].url, calls[i].payload, i))
      && Flushed(calls) + queue == logged
    }

    constructor (serverUrl: string, sessionId: Option<string>, sender: Option<Sender<V>>,
                 generatedId: string)
      requires generatedId != []
      ensures Valid()
      ensures this.serverUrl == serverUrl
      ensures this.sessionId == SessionIdFor(sessionId, generatedId)
      ensures this.sender == SenderFor(sender)
      ensures queue == [] && callCount == 0 && calls == [] && logged == []
    {
      this.serverUrl := serverUrl;
      this.sessionId := SessionIdFor(sessionId, generatedId);
      this.sender := SenderFor(sender);
      queue := [];
      callCount := 0;
      calls := [];
      logged := [];
    }

    /** Appends an event with the given name, timestamp and data (the empty map
        when none is given) to the end of the queue; nothing else changes. */
    method LogEvent(name: string, timestamp: real, data: Option<map<string, V>>)
      requires Valid()
      modifies this
      ensures Valid()
      ensures queue == old(queue) + [Event(name, timestamp, EventData(data))]
      ensures logged == old(logged) + [Event(name, timestamp, EventData(data))]
      ensures callCount == old(callCount) && calls == old(calls)
      ensures serverUrl == old(serverUrl) && sessionId == old(sessionId) && sender == old(sender)
    {
      var event := Event(name, timestamp, EventData(data));
      queue := queue + [event];
      logged := logged + [event];
    }

    /** Hands the whole queue to the sender as one payload and then empties it.
        An empty queue is left alone and reports 0 without calling the sender.
        If the sender raises, the queue is kept and no count is reported. */
    method Flush() returns (r: FlushResult)
      requires Valid()
      modifies this
      ensures Valid()
      ensures serverUrl == old(serverUrl) && sessionId == old(sessionId) && sender == old(sender)
      ensures logged == old(logged)
      ensures old(queue) == [] ==>
                r == Sent(0) && queue == [] && callCount == old(callCount) && calls == old(calls)
      ensures old(queue) != [] ==>
                var payload := Payload(sessionId, old(queue));
                var outcome := sender(serverUrl, payload, old(callCount));
                && callCount == old(callCount) + 1
                && calls == old(calls) + [SenderCall(serverUrl, payload, outcome)]
                && (outcome == Returned ==> r == Sent(|old(queue)|) && queue == [])
                && (outcome == Raised ==> r == SenderRaised && queue == old(queue))
    {
      if |queue| == 0 {
        return Sent(0);
      }
      var payload := Payload(sessionId, queue);
      var outcome := sender(serverUrl, payload, callCount);
      FlushedAppend(calls, SenderCall(serverUrl, payload, outcome));
      calls := calls + [SenderCall(serverUrl, payload, outcome)];
      callCount := callCount + 1;
      if outcome.Raised? {
        return SenderRaised;
      }
      var sent := |queue|;
      queue := [];
      return Sent(sent);
    }
  }

  /** With a sender that never raises (the default one, for instance), every
      logged event has been handed to the sender exactly once, in logging
      order, or is still queued. */
  lemma ExactlyOnceWithoutRaising<V>(client: TelemetryClient<V>)
    requires client.Valid()
    requires forall i :: 0 <= i < |client.calls| ==> client.calls[i].outcome == Returned
    ensures Attempted(client.calls) + client.queue == client.logged
  {
    FlushedWhenNoneRaised(client.calls);
  }

  /** A client built without a sender uses the default one, which never raises,
      so every logged event has been handed over exactly once, in logging order,
      or is still queued. */
  lemma ExactlyOnceWithDefaultSender<V>(client: TelemetryClient<V>)
    requires client.Valid()
    requires client.sender == SenderFor(None)
    ensures Attempted(client.calls) + client.queue == client.logged
  {
    SenderForNoneNeverRaises<V>(None);
    ExactlyOnceWithoutRaising(client);
  }
}
