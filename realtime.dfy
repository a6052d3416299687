/** `WebSocketClient` of lib/api.ts: a live-update socket that reconnects
    after a close with a linear back-off of at most five attempts, gives up
    on an error, and sends subscription envelopes only while open. The
    socket itself is not modelled: its events are method calls, a frame
    arrives already decoded or not, and a scheduled reconnect is a returned
    delay. */
module Realtime {
  import opened Parking

  const DefaultSocketUrl := "ws://localhost:3000/api/v1/ws"
  const MaxReconnectAttempts: nat := 5
  const ReconnectDelay: nat := 1000

  /** `WebSocket.readyState` of the current socket. */
  datatype ReadyState = Connecting | Open | Closing | Closed

  /** The bookkeeping the event handlers share: `reconnectAttempts` and
      `isOfflineMode`. */
  datatype Backoff = Backoff(attempts: nat, offline: bool)

  /** What one event leaves behind: the new bookkeeping and, when a
      reconnect is scheduled, its delay in milliseconds. */
  datatype Reaction = Reaction(next: Backoff, reconnectAfter: Option<nat>)

  datatype SocketEvent = OpenEvent | CloseEvent | ErrorEvent

  /** `onopen`: the back-off starts over and the client is online again. */
  const Reopened := Backoff(0, false)

  /** `onerror`, or a `WebSocket` constructor that throws. */
  function AfterError(b: Backoff): (r: Backoff)
    ensures r.offline && r.attempts == b.attempts
  {
    b.(offline := true)
  }

  /** `onclose` followed by `attemptReconnect`: while online and below five
      attempts, one more attempt is counted and scheduled after 1000 ms per
      attempt; at five attempts the client gives up and goes offline;
      offline, nothing happens. */
  function AfterClose(b: Backoff): (r: Reaction)
    ensures r.reconnectAfter.Some? <==> !b.offline && b.attempts < MaxReconnectAttempts
    ensures r.reconnectAfter.Some? ==>
              r.next == Backoff(b.attempts + 1, false) && r.reconnectAfter.value == ReconnectDelay * r.next.attempts
    ensures r.reconnectAfter.None? ==> r.next == Backoff(b.attempts, true)
  {
    if b.offline then Reaction(b, None)
    else if b.attempts < MaxReconnectAttempts then
      var next := Backoff(b.attempts + 1, false);
      Reaction(next, Some(ReconnectDelay * next.attempts))
    else Reaction(b.(offline := true), None)
  }

  function React(b: Backoff, e: SocketEvent): Reaction
  {
    match e
    case OpenEvent => Reaction(Reopened, None)
    case ErrorEvent => Reaction(AfterError(b), None)
    case CloseEvent => AfterClose(b)
  }

  /** The bookkeeping after a series of events, and the reconnect delays
      scheduled on the way, in order. */
  datatype Trace = Trace(final: Backoff, delays: seq<nat>)

  function Run(b: Backoff, events: seq<SocketEvent>): Trace
    decreases |events|
  {
    if events == [] then Trace(b, [])
    else
      var r := React(b, events[0]);
      var rest := Run(r.next, events[1..]);
      Trace(rest.final, (if r.reconnectAfter.Some? then [r.reconnectAfter.value] else []) + rest.delays)
  }

  /** Whatever the events, the attempt counter stays within 0..5 and every
      scheduled delay is one of 1000, 2000, ..., 5000. */
  lemma {:induction false} BackoffBounded(b: Backoff, events: seq<SocketEvent>)
    requires b.attempts <= MaxReconnectAttempts
    ensures Run(b, events).final.attempts <= MaxReconnectAttempts
    ensures forall i :: 0 <= i < |Run(b, events).delays| ==>
              var d := Run(b, events).delays[i];
              ReconnectDelay <= d <= ReconnectDelay * MaxReconnectAttempts && d % ReconnectDelay == 0
    decreases |events|
  {
    if events != [] {
      BackoffBounded(React(b, events[0]).next, events[1..]);
    }
  }

  /** `n` closes in a row, starting online after `k` attempts, schedule the
      delays 1000 * (k + 1), 1000 * (k + 2), ... up to 5000, then the
      client goes offline and schedules nothing more. */
  lemma {:induction false} CloseRun(k: nat, n: nat)
    requires k <= MaxReconnectAttempts
    ensures var t := Run(Backoff(k, false), seq(n, _ => CloseEvent));
            var m := if n <= MaxReconnectAttempts - k then n else MaxReconnectAttempts - k;
            && |t.delays| == m
            && (forall i :: 0 <= i < m ==> t.delays[i] == ReconnectDelay * (k + i + 1))
            && t.final == (if n <= MaxReconnectAttempts - k then Backoff(k + n, false) else Backoff(MaxReconnectAttempts, true))
    decreases n
  {
    var events := seq(n, _ => CloseEvent);
    if n > 0 {
      assert events[0] == CloseEvent;
      assert events[1..] == seq(n - 1, _ => CloseEvent);
      if k < MaxReconnectAttempts {
        CloseRun(k + 1, n - 1);
      } else {
        ClosesWhileOffline(MaxReconnectAttempts, n - 1);
      }
    }
  }

  /** Offline, closes change nothing and schedule nothing. */
  lemma {:induction false} ClosesWhileOffline(k: nat, n: nat)
    ensures Run(Backoff(k, true), seq(n, _ => CloseEvent)) == Trace(Backoff(k, true), [])
    decreases n
  {
    if n > 0 {
      assert seq(n, _ => CloseEvent)[1..] == seq(n - 1, _ => CloseEvent);
      ClosesWhileOffline(k, n - 1);
    }
  }

  /** After an error nothing is scheduled until the next `onopen`, however
      many closes and errors follow. */
  lemma {:induction false} SilentAfterError(b: Backoff, events: seq<SocketEvent>)
    requires forall i :: 0 <= i < |events| ==> events[i] != OpenEvent
    ensures Run(AfterError(b), events) == Trace(AfterError(b), [])
    decreases |events|
  {
    if events != [] {
      SilentAfterError(b, events[1..]);
    }
  }

  /** Between two `onopen` events at most five reconnects are scheduled in
      all, fewer when attempts were already spent. */
  lemma {:induction false} ReconnectsBetweenOpens(b: Backoff, events: seq<SocketEvent>)
    requires b.attempts <= MaxReconnectAttempts
    requires forall i :: 0 <= i < |events| ==> events[i] != OpenEvent
    ensures |Run(b, events).delays| <= MaxReconnectAttempts - b.attempts
    ensures Run(b, events).final.attempts == b.attempts + |Run(b, events).delays|
    decreases |events|
  {
    if events != [] {
      ReconnectsBetweenOpens(React(b, events[0]).next, events[1..]);
    }
  }

  /** A subscription request the client can send. */
  datatype Command = SubscribeTo(gateId: string) | UnsubscribeFrom(gateId: string)

  /** How the server reads an envelope back. */
  function ReadEnvelope(j: Json): Option<Command>
  {
    if j.JObj? && "type" in j.fields && "payload" in j.fields
       && j.fields["type"].JStr? && j.fields["payload"].JObj?
       && "gateId" in j.fields["payload"].fields && j.fields["payload"].fields["gateId"].JStr?
    then
      var gateId := j.fields["payload"].fields["gateId"].s;
      match j.fields["type"].s
      case "subscribe" => Some(SubscribeTo(gateId))
      case "unsubscribe" => Some(UnsubscribeFrom(gateId))
      case _ => None
    else None
  }

  /** `{ type, payload: { gateId } }`: an envelope the server reads back as
      the command it was built from. */
  function Envelope(c: Command): (j: Json)
    ensures j.JObj? && j.fields.Keys == {"type", "payload"}
    ensures ReadEnvelope(j) == Some(c)
  {
    var j := JObj(map["type" := JStr(if c.SubscribeTo? then "subscribe" else "unsubscribe"),
                      "payload" := JObj(map["gateId" := JStr(c.gateId)])]);
    assert j.fields["payload"].fields["gateId"].s == c.gateId;
    j
  }

  /** An inbound frame: JSON the client could decode, or text it could not. */
  datatype Frame = Parsed(value: Json) | Malformed

  class WebSocketClient {
    const url: string
    var ws: Option<ReadyState>
    var reconnectAttempts: nat
    var isOfflineMode: bool
    /** Whether the last successful `connect` was given an `onMessage` and an
        `onError` callback; reconnects pass the same ones on. */
    var hasOnMessage: bool
    var hasOnError: bool

    ghost predicate Valid()
      reads this
    {
      reconnectAttempts <= MaxReconnectAttempts
    }

    function State(): Backoff
      reads this
    {
      Backoff(reconnectAttempts, isOfflineMode)
    }

    constructor (configuredUrl: Option<string>)
      ensures Valid()
      ensures url == if configuredUrl.Some? then configuredUrl.value else DefaultSocketUrl
      ensures ws == None && State() == Reopened
      ensures !hasOnMessage && !hasOnError
    {
      url := if configuredUrl.Some? then configuredUrl.value else DefaultSocketUrl;
      ws := None;
      reconnectAttempts := 0;
      isOfflineMode := false;
      hasOnMessage := false;
      hasOnError := false;
    }

    /** `connect`: a new socket, or, when the constructor throws, offline
        and `onError` called; `errorNotified` says whether it was. */
    method Connect(onMessage: bool, onError: bool, constructorThrows: bool) returns (errorNotified: bool)
      requires Valid()
      modifies this
      ensures Valid()
      ensures constructorThrows ==>
                && ws == old(ws) && State() == AfterError(old(State())) && errorNotified == onError
                && hasOnMessage == old(hasOnMessage) && hasOnError == old(hasOnError)
      ensures !constructorThrows ==>
                && ws == Some(Connecting) && State() == old(State()) && !errorNotified
                && hasOnMessage == onMessage && hasOnError == onError
    {
      if constructorThrows {
        isOfflineMode := true;
        errorNotified := onError;
        return;
      }
      ws := Some(Connecting);
      hasOnMessage := onMessage;
      hasOnError := onError;
      errorNotified := false;
    }

    /** The timer of a scheduled reconnect fires: `connect` again with the
        same callbacks. */
    method FireReconnect(constructorThrows: bool) returns (errorNotified: bool)
      requires Valid()
      modifies this
      ensures Valid()
      ensures hasOnMessage == old(hasOnMessage) && hasOnError == old(hasOnError)
      ensures constructorThrows ==> ws == old(ws) && State() == AfterError(old(State())) && errorNotified == hasOnError
      ensures !constructorThrows ==> ws == Some(Connecting) && State() == old(State()) && !errorNotified
    {
      errorNotified := Connect(hasOnMessage, hasOnError, constructorThrows);
    }

    /** `onopen` of the current socket. A socket already dropped by
        `disconnect` leaves `ws` empty. */
    method OnOpen()
      requires Valid()
      modifies this`ws, this`reconnectAttempts, this`isOfflineMode
      ensures Valid()
      ensures ws == if old(ws).Some? then Some(Open) else None
      ensures State() == Reopened
    {
      if ws.Some? {
        ws := Some(Open);
      }
      reconnectAttempts := 0;
      isOfflineMode := false;
    }

    /** `onclose`: the reconnect it schedules, if any, is returned. */
    method OnClose() returns (reconnectAfter: Option<nat>)
      requires Valid()
      modifies this`ws, this`reconnectAttempts, this`isOfflineMode
      ensures Valid()
      ensures ws == if old(ws).Some? then Some(Closed) else None
      ensures State() == AfterClose(old(State())).next
      ensures reconnectAfter == AfterClose(old(State())).reconnectAfter
    {
      if ws.Some? {
        ws := Some(Closed);
      }
      reconnectAfter := None;
      if !isOfflineMode {
        if reconnectAttempts < MaxReconnectAttempts {
          reconnectAttempts := reconnectAttempts + 1;
          reconnectAfter := Some(ReconnectDelay * reconnectAttempts);
        } else {
          isOfflineMode := true;
        }
      }
    }

    /** `onerror`: offline, and `onError` called when one was given. */
    method OnError() returns (errorNotified: bool)
      requires Valid()
      modifies this`isOfflineMode
      ensures Valid()
      ensures State() == AfterError(old(State()))
      ensures errorNotified == hasOnError
    {
      isOfflineMode := true;
      errorNotified := hasOnError;
    }

    /** `onmessage`: a decoded frame goes to `onMessage`, when there is
        one; an undecodable frame is dropped. Nothing changes either way. */
    method OnMessage(frame: Frame) returns (delivered: Option<Json>)
      ensures delivered.Some? <==> frame.Parsed? && hasOnMessage
      ensures delivered.Some? ==> delivered.value == frame.value
    {
      match frame {
        case Parsed(value) =>
          delivered := if hasOnMessage then Some(value) else None;
        case Malformed =>
          delivered := None;
      }
    }

    /** `subscribe`: the envelope sent, only while the socket is open;
        nothing is queued otherwise. */
    method Subscribe(gateId: string) returns (sent: Option<Json>)
      ensures sent.Some? <==> ws == Some(Open)
      ensures sent.Some? ==> ReadEnvelope(sent.value) == Some(SubscribeTo(gateId))
    {
      sent := None;
      if ws.Some? && ws.value == Open {
        sent := Some(Envelope(SubscribeTo(gateId)));
      }
    }

    method Unsubscribe(gateId: string) returns (sent: Option<Json>)
      ensures sent.Some? <==> ws == Some(Open)
      ensures sent.Some? ==> ReadEnvelope(sent.value) == Some(UnsubscribeFrom(gateId))
    {
      sent := None;
      if ws.Some? && ws.value == Open {
        sent := Some(Envelope(UnsubscribeFrom(gateId)));
      }
    }

    /** `disconnect`: the socket is dropped. The back-off is untouched, so the
        close event that follows goes through `onclose` like any other. */
    method Disconnect()
      modifies this`ws
      ensures ws == None
    {
      if ws.Some? {
        ws := None;
      }
    }
  }

  /** A deliberate `disconnect` while online does not stop reconnection:
      the close event that follows still schedules an attempt, unless five
      were already spent. */
  method DisconnectThenClose(client: WebSocketClient) returns (reconnectAfter: Option<nat>)
    requires client.Valid() && !client.isOfflineMode
    modifies client
    ensures client.ws == None
    ensures reconnectAfter.Some? <==> old(client.reconnectAttempts) < MaxReconnectAttempts
    ensures reconnectAfter.Some? ==> reconnectAfter.value == ReconnectDelay * (old(client.reconnectAttempts) + 1)
  {
    client.Disconnect();
    reconnectAfter := client.OnClose();
  }
}
