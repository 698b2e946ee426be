/**
 * The realtime session of the chat screen (hooks/useWebSocket.ts): one WebSocket at a
 * time, keepalive pings, reconnection with exponential backoff, and the dispatch of
 * server frames to the screen's callbacks.
 *
 * Sockets, timeouts and intervals are identified by their index in the session's
 * history of them. The WebSocket and the timers are the environment: `HandleOpen`,
 * `HandleClose`, `FireReconnect` and `PingTick` are the events they deliver, and each
 * handler runs as one step.
 */
module Realtime {
  import opened Wrappers
  import opened Types

  const InitialDelay: int := 1000
  const MaxDelay: int := 30000
  const PingPeriod: int := 25000
  const ChatEndpoint: string := "wss://nordvig.ai/ws/chat?token="

  /** `WebSocket.readyState`. */
  datatype ReadyState = Connecting | Open | Closing | Closed

  /** A reconnect timeout: waiting with the delay it was scheduled with, or fired or cleared. */
  datatype Timeout = Pending(delay: int) | Done

  /** A keepalive interval of one socket, with its period in milliseconds, running until cleared. */
  datatype Interval = Interval(socket: nat, period: int, running: bool)

  /** A frame written to a socket. */
  datatype Outgoing = Outgoing(socket: nat, frame: ClientMessage)

  /** The delays the backoff can take: 1000 doubled, capped at 30000. */
  predicate IsBackoffDelay(d: int)
  {
    d == 1000 || d == 2000 || d == 4000 || d == 8000 || d == 16000 || d == 30000
  }

  /** `Math.min(d * 2, 30_000)`. */
  function NextDelay(d: int): (r: int)
    ensures IsBackoffDelay(d) ==> IsBackoffDelay(r)
    ensures r <= MaxDelay && r <= 2 * d && (r == MaxDelay || r == 2 * d)
  {
    if d * 2 < MaxDelay then d * 2 else MaxDelay
  }

  /** The wait before the `n`-th reconnect of a run of failed attempts (counting from 0). */
  function Wait(n: nat): int
  {
    if n == 0 then InitialDelay else NextDelay(Wait(n - 1))
  }

  /** The waits are 1000, 2000, 4000, 8000, 16000 and then 30000 for ever. */
  lemma {:induction false} WaitSchedule(n: nat)
    ensures n <= 4 ==> Wait(n) == InitialDelay * Pow2(n)
    ensures n >= 5 ==> Wait(n) == MaxDelay
    ensures InitialDelay <= Wait(n) <= MaxDelay
  {
    if n > 0 {
      WaitSchedule(n - 1);
    }
  }

  function Pow2(n: nat): nat
  {
    if n == 0 then 1 else 2 * Pow2(n - 1)
  }

  /** `!token`: a token that is missing or empty opens no socket. */
  predicate HasToken(token: Option<string>)
  {
    token.Some? && token.value != ""
  }

  /** `ws.close()`: a connecting or open socket starts closing; otherwise nothing happens. */
  function CloseSocket(sockets: seq<ReadyState>, id: Option<nat>): (r: seq<ReadyState>)
    requires id.Some? ==> id.value < |sockets|
    ensures |r| == |sockets|
    ensures id.Some? && (sockets[id.value] == Connecting || sockets[id.value] == Open) ==> r[id.value] == Closing
    ensures forall i :: 0 <= i < |r| && r[i] != sockets[i] ==>
      id == Some(i) && (sockets[i] == Connecting || sockets[i] == Open) && r[i] == Closing
  {
    if id.Some? && (sockets[id.value] == Connecting || sockets[id.value] == Open)
    then sockets[id.value := Closing]
    else sockets
  }

  /** `clearInterval`: the interval the handle names stops; a missing handle clears nothing. */
  function ClearInterval(intervals: seq<Interval>, handle: Option<nat>): (r: seq<Interval>)
    requires handle.Some? ==> handle.value < |intervals|
    ensures |r| == |intervals|
    ensures forall i :: 0 <= i < |r| ==>
      r[i].socket == intervals[i].socket && r[i].period == intervals[i].period &&
      r[i].running == (intervals[i].running && handle != Some(i))
  {
    if handle.Some? then intervals[handle.value := intervals[handle.value].(running := false)]
    else intervals
  }

  /** `clearTimeout`: the timeout the handle names will not fire; a missing handle clears nothing. */
  function ClearTimeout(timeouts: seq<Timeout>, handle: Option<nat>): (r: seq<Timeout>)
    requires handle.Some? ==> handle.value < |timeouts|
    ensures |r| == |timeouts|
    ensures forall i :: 0 <= i < |r| ==>
      r[i] == (if handle == Some(i) then Done else timeouts[i])
  {
    if handle.Some? then timeouts[handle.value := Done] else timeouts
  }

  class Session {
    /** Every socket the session has created, by id, with its ready state. */
    var sockets: seq<ReadyState>
    /** `wsRef.current`. */
    var current: Option<nat>
    /** `reconnectDelay.current`. */
    var reconnectDelay: int
    /** Every reconnect timeout scheduled, by handle. */
    var timeouts: seq<Timeout>
    /** `reconnectTimer.current`. */
    var reconnectTimer: Option<nat>
    /** Every keepalive interval started, by handle. */
    var intervals: seq<Interval>
    /** `pingTimer.current`. */
    var pingTimer: Option<nat>
    /** The `isConnected` state. */
    var isConnected: bool

    ghost predicate Valid()
      reads this
    {
      (current.Some? ==> current.value < |sockets|) &&
      (reconnectTimer.Some? ==> reconnectTimer.value < |timeouts|) &&
      (pingTimer.Some? ==> pingTimer.value < |intervals|) &&
      (forall i :: 0 <= i < |intervals| ==> intervals[i].socket < |sockets|) &&
      IsBackoffDelay(reconnectDelay) &&
      (forall i :: 0 <= i < |timeouts| && timeouts[i].Pending? ==> IsBackoffDelay(timeouts[i].delay)) &&
      (forall i :: 0 <= i < |sockets| && (sockets[i] == Connecting || sockets[i] == Open) ==> current == Some(i))
    }

    /** The session is torn down: nothing is current and no timer handle is held. */
    ghost predicate Quiescent()
      reads this
      requires Valid()
    {
      current.None? && reconnectTimer.None? && !isConnected &&
      (pingTimer.Some? ==> !intervals[pingTimer.value].running)
    }

    constructor ()
      ensures Valid()
      ensures sockets == [] && current == None && reconnectDelay == InitialDelay
      ensures timeouts == [] && reconnectTimer == None && intervals == [] && pingTimer == None
      ensures !isConnected
    {
      sockets, current, reconnectDelay := [], None, InitialDelay;
      timeouts, reconnectTimer, intervals, pingTimer := [], None, [], None;
      isConnected := false;
    }

    /**
     * `connect`: closes and forgets the current socket, then, given the stored token,
     * opens a new socket to the chat endpoint (returning its URL), or stops.
     */
    method Connect(token: Option<string>) returns (url: Option<string>)
      requires Valid()
      modifies this
      ensures Valid()
      ensures sockets == CloseSocket(old(sockets), old(current)) + (if HasToken(token) then [Connecting] else [])
      ensures current == (if HasToken(token) then Some(|old(sockets)|) else None)
      ensures url == (if HasToken(token) then Some(ChatEndpoint + token.value) else None)
      ensures reconnectDelay == old(reconnectDelay) && isConnected == old(isConnected)
      ensures timeouts == old(timeouts) && reconnectTimer == old(reconnectTimer)
      ensures intervals == old(intervals) && pingTimer == old(pingTimer)
    {
      if current.Some? {
        sockets := CloseSocket(sockets, current);
        current := None;
      }
      if !HasToken(token) {
        url := None;
        return;
      }
      url := Some(ChatEndpoint + token.value);
      sockets := sockets + [Connecting];
      current := Some(|sockets| - 1);
    }

    /** `ws.onopen`: resets the backoff, marks connected and starts a 25 s keepalive interval. */
    method HandleOpen(id: nat)
      requires Valid() && id < |sockets| && sockets[id] == Connecting
      modifies this
      ensures Valid()
      ensures sockets == old(sockets)[id := Open]
      ensures reconnectDelay == InitialDelay && isConnected
      ensures intervals == old(intervals) + [Interval(id, PingPeriod, true)] && pingTimer == Some(|old(intervals)|)
      ensures current == old(current) && timeouts == old(timeouts) && reconnectTimer == old(reconnectTimer)
    {
      sockets := sockets[id := Open];
      reconnectDelay := InitialDelay;
      isConnected := true;
      intervals := intervals + [Interval(id, PingPeriod, true)];
      pingTimer := Some(|intervals| - 1);
    }

    /**
     * `ws.onclose`: marks disconnected, clears the interval `pingTimer` holds and schedules a
     * reconnect after the current delay. It does not ask whether `id` is still the current
     * socket.
     */
    method HandleClose(id: nat)
      requires Valid() && id < |sockets| && sockets[id] != Closed
      modifies this
      ensures Valid()
      ensures sockets == old(sockets)[id := Closed] && !isConnected
      ensures intervals == ClearInterval(old(intervals), old(pingTimer))
      ensures timeouts == old(timeouts) + [Pending(old(reconnectDelay))]
      ensures reconnectTimer == Some(|old(timeouts)|)
      ensures current == old(current) && reconnectDelay == old(reconnectDelay) && pingTimer == old(pingTimer)
    {
      sockets := sockets[id := Closed];
      isConnected := false;
      if pingTimer.Some? {
        intervals := ClearInterval(intervals, pingTimer);
      }
      timeouts := timeouts + [Pending(reconnectDelay)];
      reconnectTimer := Some(|timeouts| - 1);
    }

    /** A reconnect timeout fires: the delay doubles (capped), then `connect` runs. */
    method FireReconnect(handle: nat, token: Option<string>) returns (url: Option<string>)
      requires Valid() && handle < |timeouts| && timeouts[handle].Pending?
      modifies this
      ensures Valid()
      ensures timeouts == old(timeouts)[handle := Done]
      ensures reconnectDelay == NextDelay(old(reconnectDelay))
      ensures sockets == CloseSocket(old(sockets), old(current)) + (if HasToken(token) then [Connecting] else [])
      ensures current == (if HasToken(token) then Some(|old(sockets)|) else None)
      ensures url == (if HasToken(token) then Some(ChatEndpoint + token.value) else None)
      ensures isConnected == old(isConnected) && reconnectTimer == old(reconnectTimer)
      ensures intervals == old(intervals) && pingTimer == old(pingTimer)
    {
      timeouts := timeouts[handle := Done];
      reconnectDelay := NextDelay(reconnectDelay);
      url := Connect(token);
    }

    /** A keepalive interval ticks: a ping goes out only while its own socket is open. */
    method PingTick(handle: nat) returns (out: Option<Outgoing>)
      requires Valid() && handle < |intervals| && intervals[handle].running
      ensures out.Some? <==> sockets[intervals[handle].socket] == Open
      ensures out.Some? ==> out.value == Outgoing(intervals[handle].socket, Ping)
    {
      var ws := intervals[handle].socket;
      if sockets[ws] == Open {
        out := Some(Outgoing(ws, Ping));
      } else {
        out := None;
      }
    }

    /** `send`: a message frame goes out only when the current socket is open. */
    method Send(text: string) returns (out: Option<Outgoing>)
      requires Valid()
      ensures out.Some? <==> current.Some? && sockets[current.value] == Open
      ensures out.Some? ==> out.value == Outgoing(current.value, Message(text))
    {
      if current.Some? && sockets[current.value] == Open {
        out := Some(Outgoing(current.value, Message(text)));
      } else {
        out := None;
      }
    }

    /**
     * `disconnect`: clears the held reconnect timeout and keepalive interval, closes and
     * forgets the current socket and marks disconnected. From a torn-down session it
     * changes nothing, so a second call is harmless.
     */
    method Disconnect()
      requires Valid()
      modifies this
      ensures Valid() && Quiescent()
      ensures timeouts == ClearTimeout(old(timeouts), old(reconnectTimer))
      ensures intervals == ClearInterval(old(intervals), old(pingTimer))
      ensures sockets == CloseSocket(old(sockets), old(current))
      ensures current == None && reconnectTimer == None && !isConnected
      ensures pingTimer == old(pingTimer) && reconnectDelay == old(reconnectDelay)
      ensures old(Quiescent()) ==>
        sockets == old(sockets) && timeouts == old(timeouts) && intervals == old(intervals)
    {
      if reconnectTimer.Some? {
        timeouts := ClearTimeout(timeouts, reconnectTimer);
      }
      if pingTimer.Some? {
        intervals := ClearInterval(intervals, pingTimer);
      }
      reconnectTimer := None;
      if current.Some? {
        sockets := CloseSocket(sockets, current);
        current := None;
      }
      isConnected := false;
    }
  }

  /** The screen's callbacks, with the arguments each receives. */
  datatype Callback =
    | OnConnected(ownerName: string, contactId: string)
    | OnToken(text: string)
    | OnToolStart(tool: string)
    | OnToolEnd(tool: string)
    | OnMessageComplete(text: string, platform: string, direction: string, toolsUsed: seq<string>)
    | OnError(error: string)

  /**
   * What `JSON.parse(event.data)` gives: no value, a frame of one of the seven types, or an
   * object whose `type` is none of them (`tag` is not the `Tag()` of any `ServerMessage`).
   */
  datatype Inbound = Unparseable | Known(msg: ServerMessage) | UnknownType(tag: string)

  /** The `switch` of `ws.onmessage`: at most one callback per frame. */
  function Dispatch(frame: Inbound): (r: Option<Callback>)
    ensures r.None? <==> frame.Unparseable? || frame.UnknownType? || frame == Known(Pong)
    ensures r.Some? ==> frame == Known(FrameFor(r.value))
  {
    match frame
    case Unparseable => None
    case UnknownType(_) => None
    case Known(msg) =>
      match msg
      case Connected(ownerName, contactId) => Some(OnConnected(ownerName, contactId))
      case Token(text) => Some(OnToken(text))
      case ToolStart(tool) => Some(OnToolStart(tool))
      case ToolEnd(tool) => Some(OnToolEnd(tool))
      case MessageComplete(text, platform, direction, toolsUsed) =>
        Some(OnMessageComplete(text, platform, direction, toolsUsed))
      case ServerError(error) => Some(OnError(error))
      case Pong => None
  }

  /** The frame a callback answers to. */
  function FrameFor(cb: Callback): ServerMessage
  {
    match cb
    case OnConnected(ownerName, contactId) => Connected(ownerName, contactId)
    case OnToken(text) => Token(text)
    case OnToolStart(tool) => ToolStart(tool)
    case OnToolEnd(tool) => ToolEnd(tool)
    case OnMessageComplete(text, platform, direction, toolsUsed) =>
      MessageComplete(text, platform, direction, toolsUsed)
    case OnError(error) => ServerError(error)
  }

  /**
   * A frame invokes callback `cb` exactly when it is the frame `cb` answers to, with the
   * frame's own fields; `pong`, unknown types and unparseable frames invoke nothing.
   */
  lemma DispatchExact(frame: Inbound, cb: Callback)
    ensures Dispatch(frame) == Some(cb) <==> frame == Known(FrameFor(cb))
    ensures Dispatch(frame).None? <==> (frame.Unparseable? || frame.UnknownType? || frame == Known(Pong))
  {
  }

  /**
   * The close handler of a socket that `Disconnect` closed still schedules a reconnect:
   * tearing the session down leaves a pending timeout behind.
   */
  method DisconnectThenClose(session: Session) returns (pending: nat)
    requires session.Valid() && session.current.Some? && session.sockets[session.current.value] == Open
    modifies session
    ensures session.Valid()
    ensures pending < |session.timeouts| && session.timeouts[pending].Pending?
    ensures session.current.None?
  {
    var id := session.current.value;
    session.Disconnect();
    session.HandleClose(id);
    pending := |session.timeouts| - 1;
  }

  lemma ExtendWaits(waits: seq<int>, delay: int)
    requires forall i :: 0 <= i < |waits| ==> waits[i] == Wait(i)
    requires delay == Wait(|waits|)
    ensures forall i :: 0 <= i < |waits| + 1 ==> (waits + [delay])[i] == Wait(i)
  {
  }

  /**
   * A run of connection attempts that each close before opening: the reconnects are
   * scheduled with the waits of `Wait`, so 1000, 2000, 4000 and so on.
   */
  method FailingReconnects(token: string, n: nat) returns (waits: seq<int>)
    requires token != ""
    ensures |waits| == n
    ensures forall i :: 0 <= i < n ==> waits[i] == Wait(i)
    ensures n >= 3 ==> waits[..3] == [1000, 2000, 4000]
  {
    var session := new Session();
    var _ := session.Connect(Some(token));
    waits := [];
    while |waits| < n
      invariant fresh(session) && session.Valid()
      invariant session.current.Some? && session.sockets[session.current.value] == Connecting
      invariant session.reconnectDelay == Wait(|waits|)
      invariant |waits| <= n && forall i :: 0 <= i < |waits| ==> waits[i] == Wait(i)
      decreases n - |waits|
    {
      session.HandleClose(session.current.value);
      var handle := |session.timeouts| - 1;
      var delay := session.timeouts[handle].delay;
      ExtendWaits(waits, delay);
      waits := waits + [delay];
      var _ := session.FireReconnect(handle, Some(token));
    }
    if n >= 3 {
      WaitSchedule(1);
      WaitSchedule(2);
    }
  }
}
