/** The browser's connection service, class WebSocketService of
    frontend/src/lib/websocket.js. Transports are numbered as they are created;
    `transports` holds the readyState of each, `attached` those whose four
    event handlers still point at this service, and `sent` the frames sent on
    them. Timers and transport events are methods the environment calls:
    `PingTimerFired`, `ReconnectTimerFired` and the `OnTransport…` events. The
    handlers registered with `On` are opaque identities: `delivered` records
    each call `_triggerHandlers` makes, in order. */
module ClientSocket {
  import opened Common

  const MAX_RECONNECT_ATTEMPTS: nat := 5
  const RECONNECT_DELAY: real := 1000.0

  type SocketId = nat
  type HandlerId = nat

  /** The frames the browser sends. */
  datatype ClientMessage =
    | SubscribeMsg(tokens: seq<Token>)
    | UnsubscribeMsg(tokens: seq<Token>)
    | PingMsg(timestamp: int)

  /** The argument of subscribe/unsubscribe: nothing, one token, or an array. */
  datatype TokenArg = Missing | Single(token: Token) | Many(tokens: seq<Token>)

  /** What a handler is called with. */
  datatype EventData =
    | OpenEvent
    | CloseEvent
    | ErrorEvent
    | MessageData(data: Value)
    | ReconnectFailed(attempt: nat, maxAttempts: nat)   // { success: false, attempt, maxAttempts }
    | Reconnecting(attempt: nat, maxAttempts: nat)      // { attempt, maxAttempts }

  /** One handler call made by `_triggerHandlers`. */
  datatype Delivery = Delivery(event: string, handler: HandlerId, data: EventData)

  /** The event names that have a handler list. */
  const EVENTS: set<string> := {"open", "close", "message", "error", "reconnect"}

  /** `!tokens` for the argument. */
  predicate Falsy(arg: TokenArg)
  {
    arg.Missing? || arg == Single("")
  }

  /** `Array.isArray(tokens) ? tokens : [tokens]`. */
  function TokenArray(arg: TokenArg): seq<Token>
    requires !arg.Missing?
  {
    match arg
    case Single(t) => [t]
    case Many(ts) => ts
  }

  function Pow(b: real, n: nat): real
  {
    if n == 0 then 1.0 else b * Pow(b, n - 1)
  }

  /** The wait before reconnect attempt n + 1: `reconnectDelay * 1.5^n`. */
  function ReconnectDelay(attempts: nat): real
  {
    RECONNECT_DELAY * Pow(1.5, attempts)
  }

  /** Each wait is half as long again as the one before. */
  lemma {:induction false} ReconnectDelayGrows(n: nat)
    ensures ReconnectDelay(n + 1) == ReconnectDelay(n) * 1.5
    ensures ReconnectDelay(n) >= 1000.0
  {
    if n > 0 {
      ReconnectDelayGrows(n - 1);
    }
  }

  /** The waits before the five attempts; a sixth is never scheduled. */
  lemma ReconnectSchedule()
    ensures seq(MAX_RECONNECT_ATTEMPTS, n requires 0 <= n => ReconnectDelay(n))
         == [1000.0, 1500.0, 2250.0, 3375.0, 5062.5]
  {
    ReconnectDelayGrows(0);
    ReconnectDelayGrows(1);
    ReconnectDelayGrows(2);
    ReconnectDelayGrows(3);
  }

  /** The calls `_triggerHandlers(event, data)` makes: every handler of the
      list, in registration order, once per registration. */
  function Fanned(hs: seq<HandlerId>, event: string, data: EventData): (r: seq<Delivery>)
    ensures |r| == |hs|
    ensures forall i :: 0 <= i < |r| ==> r[i] == Delivery(event, hs[i], data)
  {
    seq(|hs|, i requires 0 <= i < |hs| => Delivery(event, hs[i], data))
  }

  class WebSocketService {
    /** `this.socket`: the current transport, if any. */
    var socket: Option<SocketId>
    var transports: map<SocketId, ReadyState>
    var attached: set<SocketId>
    var nextSocketId: SocketId
    /** The frames sent, with the transport they were sent on. */
    var sent: seq<(SocketId, ClientMessage)>
    /** Whether the ping interval is set. */
    var pinging: bool
    /** The pending reconnect timeout and its delay, if one is set. */
    var reconnectTimer: Option<real>
    var reconnectAttempts: nat
    var pendingSubscriptions: set<Token>
    var handlers: map<string, seq<HandlerId>>
    var delivered: seq<Delivery>

    ghost predicate Valid()
      reads this
    {
      && handlers.Keys == EVENTS
      && (socket.Some? ==> socket.value in transports)
      && attached <= transports.Keys
      && (forall id :: id in transports ==> id < nextSocketId)
      && reconnectAttempts <= MAX_RECONNECT_ATTEMPTS
      && (reconnectTimer.Some? ==> reconnectAttempts < MAX_RECONNECT_ATTEMPTS)
    }

    constructor ()
      ensures Valid()
      ensures socket.None? && transports == map[] && sent == [] && delivered == []
      ensures !pinging && reconnectTimer.None? && reconnectAttempts == 0 && pendingSubscriptions == {}
      ensures forall e :: e in EVENTS ==> handlers[e] == []
    {
      socket := None;
      transports := map[];
      attached := {};
      nextSocketId := 0;
      sent := [];
      pinging := false;
      reconnectTimer := None;
      reconnectAttempts := 0;
      pendingSubscriptions := {};
      handlers := map["open" := [], "close" := [], "message" := [], "error" := [], "reconnect" := []];
      delivered := [];
    }

    /** isConnected: there is a current transport and it is OPEN. */
    predicate IsConnected()
      reads this
    {
      socket.Some? && socket.value in transports && transports[socket.value] == Open
    }

    /** getState: the current transport's readyState, CLOSED without one. */
    function GetState(): (r: ReadyState)
      reads this
      requires Valid()
      ensures socket.None? ==> r == Closed
      ensures r == Open <==> IsConnected()
    {
      if socket.Some? then transports[socket.value] else Closed
    }

    /** send: false, sending nothing, unless connected. */
    method Send(message: ClientMessage) returns (ok: bool)
      modifies this`sent
      ensures ok <==> IsConnected()
      ensures ok ==> sent == old(sent) + [(socket.value, message)]
      ensures !ok ==> sent == old(sent)
    {
      if !IsConnected() {
        return false;
      }
      sent := sent + [(socket.value, message)];
      return true;
    }

    /** subscribe: falsy input and the empty array are ignored; while
        connected the tokens go out in one frame, otherwise they are only
        queued. */
    method Subscribe(tokens: TokenArg)
      modifies this`sent, this`pendingSubscriptions
      ensures Falsy(tokens) || tokens == Many([]) ==>
        sent == old(sent) && pendingSubscriptions == old(pendingSubscriptions)
      ensures !Falsy(tokens) && tokens != Many([]) && IsConnected() ==>
        sent == old(sent) + [(socket.value, SubscribeMsg(TokenArray(tokens)))]
        && pendingSubscriptions == old(pendingSubscriptions)
      ensures !Falsy(tokens) && tokens != Many([]) && !IsConnected() ==>
        sent == old(sent) && pendingSubscriptions == old(pendingSubscriptions) + Elems(TokenArray(tokens))
    {
      if Falsy(tokens) || tokens == Many([]) {
        return;
      }
      var tokenArray := TokenArray(tokens);
      if !IsConnected() {
        var k := 0;
        while k < |tokenArray|
          invariant 0 <= k <= |tokenArray|
          invariant pendingSubscriptions == old(pendingSubscriptions) + Elems(tokenArray[..k])
          invariant sent == old(sent)
        {
          assert Elems(tokenArray[..k + 1]) == Elems(tokenArray[..k]) + {tokenArray[k]};
          pendingSubscriptions := pendingSubscriptions + {tokenArray[k]};
          k := k + 1;
        }
        assert tokenArray[..k] == tokenArray;
        return;
      }
      var _ := Send(SubscribeMsg(tokenArray));
    }

    /** unsubscribe: falsy input is ignored; otherwise the tokens always leave
        the queue, and a frame (even for an empty array) goes out only while
        connected. */
    method Unsubscribe(tokens: TokenArg)
      modifies this`sent, this`pendingSubscriptions
      ensures Falsy(tokens) ==> sent == old(sent) && pendingSubscriptions == old(pendingSubscriptions)
      ensures !Falsy(tokens) ==> pendingSubscriptions == old(pendingSubscriptions) - Elems(TokenArray(tokens))
      ensures !Falsy(tokens) && IsConnected() ==> sent == old(sent) + [(socket.value, UnsubscribeMsg(TokenArray(tokens)))]
      ensures !Falsy(tokens) && !IsConnected() ==> sent == old(sent)
    {
      if Falsy(tokens) {
        return;
      }
      var tokenArray := TokenArray(tokens);
      var k := 0;
      while k < |tokenArray|
        invariant 0 <= k <= |tokenArray|
        invariant pendingSubscriptions == old(pendingSubscriptions) - Elems(tokenArray[..k])
        invariant sent == old(sent)
      {
        assert Elems(tokenArray[..k + 1]) == Elems(tokenArray[..k]) + {tokenArray[k]};
        pendingSubscriptions := pendingSubscriptions - {tokenArray[k]};
        k := k + 1;
      }
      assert tokenArray[..k] == tokenArray;
      if !IsConnected() {
        return;
      }
      var _ := Send(UnsubscribeMsg(tokenArray));
    }

    /** startPingInterval (which first stops any running one). */
    method StartPingInterval()
      modifies this`pinging
      ensures pinging
    {
      StopPingInterval();
      pinging := true;
    }

    /** stopPingInterval. */
    method StopPingInterval()
      modifies this`pinging
      ensures !pinging
    {
      if pinging {
        pinging := false;
      }
    }

    /** One firing of the 30-second ping interval: a ping stamped now while
        connected, otherwise the interval stops itself. */
    method PingTimerFired(now: int)
      requires pinging
      modifies this`sent, this`pinging
      ensures IsConnected() ==> pinging && sent == old(sent) + [(socket.value, PingMsg(now))]
      ensures !IsConnected() ==> !pinging && sent == old(sent)
    {
      if IsConnected() {
        var _ := Send(PingMsg(now));
      } else {
        StopPingInterval();
      }
    }

    /** on: appends the handler to a known event's list; unknown events are
        ignored. */
    method On(event: string, handler: HandlerId)
      modifies this`handlers
      ensures event in old(handlers) ==> handlers == old(handlers)[event := old(handlers)[event] + [handler]]
      ensures event !in old(handlers) ==> handlers == old(handlers)
    {
      if event in handlers {
        handlers := handlers[event := handlers[event] + [handler]];
      }
    }

    /** off: removes every registration of the handler for that event. */
    method Off(event: string, handler: HandlerId)
      modifies this`handlers
      ensures event in old(handlers) ==> handlers == old(handlers)[event := Without(old(handlers)[event], handler)]
      ensures event !in old(handlers) ==> handlers == old(handlers)
    {
      if event in handlers {
        handlers := handlers[event := Without(handlers[event], handler)];
      }
    }

    /** _triggerHandlers: calls the event's handlers in order. */
    method TriggerHandlers(event: string, data: EventData)
      modifies this`delivered
      ensures event in handlers ==> delivered == old(delivered) + Fanned(handlers[event], event, data)
      ensures event !in handlers ==> delivered == old(delivered)
    {
      if event !in handlers {
        return;
      }
      var hs := handlers[event];
      var i := 0;
      while i < |hs|
        invariant 0 <= i <= |hs|
        invariant delivered == old(delivered) + Fanned(hs[..i], event, data)
      {
        assert Fanned(hs[..i + 1], event, data) == Fanned(hs[..i], event, data) + [Delivery(event, hs[i], data)];
        delivered := delivered + [Delivery(event, hs[i], data)];
        i := i + 1;
      }
      assert hs[..i] == hs;
    }

    /** _attemptReconnect: clears any pending timeout; after five attempts it
        reports failure to the "reconnect" handlers and schedules nothing,
        otherwise it schedules a retry after `1000 * 1.5^attempts` ms. */
    method AttemptReconnect()
      requires Valid()
      modifies this`reconnectTimer, this`delivered
      ensures Valid()
      ensures reconnectAttempts >= MAX_RECONNECT_ATTEMPTS ==>
        && reconnectTimer.None?
        && delivered == old(delivered) + Fanned(handlers["reconnect"], "reconnect",
                                                ReconnectFailed(reconnectAttempts, MAX_RECONNECT_ATTEMPTS))
      ensures reconnectAttempts < MAX_RECONNECT_ATTEMPTS ==>
        reconnectTimer == Some(ReconnectDelay(reconnectAttempts)) && delivered == old(delivered)
    {
      reconnectTimer := None;
      if reconnectAttempts >= MAX_RECONNECT_ATTEMPTS {
        TriggerHandlers("reconnect", ReconnectFailed(reconnectAttempts, MAX_RECONNECT_ATTEMPTS));
        return;
      }
      reconnectTimer := Some(ReconnectDelay(reconnectAttempts));
    }

    /** Only the frames sent, the queue and the handler lists may have
        changed. */
    twostate predicate TransportKept()
      reads this
    {
      && socket == old(socket) && transports == old(transports) && attached == old(attached)
      && nextSocketId == old(nextSocketId) && pinging == old(pinging) && reconnectTimer == old(reconnectTimer)
      && reconnectAttempts == old(reconnectAttempts) && delivered == old(delivered)
    }

    /** What connect does to everything but the handler lists: nothing while
        connected. Otherwise the old transport's handlers are detached and a
        new CONNECTING transport becomes current; if creating it throws, the
        old reference stays, the "error" handlers run and a reconnect is
        attempted. */
    twostate predicate ConnectEffect(creationFails: bool)
      reads this
    {
      && (old(IsConnected()) ==>
            && socket == old(socket) && transports == old(transports) && attached == old(attached)
            && nextSocketId == old(nextSocketId) && sent == old(sent) && pinging == old(pinging)
            && reconnectTimer == old(reconnectTimer) && reconnectAttempts == old(reconnectAttempts)
            && pendingSubscriptions == old(pendingSubscriptions) && delivered == old(delivered))
      && (!old(IsConnected()) ==>
            && attached - {old(nextSocketId)} == old(attached) - OptionSet(old(socket))
            && sent == old(sent) && pinging == old(pinging) && reconnectAttempts == old(reconnectAttempts)
            && pendingSubscriptions == old(pendingSubscriptions))
      && (!old(IsConnected()) && !creationFails ==>
            && socket == Some(old(nextSocketId)) && nextSocketId == old(nextSocketId) + 1
            && transports == old(transports)[old(nextSocketId) := Connecting]
            && old(nextSocketId) in attached
            && reconnectTimer == old(reconnectTimer) && delivered == old(delivered))
      && (!old(IsConnected()) && creationFails ==>
            && socket == old(socket) && transports == old(transports) && nextSocketId == old(nextSocketId)
            && reconnectTimer == (if reconnectAttempts < MAX_RECONNECT_ATTEMPTS
                                  then Some(ReconnectDelay(reconnectAttempts)) else None)
            && "error" in handlers && "reconnect" in handlers
            && delivered == old(delivered) + Fanned(handlers["error"], "error", ErrorEvent)
                 + (if reconnectAttempts < MAX_RECONNECT_ATTEMPTS then []
                    else Fanned(handlers["reconnect"], "reconnect",
                                ReconnectFailed(reconnectAttempts, MAX_RECONNECT_ATTEMPTS))))
    }

    /** connect: `ConnectEffect`, with the handler lists kept. */
    method Connect(creationFails: bool)
      requires Valid()
      modifies this
      ensures Valid()
      ensures handlers == old(handlers)
      ensures ConnectEffect(creationFails)
    {
      if IsConnected() {
        return;
      }
      if socket.Some? {
        attached := attached - {socket.value};
      }
      if creationFails {
        TriggerHandlers("error", ErrorEvent);
        AttemptReconnect();
        return;
      }
      var id := nextSocketId;
      nextSocketId := nextSocketId + 1;
      transports := transports[id := Connecting];
      attached := attached + {id};
      socket := Some(id);
    }

    /** What disconnect does to everything but the handler lists: nothing
        without a transport. Otherwise it stops pinging, cancels the reconnect
        timeout, closes an OPEN or CONNECTING transport, forgets it, and clears
        the queue and the attempt count. The transport's handlers stay
        attached. */
    twostate predicate DisconnectEffect()
      reads this
    {
      && (old(socket).None? ==>
            && socket == old(socket) && transports == old(transports) && attached == old(attached)
            && nextSocketId == old(nextSocketId) && sent == old(sent) && pinging == old(pinging)
            && reconnectTimer == old(reconnectTimer) && reconnectAttempts == old(reconnectAttempts)
            && pendingSubscriptions == old(pendingSubscriptions) && delivered == old(delivered))
      && (old(socket).Some? ==>
            var id := old(socket).value;
            && socket.None? && !pinging && reconnectTimer.None?
            && pendingSubscriptions == {} && reconnectAttempts == 0
            && id in old(transports)
            && transports == (if old(transports)[id] in {Open, Connecting}
                              then old(transports)[id := Closing] else old(transports))
            && attached == old(attached) && nextSocketId == old(nextSocketId)
            && sent == old(sent) && delivered == old(delivered))
    }

    /** disconnect: `DisconnectEffect`, with the handler lists kept. */
    method Disconnect()
      requires Valid()
      modifies this
      ensures Valid()
      ensures handlers == old(handlers)
      ensures DisconnectEffect()
    {
      if socket.None? {
        return;
      }
      StopPingInterval();
      reconnectTimer := None;
      var id := socket.value;
      if transports[id] == Open || transports[id] == Connecting {
        CloseTransport(id);
      }
      socket := None;
      pendingSubscriptions := {};
      reconnectAttempts := 0;
    }

    /** `socket.close()`: the transport starts closing; its "close" event
        comes later, as `OnTransportClose`. */
    method CloseTransport(id: SocketId)
      requires id in transports && transports[id] in {Open, Connecting}
      modifies this`transports
      ensures transports == old(transports)[id := Closing]
    {
      transports := transports[id := Closing];
    }

    /** The transport's "open" event. If its handlers are attached: the
        attempt count resets, pinging starts, the "open" handlers run, and a
        non-empty queue is sent as one subscribe (queued again if this is not
        the current transport) and then emptied. */
    method OnTransportOpen(id: SocketId)
      requires Valid() && id in transports && transports[id] == Connecting
      modifies this
      ensures Valid()
      ensures transports == old(transports)[id := Open]
      ensures socket == old(socket) && attached == old(attached) && handlers == old(handlers)
      ensures id !in attached ==> unchanged(this`sent, this`pinging, this`reconnectAttempts, this`pendingSubscriptions, this`delivered)
      ensures id in attached ==>
        && reconnectAttempts == 0 && pinging && pendingSubscriptions == {}
        && delivered == old(delivered) + Fanned(handlers["open"], "open", OpenEvent)
        && (old(pendingSubscriptions) == {} || !IsConnected() ==> sent == old(sent))
        && (old(pendingSubscriptions) != {} && IsConnected() ==>
              exists ts :: Elems(ts) == old(pendingSubscriptions) && NoDup(ts)
                && sent == old(sent) + [(socket.value, SubscribeMsg(ts))])
    {
      transports := transports[id := Open];
      if id !in attached {
        return;
      }
      reconnectAttempts := 0;
      StartPingInterval();
      TriggerHandlers("open", OpenEvent);
      FlushPending();
    }

    /** The end of the "open" handler: a non-empty queue goes out as one
        subscribe, or back into the queue when not connected, and the queue
        is then emptied. */
    method FlushPending()
      modifies this`sent, this`pendingSubscriptions
      ensures pendingSubscriptions == {}
      ensures old(pendingSubscriptions) == {} || !IsConnected() ==> sent == old(sent)
      ensures old(pendingSubscriptions) != {} && IsConnected() ==>
        exists ts :: Elems(ts) == old(pendingSubscriptions) && NoDup(ts)
          && sent == old(sent) + [(socket.value, SubscribeMsg(ts))]
    {
      if |pendingSubscriptions| > 0 {
        var tokens := SetToSeq(pendingSubscriptions);
        assert tokens != [] by {
          var t :| t in pendingSubscriptions;
          assert t in Elems(tokens);
        }
        Subscribe(Many(tokens));
        pendingSubscriptions := {};
      }
    }

    /** The transport's "close" event: if its handlers are attached, pinging
        stops, the "close" handlers run and a reconnect is attempted. */
    method OnTransportClose(id: SocketId)
      requires Valid() && id in transports
      modifies this`transports, this`pinging, this`delivered, this`reconnectTimer
      ensures Valid()
      ensures transports == old(transports)[id := Closed]
      ensures id !in attached ==>
        pinging == old(pinging) && delivered == old(delivered) && reconnectTimer == old(reconnectTimer)
      ensures id in attached ==>
        && !pinging
        && reconnectTimer == (if reconnectAttempts < MAX_RECONNECT_ATTEMPTS
                              then Some(ReconnectDelay(reconnectAttempts)) else None)
        && delivered == old(delivered) + Fanned(handlers["close"], "close", CloseEvent)
             + (if reconnectAttempts < MAX_RECONNECT_ATTEMPTS then []
                else Fanned(handlers["reconnect"], "reconnect",
                            ReconnectFailed(reconnectAttempts, MAX_RECONNECT_ATTEMPTS)))
    {
      transports := transports[id := Closed];
      if id !in attached {
        return;
      }
      StopPingInterval();
      TriggerHandlers("close", CloseEvent);
      AttemptReconnect();
    }

    /** The transport's "message" event: a frame that parses (`Some`) reaches
        the "message" handlers; one that does not reaches none. */
    method OnTransportMessage(id: SocketId, parsed: Option<Value>)
      requires Valid()
      modifies this`delivered
      ensures id in attached && parsed.Some? ==>
        delivered == old(delivered) + Fanned(handlers["message"], "message", MessageData(parsed.value))
      ensures id !in attached || parsed.None? ==> delivered == old(delivered)
    {
      if id !in attached || parsed.None? {
        return;
      }
      TriggerHandlers("message", MessageData(parsed.value));
    }

    /** The transport's "error" event. */
    method OnTransportError(id: SocketId)
      requires Valid()
      modifies this`delivered
      ensures id in attached ==>
        delivered == old(delivered) + Fanned(handlers["error"], "error", ErrorEvent)
      ensures id !in attached ==> delivered == old(delivered)
    {
      if id !in attached {
        return;
      }
      TriggerHandlers("error", ErrorEvent);
    }

    /** The reconnect timeout fires: the attempt count goes up, the
        "reconnect" handlers hear the new count, and connect runs. */
    method ReconnectTimerFired(creationFails: bool)
      requires Valid() && reconnectTimer.Some?
      modifies this
      ensures Valid()
      ensures reconnectAttempts == old(reconnectAttempts) + 1
      ensures |delivered| >= |old(delivered)| + |handlers["reconnect"]|
      ensures delivered[..|old(delivered)| + |handlers["reconnect"]|]
           == old(delivered) + Fanned(handlers["reconnect"], "reconnect",
                                      Reconnecting(reconnectAttempts, MAX_RECONNECT_ATTEMPTS))
      ensures !old(IsConnected()) && !creationFails ==> socket == Some(old(nextSocketId))
    {
      reconnectTimer := None;
      reconnectAttempts := reconnectAttempts + 1;
      TriggerHandlers("reconnect", Reconnecting(reconnectAttempts, MAX_RECONNECT_ATTEMPTS));
      ghost var mid := delivered;
      Connect(creationFails);
      assert delivered[..|mid|] == mid;
    }
  }

  function OptionSet(o: Option<SocketId>): set<SocketId>
  {
    if o.Some? then {o.value} else {}
  }

  /** Because disconnect leaves the transport's handlers attached, the close
      that follows still schedules a reconnect: a fresh service that connects,
      opens, disconnects and then sees the close has a 1000 ms retry pending. */
  method DisconnectStillReconnects() returns (pending: Option<real>, current: Option<SocketId>)
    ensures current.None?
    ensures pending == Some(1000.0)
  {
    var service := new WebSocketService();
    service.Connect(false);
    var id := service.socket.value;
    service.OnTransportOpen(id);
    service.Disconnect();
    service.OnTransportClose(id);
    pending, current := service.reconnectTimer, service.socket;
  }
}
