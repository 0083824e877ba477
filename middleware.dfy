/** The Redux middleware of frontend/src/store/websocketMiddleware.js: it
    registers four listeners with the connection service on the first action
    it sees, routes the four connection intents to the service, forwards
    every action unchanged, and turns server messages into store actions. */
module Middleware {
  import opened Common
  import opened Market
  import opened Protocol
  import opened ClientSocket
  import opened Store
  import UseWebSocket

  /** The store actions one market-data message dispatches, and whether the
      listener threw part-way (actions dispatched before a throw stay
      dispatched). */
  datatype Dispatch = Dispatch(actions: seq<Action>, threw: bool)

  /** The full-state map one update contributes to: `{...data, lastUpdated}`
      under its token. */
  function FullStep(m: map<string, Fields>, u: Value, now: int): Option<map<string, Fields>>
  {
    match u
    case Null => None
    case Obj(f) =>
      (match UseWebSocket.TokenOf(f)
       case Some(t) => Some(m[t := Spread(SpreadOf(Get(f, "data")), UseWebSocket.Stamped(now))])
       case None => Some(m))
    case _ => Some(m)
  }

  /** The map the full-state path builds, or `None` if an update throws. */
  function FullMap(us: seq<Value>, now: int): (r: Option<map<string, Fields>>)
    ensures r.None? <==> UseWebSocket.HasNull(us)
  {
    if us == [] then Some(map[])
    else
      UseWebSocket.HasNullSnoc(us);
      match FullMap(us[..|us| - 1], now)
      case None => None
      case Some(m) => FullStep(m, us[|us| - 1], now)
  }

  /** The actions the incremental path dispatches, one per update with a
      token, in message order. */
  function Incremental(us: seq<Value>): (r: Dispatch)
    ensures r.threw <==> UseWebSocket.HasNull(us)
    ensures |r.actions| <= |us|
    ensures forall k :: 0 <= k < |r.actions| ==> r.actions[k].UpdateMarketData? && r.actions[k].token != ""
  {
    if us == [] then Dispatch([], false)
    else
      UseWebSocket.HasNullSnoc(us);
      var d := Incremental(us[..|us| - 1]);
      if d.threw then d
      else
        match us[|us| - 1]
        case Null => Dispatch(d.actions, true)
        case Obj(f) =>
          (match UseWebSocket.TokenOf(f)
           case Some(t) => Dispatch(d.actions + [UpdateMarketData(t, Get(f, "data"))], false)
           case None => d)
        case _ => d
  }

  /** handleMarketData: nothing without `data`; a non-array `data` throws
      before any dispatch; a full state dispatches one `setFullMarketData`,
      an incremental message one `updateMarketData` per update with a token. */
  function MarketDataSpec(message: Fields, now: int): (r: Dispatch)
    ensures !Truthy(Get(message, "data")) ==> r == Dispatch([], false)
    ensures Truthy(Get(message, "isFullState")) ==> |r.actions| <= 1
    ensures Truthy(Get(message, "isFullState")) && r.actions != [] ==> r.actions[0].SetFullMarketData?
  {
    if !Truthy(Get(message, "data")) then Dispatch([], false)
    else
      match message["data"]
      case Arr(us) =>
        if Truthy(Get(message, "isFullState")) then
          (match FullMap(us, now)
           case None => Dispatch([], true)
           case Some(m) => Dispatch([SetFullMarketData(m)], false))
        else Incremental(us)
      case _ => Dispatch([], true)
  }

  /** handleMarketData, as the source's loops. */
  method HandleMarketData(message: Fields, now: int) returns (r: Dispatch)
    ensures r == MarketDataSpec(message, now)
  {
    if !Truthy(Get(message, "data")) {
      return Dispatch([], false);
    }
    if !message["data"].Arr? {
      assert MarketDataSpec(message, now) == Dispatch([], true);
      return Dispatch([], true);
    }
    var updates := message["data"].items;
    var k := 0;
    if Truthy(Get(message, "isFullState")) {
      var marketData: map<string, Fields> := map[];
      while k < |updates|
        invariant 0 <= k <= |updates|
        invariant FullMap(updates[..k], now) == Some(marketData)
      {
        assert updates[..k + 1][..k] == updates[..k];
        var update := updates[k];
        if update.Null? {
          assert updates == updates[..k + 1] + updates[k + 1..];
          FullMapNoneStays(updates[..k + 1], updates[k + 1..], now);
          return Dispatch([], true);
        }
        if update.Obj? && UseWebSocket.TokenOf(update.fields).Some? {
          var token := update.fields["token"].s;
          marketData := marketData[token := Spread(SpreadOf(Get(update.fields, "data")), UseWebSocket.Stamped(now))];
        }
        k := k + 1;
      }
      assert updates[..k] == updates;
      return Dispatch([SetFullMarketData(marketData)], false);
    }
    var dispatched: seq<Action> := [];
    while k < |updates|
      invariant 0 <= k <= |updates|
      invariant Incremental(updates[..k]) == Dispatch(dispatched, false)
    {
      assert updates[..k + 1][..k] == updates[..k];
      var update := updates[k];
      if update.Null? {
        assert updates == updates[..k + 1] + updates[k + 1..];
        IncrementalThrewStays(updates[..k + 1], updates[k + 1..]);
        return Dispatch(dispatched, true);
      }
      if update.Obj? && UseWebSocket.TokenOf(update.fields).Some? {
        dispatched := dispatched + [UpdateMarketData(update.fields["token"].s, Get(update.fields, "data"))];
      }
      k := k + 1;
    }
    assert updates[..k] == updates;
    return Dispatch(dispatched, false);
  }

  lemma {:induction false} FullMapNoneStays(a: seq<Value>, b: seq<Value>, now: int)
    requires FullMap(a, now).None?
    ensures FullMap(a + b, now).None?
  {
    if b == [] {
      assert a + b == a;
    } else {
      assert (a + b)[..|a + b| - 1] == a + b[..|b| - 1];
      FullMapNoneStays(a, b[..|b| - 1], now);
    }
  }

  lemma {:induction false} IncrementalThrewStays(a: seq<Value>, b: seq<Value>)
    requires Incremental(a).threw
    ensures Incremental(a + b) == Incremental(a)
  {
    if b == [] {
      assert a + b == a;
    } else {
      assert (a + b)[..|a + b| - 1] == a + b[..|b| - 1];
      IncrementalThrewStays(a, b[..|b| - 1]);
    }
  }

  /** The full-state map has an entry exactly for the tokens the updates
      name. */
  lemma {:induction false} FullMapKeys(us: seq<Value>, now: int)
    ensures FullMap(us, now).Some? ==> FullMap(us, now).value.Keys == UseWebSocket.NamedTokens(us)
  {
    if us != [] {
      var front := us[..|us| - 1];
      FullMapKeys(front, now);
      if FullMap(us, now).Some? {
        forall t | t in UseWebSocket.NamedTokens(us)
          ensures t in UseWebSocket.NamedTokens(front) + UseWebSocket.TokenOfSet(us[|us| - 1])
        {
          var i :| 0 <= i < |us| && t in UseWebSocket.TokenOfSet(us[i]);
          if i < |front| {
            assert front[i] == us[i];
          }
        }
        forall t | t in UseWebSocket.NamedTokens(front)
          ensures t in UseWebSocket.NamedTokens(us)
        {
          var i :| 0 <= i < |front| && t in UseWebSocket.TokenOfSet(front[i]);
          assert us[i] == front[i];
        }
        assert UseWebSocket.TokenOfSet(us[|us| - 1]) <= UseWebSocket.NamedTokens(us);
      }
    } else {
      assert UseWebSocket.NamedTokens(us) == {};
    }
  }

  /** An entry of the full-state map is the last update naming its token:
      that update's `data` fields plus `lastUpdated`. */
  lemma {:induction false} FullMapEntry(us: seq<Value>, now: int, i: nat, t: string)
    requires i < |us| && UseWebSocket.Names(us[i], t)
    requires forall j :: i < j < |us| ==> !UseWebSocket.Names(us[j], t)
    requires FullMap(us, now).Some?
    ensures t in FullMap(us, now).value
    ensures FullMap(us, now).value[t] == Spread(SpreadOf(Get(us[i].fields, "data")), UseWebSocket.Stamped(now))
  {
    var front := us[..|us| - 1];
    if i < |us| - 1 {
      FullMapEntry(front, now, i, t);
    }
  }

  /** The actions a run of server tick deltas dispatches: an
      `updateMarketData` with no data for each update with a token. */
  function TickActions(ts: seq<TickUpdate>): seq<Action>
  {
    if ts == [] then []
    else
      var last := ts[|ts| - 1];
      TickActions(ts[..|ts| - 1]) + (if last.token != "" then [UpdateMarketData(last.token, None)] else [])
  }

  lemma {:induction false} DeltaDispatch(ts: seq<TickUpdate>, vs: seq<Value>)
    requires |vs| == |ts|
    requires forall i :: 0 <= i < |vs| ==> vs[i] == TickJson(ts[i])
    ensures Incremental(vs) == Dispatch(TickActions(ts), false)
  {
    if ts != [] {
      DeltaDispatch(ts[..|ts| - 1], vs[..|vs| - 1]);
    }
  }

  /** The tokens that get a stamp. */
  function StampedTokens(ts: seq<TickUpdate>): set<string>
  {
    set i | 0 <= i < |ts| && ts[i].token != "" :: ts[i].token
  }

  lemma StampedTokensSplit(ts: seq<TickUpdate>)
    requires ts != []
    ensures var last := ts[|ts| - 1];
      StampedTokens(ts) == StampedTokens(ts[..|ts| - 1]) + (if last.token != "" then {last.token} else {})
  {
    var front, last := ts[..|ts| - 1], ts[|ts| - 1];
    forall t | t in StampedTokens(ts)
      ensures t in StampedTokens(front) + (if last.token != "" then {last.token} else {})
    {
      var i :| 0 <= i < |ts| && ts[i].token != "" && ts[i].token == t;
      if i < |front| {
        assert front[i] == ts[i];
      }
    }
    forall t | t in StampedTokens(front)
      ensures t in StampedTokens(ts)
    {
      var i :| 0 <= i < |front| && front[i].token != "" && front[i].token == t;
      assert ts[i] == front[i];
    }
  }

  /** Stamping an entry that was already stamped at the same time changes
      nothing. */
  lemma StampTwice(m: map<string, Fields>, m0: map<string, Fields>, t: string, now: int)
    requires t in m && m[t] == MergedEntry(m0, t, None, now)
    ensures MergedEntry(m, t, None, now) == m[t]
  {
    var e := MergedEntry(m, t, None, now);
    assert e.Keys == m[t].Keys;
    forall k | k in e
      ensures e[k] == m[t][k]
    {
    }
  }

  /** `r` is `s` with the entries of `tokens` stamped at `now`. */
  ghost predicate StampedFrom(s: StoreState, r: StoreState, tokens: set<string>, now: int)
  {
    && r.(marketData := s.marketData) == s
    && r.marketData.Keys == s.marketData.Keys + tokens
    && (forall t :: t in s.marketData && t !in tokens ==> r.marketData[t] == s.marketData[t])
    && (forall t :: t in tokens ==> r.marketData[t] == MergedEntry(s.marketData, t, None, now))
  }

  /** One more stamping action extends the stamped set by its token. */
  lemma StampStep(s: StoreState, mid: StoreState, tokens: set<string>, t: string, now: int)
    requires StampedFrom(s, mid, tokens, now)
    ensures StampedFrom(s, Reduce(mid, UpdateMarketData(t, None), now), tokens + {t}, now)
  {
    ReduceStamp(mid, t, now);
    if t in tokens {
      StampTwice(mid.marketData, s.marketData, t, now);
    } else if t in s.marketData {
      assert mid.marketData[t] == s.marketData[t];
    } else {
      assert t !in mid.marketData;
    }
    assert MergedEntry(mid.marketData, t, None, now) == MergedEntry(s.marketData, t, None, now);
  }

  lemma ReduceStamp(s: StoreState, t: string, now: int)
    ensures Reduce(s, UpdateMarketData(t, None), now) == s.(marketData := s.marketData[t := MergedEntry(s.marketData, t, None, now)])
  {
  }

  lemma {:induction false} TickActionsStamp(s: StoreState, ts: seq<TickUpdate>, now: int)
    ensures StampedFrom(s, ReduceAll(s, TickActions(ts), now), StampedTokens(ts), now)
  {
    if ts == [] {
      assert StampedTokens(ts) == {};
    } else {
      var front, last := ts[..|ts| - 1], ts[|ts| - 1];
      TickActionsStamp(s, front, now);
      StampedTokensSplit(ts);
      var acts, fa := TickActions(ts), TickActions(front);
      if last.token != "" {
        assert acts[..|acts| - 1] == fa && acts[|acts| - 1] == UpdateMarketData(last.token, None);
        StampStep(s, ReduceAll(s, fa, now), StampedTokens(front), last.token, now);
      } else {
        assert acts == fa;
      }
    }
  }

  /** Stamping with no data changes an entry's `lastUpdated` only. */
  lemma StampOnlyTouchesLastUpdated(m: map<string, Fields>, t: string, now: int)
    ensures var e := MergedEntry(m, t, None, now);
      forall k :: k != "lastUpdated" ==>
        && (k in e <==> t in m && k in m[t])
        && (k in e ==> e[k] == m[t][k])
  {
  }

  /** Server tick deltas carry no `data`, so after the middleware and the
      reducer have handled one, the entries of its tokens differ from before
      only in `lastUpdated`, and nothing else in the store changes. */
  lemma DeltaOnlyStamps(s: StoreState, ts: seq<TickUpdate>, now: int)
    ensures var d := MarketDataSpec(Encode(Delta(ts)), now);
      && !d.threw
      && var r := ReduceAll(s, d.actions, now);
      && r.(marketData := s.marketData) == s
      && r.marketData.Keys == s.marketData.Keys + StampedTokens(ts)
      && (forall t :: t in s.marketData && t !in StampedTokens(ts) ==> r.marketData[t] == s.marketData[t])
      && (forall t, k :: t in StampedTokens(ts) && k != "lastUpdated" ==>
            (k in r.marketData[t] <==> t in s.marketData && k in s.marketData[t])
            && (k in r.marketData[t] ==> r.marketData[t][k] == s.marketData[t][k]))
  {
    var m := Encode(Delta(ts));
    DeltaDispatch(ts, m["data"].items);
    assert MarketDataSpec(m, now) == Dispatch(TickActions(ts), false);
    var r := ReduceAll(s, TickActions(ts), now);
    TickActionsStamp(s, ts, now);
    forall t | t in StampedTokens(ts)
      ensures forall k :: k != "lastUpdated" ==>
        (k in r.marketData[t] <==> t in s.marketData && k in s.marketData[t])
        && (k in r.marketData[t] ==> r.marketData[t][k] == s.marketData[t][k])
    {
      StampOnlyTouchesLastUpdated(s.marketData, t, now);
    }
  }

  /** The four listeners the middleware registers. */
  datatype Listeners = Listeners(onOpen: HandlerId, onClose: HandlerId, onMessage: HandlerId, onError: HandlerId)

  /** The handler lists after the one-time registration. */
  function Registered(hs: map<string, seq<HandlerId>>, l: Listeners): (r: map<string, seq<HandlerId>>)
    requires "open" in hs && "close" in hs && "message" in hs && "error" in hs
    ensures r.Keys == hs.Keys
    ensures r["open"] == hs["open"] + [l.onOpen] && r["close"] == hs["close"] + [l.onClose]
    ensures r["message"] == hs["message"] + [l.onMessage] && r["error"] == hs["error"] + [l.onError]
    ensures forall e :: e in hs && e !in {"open", "close", "message", "error"} ==> r[e] == hs[e]
  {
    hs["open" := hs["open"] + [l.onOpen]]["close" := hs["close"] + [l.onClose]]
      ["message" := hs["message"] + [l.onMessage]]["error" := hs["error"] + [l.onError]]
  }

  class WebSocketMiddleware {
    const service: WebSocketService
    const listeners: Listeners
    var isInitialized: bool

    constructor (service: WebSocketService, listeners: Listeners)
      ensures this.service == service && this.listeners == listeners && !isInitialized
    {
      this.service := service;
      this.listeners := listeners;
      isInitialized := false;
    }

    /** The closure's first-call registration. */
    method EnsureListeners()
      requires service.Valid()
      modifies this`isInitialized, service`handlers
      ensures service.Valid() && isInitialized
      ensures old(isInitialized) ==> service.handlers == old(service.handlers)
      ensures !old(isInitialized) ==> service.handlers == Registered(old(service.handlers), listeners)
    {
      if !isInitialized {
        isInitialized := true;
        service.On("open", listeners.onOpen);
        service.On("close", listeners.onClose);
        service.On("message", listeners.onMessage);
        service.On("error", listeners.onError);
      }
    }

    /** `(action) => { ...; return next(action) }`: registers the listeners
        once, routes an intent to the service, and forwards the action
        unchanged. `creationFails` stands for whether a connect's socket
        constructor throws. */
    method Dispatch(action: Action, creationFails: bool) returns (forwarded: Action)
      requires service.Valid()
      modifies this`isInitialized, service
      ensures service.Valid() && isInitialized
      ensures forwarded == action
      ensures old(isInitialized) ==> service.handlers == old(service.handlers)
      ensures !old(isInitialized) ==> service.handlers == Registered(old(service.handlers), listeners)
      ensures !action.IsIntent() ==>
        service.TransportKept() && service.sent == old(service.sent)
        && service.pendingSubscriptions == old(service.pendingSubscriptions)
      ensures action.ConnectWebSocket? ==> service.ConnectEffect(creationFails)
      ensures action.DisconnectWebSocket? ==> service.DisconnectEffect()
      ensures action.SubscribeTokens? || action.UnsubscribeTokens? ==> service.TransportKept()
      ensures action.SubscribeTokens? && (Falsy(action.tokens) || action.tokens == Many([])) ==>
        service.sent == old(service.sent) && service.pendingSubscriptions == old(service.pendingSubscriptions)
      ensures action.SubscribeTokens? && !Falsy(action.tokens) && action.tokens != Many([]) && service.IsConnected() ==>
        service.sent == old(service.sent) + [(service.socket.value, SubscribeMsg(TokenArray(action.tokens)))]
        && service.pendingSubscriptions == old(service.pendingSubscriptions)
      ensures action.SubscribeTokens? && !Falsy(action.tokens) && action.tokens != Many([]) && !service.IsConnected() ==>
        service.sent == old(service.sent)
        && service.pendingSubscriptions == old(service.pendingSubscriptions) + Elems(TokenArray(action.tokens))
      ensures action.UnsubscribeTokens? && Falsy(action.tokens) ==>
        service.sent == old(service.sent) && service.pendingSubscriptions == old(service.pendingSubscriptions)
      ensures action.UnsubscribeTokens? && !Falsy(action.tokens) ==>
        service.pendingSubscriptions == old(service.pendingSubscriptions) - Elems(TokenArray(action.tokens))
      ensures action.UnsubscribeTokens? && !Falsy(action.tokens) && service.IsConnected() ==>
        service.sent == old(service.sent) + [(service.socket.value, UnsubscribeMsg(TokenArray(action.tokens)))]
      ensures action.UnsubscribeTokens? && !Falsy(action.tokens) && !service.IsConnected() ==>
        service.sent == old(service.sent)
    {
      EnsureListeners();
      match action {
        case ConnectWebSocket => service.Connect(creationFails);
        case DisconnectWebSocket => service.Disconnect();
        case SubscribeTokens(tokens) => service.Subscribe(tokens);
        case UnsubscribeTokens(tokens) => service.Unsubscribe(tokens);
        case _ =>
      }
      forwarded := action;
    }

    /** The "open" listener: the store hears OPEN, and non-empty stored
        subscriptions are re-sent through the service. */
    method OnOpen(storedSubscriptions: seq<Token>) returns (dispatched: seq<Action>)
      modifies service`sent, service`pendingSubscriptions
      ensures dispatched == [SetConnectionState(Num(Open.Code() as real))]
      ensures storedSubscriptions == [] ==>
        service.sent == old(service.sent) && service.pendingSubscriptions == old(service.pendingSubscriptions)
      ensures storedSubscriptions != [] && service.IsConnected() ==>
        service.sent == old(service.sent) + [(service.socket.value, SubscribeMsg(storedSubscriptions))]
      ensures storedSubscriptions != [] && !service.IsConnected() ==>
        service.sent == old(service.sent)
        && service.pendingSubscriptions == old(service.pendingSubscriptions) + Elems(storedSubscriptions)
    {
      dispatched := [SetConnectionState(Num(Open.Code() as real))];
      if |storedSubscriptions| > 0 {
        service.Subscribe(Many(storedSubscriptions));
      }
    }
  }

  /** The "close" listener. */
  function OnClose(): (r: seq<Action>)
    ensures r == [SetConnectionState(Num(Closed.Code() as real))]
  {
    [SetConnectionState(Num(3.0))]
  }

  /** The "message" listener: market data goes through handleMarketData, an
      error message becomes `setError`, anything else dispatches nothing. */
  function OnMessage(message: Fields, now: int): (r: Dispatch)
    ensures Get(message, "type") == Some(Str("marketData")) ==> r == MarketDataSpec(message, now)
    ensures Get(message, "type") == Some(Str("error")) ==>
      r == Dispatch([SetError(if Truthy(Get(message, "error")) then message["error"]
                              else Str("Unknown WebSocket error"))], false)
    ensures Get(message, "type") != Some(Str("marketData")) && Get(message, "type") != Some(Str("error")) ==>
      r == Dispatch([], false)
  {
    match Get(message, "type")
    case Some(Str("marketData")) => MarketDataSpec(message, now)
    case Some(Str("error")) =>
      Dispatch([SetError(if Truthy(Get(message, "error")) then message["error"] else Str("Unknown WebSocket error"))], false)
    case _ => Dispatch([], false)
  }

  /** The "error" listener: `error.message || "WebSocket error"`. */
  function OnError(errMessage: Option<Value>): (r: Action)
    ensures r.SetError?
    ensures Truthy(errMessage) ==> r.payload == errMessage.value
    ensures !Truthy(errMessage) ==> r.payload == Str("WebSocket error")
  {
    SetError(if Truthy(errMessage) then errMessage.value else Str("WebSocket error"))
  }
}
