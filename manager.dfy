/** The server's connection registry and broadcaster, class WebSocketManager of
    backend/websocket/manager.js. Each connection has a transport (`sockets`:
    its readyState and the frames sent on it) and, while registered, an entry
    in `clients` (its subscription set and last heartbeat). Timers are explicit
    events: `BroadcastDataUpdates` is one firing of the update interval and
    `CheckConnections` one firing of the 30-second sweep; the clock, the random
    draws and the new prices are parameters. */
module Manager {
  import opened Common
  import opened Pricing
  import opened Market
  import opened Protocol
  import opened DataGenerator

  type ClientId = string

  /** The `tokens` property of a request: an array, or anything else. */
  datatype TokensField = TokenArray(tokens: seq<Token>) | NotAnArray

  /** A parsed client request, by its `type`. */
  datatype Request =
    | Subscribe(tokens: TokensField)
    | Unsubscribe(tokens: TokensField)
    | Ping
    | Unknown(kind: string)

  /** An inbound frame; `Unparsable` is one that JSON.parse rejects. */
  datatype Frame = Unparsable | Parsed(request: Request)

  /** The transport of one connection: its readyState and the frames sent. */
  datatype Socket = Socket(readyState: ReadyState, outbox: seq<ServerMessage>)

  /** The registry entry of one connection. */
  datatype ClientData = ClientData(subscriptions: set<Token>, lastPing: int)

  /** A connection silent for longer than this many milliseconds is evicted. */
  const HEARTBEAT_TIMEOUT: int := 60000

  const INVALID_TOKENS: string := "Invalid tokens format, expected array"

  /** sendMessage: a frame goes out only on an OPEN transport. */
  function Deliver(s: Socket, m: ServerMessage): Socket
  {
    if s.readyState == Open then s.(outbox := s.outbox + [m]) else s
  }

  function OptionTokens(options: seq<OptionEntry>): seq<Token>
  {
    seq(|options|, i requires 0 <= i < |options| => options[i].token)
  }

  function UnderlyingTokens(underlyings: seq<UnderlyingEntry>): seq<Token>
  {
    seq(|underlyings|, i requires 0 <= i < |underlyings| => underlyings[i].token)
  }

  /** No later entry has the same token: this one is what `Map.set` keeps. */
  predicate LastOption(options: seq<OptionEntry>, i: int)
    requires 0 <= i < |options|
  {
    forall j :: i < j < |options| ==> options[j].token != options[i].token
  }

  predicate LastUnderlying(underlyings: seq<UnderlyingEntry>, i: int)
    requires 0 <= i < |underlyings|
  {
    forall j :: i < j < |underlyings| ==> underlyings[j].token != underlyings[i].token
  }

  /** The caches are keyed by each entry's own token; the order sequences
      list the keys once each, in the Map's insertion order. */
  ghost predicate CacheValid(options: map<Token, OptionEntry>, optionOrder: seq<Token>,
                             underlyings: map<Token, UnderlyingEntry>, underlyingOrder: seq<Token>)
  {
    && NoDup(optionOrder) && Elems(optionOrder) == options.Keys
    && (forall t :: t in options ==> options[t].token == t)
    && NoDup(underlyingOrder) && Elems(underlyingOrder) == underlyings.Keys
    && (forall t :: t in underlyings ==> underlyings[t].token == t)
  }

  /** Math.ceil(optionCount * 0.1), the number of options updated per tick. */
  function UpdateCount(optionCount: nat): (c: nat)
    ensures c <= optionCount
    ensures 10 * c >= optionCount && 10 * c < optionCount + 10
  {
    (optionCount + 9) / 10
  }

  // ---------------------------------------------------------------- snapshots

  /** `e` belongs to the full-state snapshot of `subs`: an option entry for a
      subscribed token in the option cache, an underlying entry for one in the
      underlying cache. */
  predicate InSnapshot(e: SnapshotEntry, subs: set<Token>,
                       options: map<Token, OptionEntry>, underlyings: map<Token, UnderlyingEntry>)
  {
    && e.token in subs
    && match e
       case OptionSnap(t, o) => t in options && o == options[t]
       case UnderlyingSnap(t, u) => t in underlyings && u == underlyings[t]
  }

  /** The entries of a snapshot message: each cached state of a subscribed
      token exactly once; unknown tokens contribute nothing. */
  ghost predicate IsSnapshot(es: seq<SnapshotEntry>, subs: set<Token>,
                             options: map<Token, OptionEntry>, underlyings: map<Token, UnderlyingEntry>)
  {
    && NoDup(es)
    && forall e :: e in es <==> InSnapshot(e, subs, options, underlyings)
  }

  // ------------------------------------------------------------------- ticks

  /** The mutation of one cached option by a tick update: new price and change,
      the tick time, and the moneyness against the new underlying price. */
  function ApplyTick(o: OptionEntry, u: TickUpdate, underlyingPrice: real, now: int): OptionEntry
  {
    o.(currentPrice := u.currentPrice, percentChange := u.percentChange, updatedAt := now,
       moneyness := GetMoneyness(o.strike, underlyingPrice, o.optionType))
  }

  /** The option cache after applying `updates` in order; updates for tokens
      not in the cache are skipped. */
  function ApplyUpdates(cache: map<Token, OptionEntry>, updates: seq<TickUpdate>,
                        underlyingPrice: real, now: int): (r: map<Token, OptionEntry>)
    ensures r.Keys == cache.Keys
    ensures forall t :: t in r ==> r[t].token == cache[t].token
  {
    if updates == [] then cache
    else
      var c := ApplyUpdates(cache, updates[..|updates| - 1], underlyingPrice, now);
      var u := updates[|updates| - 1];
      if u.token in c then c[u.token := ApplyTick(c[u.token], u, underlyingPrice, now)] else c
  }

  predicate TokensDistinct(updates: seq<TickUpdate>)
  {
    forall i, j :: 0 <= i < j < |updates| ==> updates[i].token != updates[j].token
  }

  /** A cached option that no update names is left as it was. */
  lemma {:induction false} ApplyUpdatesUntouched(cache: map<Token, OptionEntry>, updates: seq<TickUpdate>,
                                                 underlyingPrice: real, now: int, t: Token)
    requires t in cache
    requires forall i :: 0 <= i < |updates| ==> updates[i].token != t
    ensures ApplyUpdates(cache, updates, underlyingPrice, now)[t] == cache[t]
  {
    if updates != [] {
      ApplyUpdatesUntouched(cache, updates[..|updates| - 1], underlyingPrice, now, t);
    }
  }

  /** With distinct tokens, the option an update names ends up as that update
      applied to its old entry. */
  lemma {:induction false} ApplyUpdatesTouched(cache: map<Token, OptionEntry>, updates: seq<TickUpdate>,
                                               underlyingPrice: real, now: int, k: nat)
    requires k < |updates| && updates[k].token in cache
    requires TokensDistinct(updates)
    ensures ApplyUpdates(cache, updates, underlyingPrice, now)[updates[k].token]
         == ApplyTick(cache[updates[k].token], updates[k], underlyingPrice, now)
  {
    var front := updates[..|updates| - 1];
    if k == |updates| - 1 {
      ApplyUpdatesUntouched(cache, front, underlyingPrice, now, updates[k].token);
    } else {
      ApplyUpdatesTouched(cache, front, underlyingPrice, now, k);
    }
  }

  /** The updates among `updates` whose token is subscribed, in order. */
  function Relevant(updates: seq<TickUpdate>, subs: set<Token>): (r: seq<TickUpdate>)
    ensures |r| <= |updates|
    ensures forall u :: u in r <==> u in updates && u.token in subs
  {
    if updates == [] then []
    else
      var last := updates[|updates| - 1];
      Relevant(updates[..|updates| - 1], subs) + (if last.token in subs then [last] else [])
  }

  /** The delta one client gets in a tick: its subscribed option updates, then
      the underlying update if it subscribes to the underlying. */
  function DeltaFor(subs: set<Token>, optionUpdates: seq<TickUpdate>, underlyingUpdate: TickUpdate): (d: seq<TickUpdate>)
    ensures forall u :: u in d <==> (u in optionUpdates || u == underlyingUpdate) && u.token in subs
    ensures d == [] <==> underlyingUpdate.token !in subs && forall u :: u in optionUpdates ==> u.token !in subs
  {
    var rel := Relevant(optionUpdates, subs);
    assert rel != [] ==> rel[0] in rel;
    rel + (if underlyingUpdate.token in subs then [underlyingUpdate] else [])
  }

  /** Sending a tick delta: nothing when it is empty. */
  function TickSocket(s: Socket, d: seq<TickUpdate>): Socket
  {
    if |d| > 0 then Deliver(s, Delta(d)) else s
  }

  /** The transports after a tick's fan-out: registered clients get their
      delta, other transports are untouched. */
  function BroadcastSockets(sockets: map<ClientId, Socket>, clients: map<ClientId, ClientData>,
                            optionUpdates: seq<TickUpdate>, underlyingUpdate: TickUpdate): map<ClientId, Socket>
  {
    map c | c in sockets ::
      if c in clients then TickSocket(sockets[c], DeltaFor(clients[c].subscriptions, optionUpdates, underlyingUpdate))
      else sockets[c]
  }

  /** Once a client has unsubscribed from a token, no tick delta it receives
      carries an update for that token, whoever else subscribes to it. */
  lemma UnsubscribedNeverDelivered(subs: set<Token>, removed: seq<Token>, optionUpdates: seq<TickUpdate>,
                                   underlyingUpdate: TickUpdate, u: TickUpdate)
    requires u in DeltaFor(subs - Elems(removed), optionUpdates, underlyingUpdate)
    ensures u.token !in removed
  {
  }

  // ------------------------------------------------------------------- sweep

  predicate Stale(d: ClientData, now: int)
  {
    now - d.lastPing > HEARTBEAT_TIMEOUT
  }

  /** The registry after a sweep: exactly the clients heard from within the
      timeout, unchanged. */
  function Survivors(clients: map<ClientId, ClientData>, now: int): (r: map<ClientId, ClientData>)
    ensures r.Keys <= clients.Keys
    ensures forall c :: c in r ==> r[c] == clients[c] && !Stale(r[c], now)
    ensures forall c :: c in clients && !Stale(clients[c], now) ==> c in r
  {
    map c | c in clients && !Stale(clients[c], now) :: clients[c]
  }

  /** The transports after a sweep: evicted clients whose transport was OPEN
      are closing; every other transport is untouched. */
  function CloseStale(sockets: map<ClientId, Socket>, clients: map<ClientId, ClientData>, now: int): (r: map<ClientId, Socket>)
    ensures r.Keys == sockets.Keys
    ensures forall c :: c in r ==> r[c].outbox == sockets[c].outbox
    ensures forall c :: c in r && r[c] != sockets[c] ==>
      sockets[c].readyState == Open && r[c].readyState == Closing && c in clients && Stale(clients[c], now)
  {
    map c | c in sockets ::
      if c in clients && Stale(clients[c], now) && sockets[c].readyState == Open
      then sockets[c].(readyState := Closing) else sockets[c]
  }

  // --------------------------------------------------- request handling rules

  /** handleSubscribe on a registered client: an error frame for a non-array
      payload, otherwise the union of the tokens into its subscriptions and a
      full-state snapshot of the whole set if its transport is OPEN. */
  ghost predicate SubscribeEffect(c0: map<ClientId, ClientData>, s0: map<ClientId, Socket>,
                                  c1: map<ClientId, ClientData>, s1: map<ClientId, Socket>,
                                  id: ClientId, tokens: TokensField,
                                  options: map<Token, OptionEntry>, underlyings: map<Token, UnderlyingEntry>)
    requires id in c0 && id in s0
  {
    match tokens
    case NotAnArray =>
      c1 == c0 && s1 == s0[id := Deliver(s0[id], Error(INVALID_TOKENS))]
    case TokenArray(ts) =>
      var subs := c0[id].subscriptions + Elems(ts);
      && c1 == c0[id := c0[id].(subscriptions := subs)]
      && if s0[id].readyState == Open then
           exists es :: IsSnapshot(es, subs, options, underlyings)
                        && s1 == s0[id := s0[id].(outbox := s0[id].outbox + [FullState(es)])]
         else s1 == s0
  }

  /** handleUnsubscribe on a registered client: an error frame for a non-array
      payload, otherwise the set difference and an "unsubscribed"
      acknowledgement echoing the tokens (no market data). */
  ghost predicate UnsubscribeEffect(c0: map<ClientId, ClientData>, s0: map<ClientId, Socket>,
                                    c1: map<ClientId, ClientData>, s1: map<ClientId, Socket>,
                                    id: ClientId, tokens: TokensField)
    requires id in c0 && id in s0
  {
    match tokens
    case NotAnArray =>
      c1 == c0 && s1 == s0[id := Deliver(s0[id], Error(INVALID_TOKENS))]
    case TokenArray(ts) =>
      && c1 == c0[id := c0[id].(subscriptions := c0[id].subscriptions - Elems(ts))]
      && s1 == s0[id := Deliver(s0[id], Unsubscribed(ts))]
  }

  /** A second subscribe to the same tokens leaves the registry as the first
      left it; on an OPEN transport it only sends one more snapshot, of the
      same set, and otherwise nothing. */
  lemma SubscribeIdempotent(c0: map<ClientId, ClientData>, s0: map<ClientId, Socket>,
                            c1: map<ClientId, ClientData>, s1: map<ClientId, Socket>,
                            c2: map<ClientId, ClientData>, s2: map<ClientId, Socket>,
                            id: ClientId, ts: seq<Token>,
                            options: map<Token, OptionEntry>, underlyings: map<Token, UnderlyingEntry>)
    requires id in c0 && id in s0
    requires SubscribeEffect(c0, s0, c1, s1, id, TokenArray(ts), options, underlyings)
    requires id in c1 && id in s1
    requires SubscribeEffect(c1, s1, c2, s2, id, TokenArray(ts), options, underlyings)
    ensures c2 == c1 && c2[id].subscriptions == c0[id].subscriptions + Elems(ts)
    ensures s0[id].readyState != Open ==> s2 == s1 == s0
    ensures s0[id].readyState == Open ==>
      exists e1, e2 :: IsSnapshot(e1, c1[id].subscriptions, options, underlyings)
        && IsSnapshot(e2, c1[id].subscriptions, options, underlyings)
        && s2 == s0[id := s0[id].(outbox := s0[id].outbox + [FullState(e1), FullState(e2)])]
  {
    var subs := c0[id].subscriptions + Elems(ts);
    assert c1 == c0[id := c0[id].(subscriptions := subs)];
    assert subs + Elems(ts) == subs;
    assert c1[id].(subscriptions := subs) == c1[id];
    if s0[id].readyState == Open {
      var e1 :| IsSnapshot(e1, subs, options, underlyings)
        && s1 == s0[id := s0[id].(outbox := s0[id].outbox + [FullState(e1)])];
      assert s1[id].readyState == Open;
      var e2 :| IsSnapshot(e2, subs, options, underlyings)
        && s2 == s1[id := s1[id].(outbox := s1[id].outbox + [FullState(e2)])];
      assert s0[id].outbox + [FullState(e1)] + [FullState(e2)] == s0[id].outbox + [FullState(e1), FullState(e2)];
      assert s2 == s0[id := s0[id].(outbox := s0[id].outbox + [FullState(e1), FullState(e2)])];
    } else {
      assert s1 == s0;
    }
  }

  /** The option updates of a tick: one per distinct chosen position of the
      cache listing, each from a draw, priced by the new price drawn for that
      position; their tokens are then distinct. */
  ghost predicate Chosen(indices: seq<nat>, updates: seq<TickUpdate>, order: seq<Token>,
                         cache: map<Token, OptionEntry>, draws: seq<nat>, newPrices: seq<real>)
  {
    && |updates| == |indices| && |newPrices| == |order|
    && NoDup(indices) && TokensDistinct(updates)
    && forall j :: 0 <= j < |indices| ==>
         && indices[j] < |order| && indices[j] in draws && order[indices[j]] in cache
         && updates[j] == OptionUpdate(cache[order[indices[j]]], newPrices[indices[j]])
  }

  lemma ChosenTokensDistinct(allOptions: seq<OptionEntry>, order: seq<Token>, cache: map<Token, OptionEntry>,
                             chosen: seq<nat>, updates: seq<TickUpdate>, draws: seq<nat>, newPrices: seq<real>)
    requires |allOptions| == |order| == |newPrices| && NoDup(order)
    requires forall i :: 0 <= i < |order| ==> order[i] in cache && allOptions[i] == cache[order[i]]
    requires forall t :: t in cache ==> cache[t].token == t
    requires |updates| == |chosen| && NoDup(chosen)
    requires forall j :: 0 <= j < |chosen| ==>
      && chosen[j] < |allOptions| && chosen[j] in draws
      && updates[j] == OptionUpdate(allOptions[chosen[j]], newPrices[chosen[j]])
    ensures Chosen(chosen, updates, order, cache, draws, newPrices)
  {
    forall i, j | 0 <= i < j < |updates|
      ensures updates[i].token != updates[j].token
    {
      assert updates[i].token == order[chosen[i]];
      assert updates[j].token == order[chosen[j]];
    }
  }

  class WebSocketManager {
    var sockets: map<ClientId, Socket>
    var clients: map<ClientId, ClientData>
    var optionsCache: map<Token, OptionEntry>
    var optionOrder: seq<Token>
    var underlyingCache: map<Token, UnderlyingEntry>
    var underlyingOrder: seq<Token>
    /** Whether the update interval is set (`updateInterval` non-null). */
    var updateTimerRunning: bool

    ghost predicate Valid()
      reads this
    {
      && clients.Keys <= sockets.Keys
      && CacheValid(optionsCache, optionOrder, underlyingCache, underlyingOrder)
    }

    twostate predicate CacheUnchanged()
      reads this
    {
      && optionsCache == old(optionsCache) && optionOrder == old(optionOrder)
      && underlyingCache == old(underlyingCache) && underlyingOrder == old(underlyingOrder)
    }

    /** A manager with no clients and no update timer, whose caches are then
        loaded from the stored options and underlyings (tokens are unique in
        the store). */
    constructor (options: seq<OptionEntry>, underlyings: seq<UnderlyingEntry>)
      requires NoDup(OptionTokens(options)) && NoDup(UnderlyingTokens(underlyings))
      ensures Valid()
      ensures clients == map[] && sockets == map[] && !updateTimerRunning
      ensures optionOrder == OptionTokens(options) && underlyingOrder == UnderlyingTokens(underlyings)
      ensures forall i :: 0 <= i < |options| ==> options[i].token in optionsCache && optionsCache[options[i].token] == options[i]
      ensures forall i :: 0 <= i < |underlyings| ==> underlyings[i].token in underlyingCache && underlyingCache[underlyings[i].token] == underlyings[i]
    {
      sockets := map[];
      clients := map[];
      optionsCache := map[];
      optionOrder := [];
      underlyingCache := map[];
      underlyingOrder := [];
      updateTimerRunning := false;
      new;
      LoadOptions(options);
      LoadUnderlyings(underlyings);
    }

    /** The options half of loadCacheData: `Map.set` of every stored option
        under its token, into the empty cache. */
    method LoadOptions(options: seq<OptionEntry>)
      requires optionsCache == map[] && optionOrder == []
      requires NoDup(OptionTokens(options))
      modifies this`optionsCache, this`optionOrder
      ensures CacheValid(optionsCache, optionOrder, map[], [])
      ensures optionOrder == OptionTokens(options)
      ensures forall i :: 0 <= i < |options| ==> options[i].token in optionsCache && optionsCache[options[i].token] == options[i]
    {
      var k := 0;
      while k < |options|
        invariant 0 <= k <= |options|
        invariant optionOrder == OptionTokens(options[..k])
        invariant optionsCache.Keys == Elems(optionOrder)
        invariant forall t :: t in optionsCache ==> optionsCache[t].token == t
        invariant forall i :: 0 <= i < k ==> options[i].token in optionsCache && optionsCache[options[i].token] == options[i]
      {
        var option := options[k];
        assert OptionTokens(options)[k] == option.token;
        assert forall i :: 0 <= i < k ==> OptionTokens(options)[i] == options[i].token;
        optionOrder := optionOrder + [option.token];
        optionsCache := optionsCache[option.token := option];
        assert OptionTokens(options[..k + 1]) == optionOrder;
        k := k + 1;
      }
      assert options[..k] == options;
      assert NoDup(OptionTokens(options)) && OptionTokens(options) == optionOrder;
    }

    /** The underlyings half of loadCacheData. */
    method LoadUnderlyings(underlyings: seq<UnderlyingEntry>)
      requires underlyingCache == map[] && underlyingOrder == []
      requires NoDup(UnderlyingTokens(underlyings))
      requires CacheValid(optionsCache, optionOrder, map[], [])
      modifies this`underlyingCache, this`underlyingOrder
      ensures CacheValid(optionsCache, optionOrder, underlyingCache, underlyingOrder)
      ensures underlyingOrder == UnderlyingTokens(underlyings)
      ensures forall i :: 0 <= i < |underlyings| ==> underlyings[i].token in underlyingCache && underlyingCache[underlyings[i].token] == underlyings[i]
    {
      var k := 0;
      while k < |underlyings|
        invariant 0 <= k <= |underlyings|
        invariant underlyingOrder == UnderlyingTokens(underlyings[..k])
        invariant underlyingCache.Keys == Elems(underlyingOrder)
        invariant forall t :: t in underlyingCache ==> underlyingCache[t].token == t
        invariant forall i :: 0 <= i < k ==> underlyings[i].token in underlyingCache && underlyingCache[underlyings[i].token] == underlyings[i]
      {
        var underlying := underlyings[k];
        assert UnderlyingTokens(underlyings)[k] == underlying.token;
        assert forall i :: 0 <= i < k ==> UnderlyingTokens(underlyings)[i] == underlyings[i].token;
        underlyingOrder := underlyingOrder + [underlying.token];
        underlyingCache := underlyingCache[underlying.token := underlying];
        assert UnderlyingTokens(underlyings[..k + 1]) == underlyingOrder;
        k := k + 1;
      }
      assert underlyings[..k] == underlyings;
      assert NoDup(UnderlyingTokens(underlyings)) && UnderlyingTokens(underlyings) == underlyingOrder;
    }

    /** startDataUpdates: sets the interval unless it is already set. */
    method StartDataUpdates()
      modifies this`updateTimerRunning
      ensures updateTimerRunning
    {
      if updateTimerRunning {
        return;
      }
      updateTimerRunning := true;
    }

    /** stopDataUpdates: clears the interval unless it is already clear. */
    method StopDataUpdates()
      modifies this`updateTimerRunning
      ensures !updateTimerRunning
    {
      if !updateTimerRunning {
        return;
      }
      updateTimerRunning := false;
    }

    /** sendMessage to the transport of `clientId`. */
    method SendMessage(clientId: ClientId, m: ServerMessage)
      requires clientId in sockets
      modifies this`sockets
      ensures sockets == old(sockets)[clientId := Deliver(old(sockets)[clientId], m)]
    {
      if sockets[clientId].readyState != Open {
        return;
      }
      sockets := sockets[clientId := sockets[clientId].(outbox := sockets[clientId].outbox + [m])];
    }

    /** The "connection" handler: registers the client with no subscriptions
        and a heartbeat of now, sends it one "connected" status carrying its
        id, and starts the update timer when it is the only client. */
    method OnConnection(clientId: ClientId, now: int)
      requires Valid()
      modifies this
      ensures Valid() && CacheUnchanged()
      ensures clients == old(clients)[clientId := ClientData({}, now)]
      ensures sockets == old(sockets)[clientId := Socket(Open, [Connected(clientId)])]
      ensures updateTimerRunning == (old(updateTimerRunning) || |clients| == 1)
    {
      sockets := sockets[clientId := Socket(Open, [])];
      clients := clients[clientId := ClientData({}, now)];
      SendMessage(clientId, Connected(clientId));
      assert [] + [Connected(clientId)] == [Connected(clientId)];
      if |clients| == 1 {
        StartDataUpdates();
      }
    }

    /** The transport's "error" handler: drops the client but, unlike
        handleClose, leaves the update timer running. */
    method OnTransportError(clientId: ClientId)
      requires Valid()
      modifies this`clients
      ensures Valid()
      ensures clients == old(clients) - {clientId}
    {
      clients := clients - {clientId};
    }

    /** handleClose: drops the client and stops the timer when none is left. */
    method HandleClose(clientId: ClientId)
      requires Valid()
      modifies this`clients, this`updateTimerRunning
      ensures Valid()
      ensures clients == old(clients) - {clientId}
      ensures updateTimerRunning == (old(updateTimerRunning) && |clients| > 0)
    {
      clients := clients - {clientId};
      if |clients| == 0 {
        StopDataUpdates();
      }
    }

    /** The full-state entries for a subscription set, token by token. */
    method SnapshotOf(subs: set<Token>) returns (entries: seq<SnapshotEntry>)
      ensures IsSnapshot(entries, subs, optionsCache, underlyingCache)
    {
      entries := [];
      var rest := subs;
      while rest != {}
        invariant rest <= subs
        invariant NoDup(entries)
        invariant forall e :: e in entries <==> InSnapshot(e, subs - rest, optionsCache, underlyingCache)
        decreases rest
      {
        var t :| t in rest;
        assert forall e :: e in entries ==> e.token != t;
        if t in optionsCache {
          entries := entries + [OptionSnap(t, optionsCache[t])];
        }
        if t in underlyingCache {
          entries := entries + [UnderlyingSnap(t, underlyingCache[t])];
        }
        rest := rest - {t};
      }
    }

    /** sendFullMarketState: one marketData message with isFullState, for an
        OPEN registered client. */
    method SendFullMarketState(clientId: ClientId)
      requires Valid()
      modifies this`sockets
      ensures Valid()
      ensures clientId !in clients || old(sockets)[clientId].readyState != Open ==> sockets == old(sockets)
      ensures clientId in clients && old(sockets)[clientId].readyState == Open ==>
        exists es :: IsSnapshot(es, clients[clientId].subscriptions, optionsCache, underlyingCache)
          && sockets == old(sockets)[clientId := old(sockets)[clientId].(outbox := old(sockets)[clientId].outbox + [FullState(es)])]
    {
      if clientId !in clients || sockets[clientId].readyState != Open {
        return;
      }
      var entries := SnapshotOf(clients[clientId].subscriptions);
      SendMessage(clientId, FullState(entries));
    }

    /** handleSubscribe. */
    method HandleSubscribe(clientId: ClientId, tokens: TokensField)
      requires Valid()
      modifies this`clients, this`sockets
      ensures Valid()
      ensures clientId !in old(clients) ==> clients == old(clients) && sockets == old(sockets)
      ensures clientId in old(clients) ==>
        SubscribeEffect(old(clients), old(sockets), clients, sockets, clientId, tokens, optionsCache, underlyingCache)
    {
      if clientId !in clients {
        return;
      }
      if tokens.NotAnArray? {
        SendMessage(clientId, Error(INVALID_TOKENS));
        return;
      }
      clients := clients[clientId := clients[clientId].(subscriptions := clients[clientId].subscriptions + Elems(tokens.tokens))];
      SendFullMarketState(clientId);
    }

    /** handleUnsubscribe. */
    method HandleUnsubscribe(clientId: ClientId, tokens: TokensField)
      requires Valid()
      modifies this`clients, this`sockets
      ensures Valid()
      ensures clientId !in old(clients) ==> clients == old(clients) && sockets == old(sockets)
      ensures clientId in old(clients) ==>
        UnsubscribeEffect(old(clients), old(sockets), clients, sockets, clientId, tokens)
    {
      if clientId !in clients {
        return;
      }
      if tokens.NotAnArray? {
        SendMessage(clientId, Error(INVALID_TOKENS));
        return;
      }
      clients := clients[clientId := clients[clientId].(subscriptions := clients[clientId].subscriptions - Elems(tokens.tokens))];
      SendMessage(clientId, Unsubscribed(tokens.tokens));
    }

    /** handlePing: a pong stamped now. */
    method HandlePing(clientId: ClientId, now: int)
      requires Valid()
      modifies this`sockets
      ensures Valid()
      ensures clientId !in clients ==> sockets == old(sockets)
      ensures clientId in clients ==> sockets == old(sockets)[clientId := Deliver(old(sockets)[clientId], Pong(now))]
    {
      if clientId !in clients {
        return;
      }
      SendMessage(clientId, Pong(now));
    }

    /** handleMessage: a frame from an unknown client or one that does not
        parse changes nothing; any parsed frame refreshes the heartbeat, then
        it is routed by its type. */
    method HandleMessage(clientId: ClientId, frame: Frame, now: int)
      requires Valid()
      modifies this`clients, this`sockets
      ensures Valid()
      ensures clientId !in old(clients) || frame.Unparsable? ==> clients == old(clients) && sockets == old(sockets)
      ensures clientId in old(clients) && frame.Parsed? ==>
        var c0 := old(clients)[clientId := old(clients)[clientId].(lastPing := now)];
        && clientId in clients && clients[clientId].lastPing == now
        && match frame.request
           case Subscribe(ts) =>
             SubscribeEffect(c0, old(sockets), clients, sockets, clientId, ts, optionsCache, underlyingCache)
           case Unsubscribe(ts) =>
             UnsubscribeEffect(c0, old(sockets), clients, sockets, clientId, ts)
           case Ping =>
             clients == c0 && sockets == old(sockets)[clientId := Deliver(old(sockets)[clientId], Pong(now))]
           case Unknown(_) =>
             clients == c0 && sockets == old(sockets)
    {
      if clientId !in clients {
        return;
      }
      if frame.Unparsable? {
        return;
      }
      clients := clients[clientId := clients[clientId].(lastPing := now)];
      match frame.request
      case Subscribe(ts) =>
        HandleSubscribe(clientId, ts);
      case Unsubscribe(ts) =>
        HandleUnsubscribe(clientId, ts);
      case Ping =>
        HandlePing(clientId, now);
      case Unknown(_) =>
    }

    /** checkConnections: evicts exactly the clients silent for more than
        60000 ms, closing those whose transport is still OPEN. It never stops
        the update timer. */
    method CheckConnections(now: int)
      requires Valid()
      modifies this`clients, this`sockets
      ensures Valid()
      ensures clients == Survivors(old(clients), now)
      ensures sockets == CloseStale(old(sockets), old(clients), now)
    {
      ghost var c0, s0 := clients, sockets;
      var live, transports := clients, sockets;
      var rest := live.Keys;
      while rest != {}
        invariant rest <= c0.Keys
        invariant live == map c | c in c0 && (c in rest || !Stale(c0[c], now)) :: c0[c]
        invariant transports.Keys == s0.Keys
        invariant forall c :: c in transports ==>
          transports[c] == (if c in c0 && c !in rest && Stale(c0[c], now) && s0[c].readyState == Open
                            then s0[c].(readyState := Closing) else s0[c])
        decreases rest
      {
        var c :| c in rest;
        if now - live[c].lastPing > HEARTBEAT_TIMEOUT {
          if transports[c].readyState == Open {
            transports := transports[c := transports[c].(readyState := Closing)];
          }
          live := live - {c};
        }
        rest := rest - {c};
      }
      clients, sockets := live, transports;
    }

    /** The options in cache order (`Array.from(optionsCache.values())`). */
    function AllOptions(): (r: seq<OptionEntry>)
      reads this
      requires Valid()
      ensures |r| == |optionOrder|
      ensures forall i :: 0 <= i < |r| ==> r[i] == optionsCache[optionOrder[i]]
    {
      var order, cache := optionOrder, optionsCache;
      assert forall i :: 0 <= i < |order| ==> order[i] in Elems(order);
      seq(|order|, i requires 0 <= i < |order| => cache[order[i]])
    }

    /** broadcastDataUpdates, one firing of the update interval: with no client
        it stops the timer; without an underlying it does nothing; otherwise it
        moves the underlying to `underlyingPrice`, updates ceil(10%) distinct
        options (chosen by `draws`, priced by `newPrices`) with moneyness
        against the new underlying price, and then sends every OPEN client the
        updates it subscribes to, if any. */
    method BroadcastDataUpdates(underlyingPrice: real, draws: seq<nat>, newPrices: seq<real>, now: int)
      returns (ghost indices: seq<nat>, ghost optionUpdates: seq<TickUpdate>)
      requires Valid()
      requires |newPrices| == |optionOrder|
      requires forall k :: 0 <= k < |draws| ==> draws[k] < |optionOrder|
      requires |Elems(draws)| >= UpdateCount(|optionOrder|)
      modifies this`sockets, this`optionsCache, this`underlyingCache, this`updateTimerRunning
      ensures Valid()
      ensures |clients| == 0 ==> !updateTimerRunning && sockets == old(sockets) && CacheUnchanged()
      ensures |clients| > 0 ==> updateTimerRunning == old(updateTimerRunning)
      ensures |clients| > 0 && underlyingOrder == [] ==> sockets == old(sockets) && CacheUnchanged()
      ensures |clients| > 0 && underlyingOrder != [] ==>
        TickEffect(old(sockets), old(optionsCache), old(underlyingCache), indices, optionUpdates,
                   underlyingPrice, draws, newPrices, now)
    {
      indices, optionUpdates := [], [];
      if |clients| == 0 {
        StopDataUpdates();
        return;
      }
      if |underlyingOrder| == 0 {
        return;
      }
      indices, optionUpdates := Tick(underlyingPrice, draws, newPrices, now);
    }

    /** The state after one tick, from the state before it: the first
        underlying moved to `underlyingPrice`; the chosen options updated in
        the cache; every registered client sent its delta. */
    ghost predicate TickEffect(sockets0: map<ClientId, Socket>, options0: map<Token, OptionEntry>,
                                  underlyings0: map<Token, UnderlyingEntry>,
                                  indices: seq<nat>, optionUpdates: seq<TickUpdate>,
                                  underlyingPrice: real, draws: seq<nat>, newPrices: seq<real>, now: int)
      reads this
    {
      && underlyingOrder != [] && underlyingOrder[0] in underlyings0
      && var u0 := underlyings0[underlyingOrder[0]];
         var underlyingUpdate := GenerateUnderlyingUpdate(u0, underlyingPrice);
         && underlyingCache == underlyings0[u0.token :=
              u0.(currentPrice := underlyingPrice, percentChange := underlyingUpdate.percentChange, updatedAt := now)]
         && |indices| == UpdateCount(|optionOrder|)
         && Chosen(indices, optionUpdates, optionOrder, options0, draws, newPrices)
         && optionsCache == ApplyUpdates(options0, optionUpdates, underlyingPrice, now)
         && sockets == BroadcastSockets(sockets0, clients, optionUpdates, underlyingUpdate)
    }

    method Tick(underlyingPrice: real, draws: seq<nat>, newPrices: seq<real>, now: int)
      returns (ghost indices: seq<nat>, ghost optionUpdates: seq<TickUpdate>)
      requires Valid() && underlyingOrder != []
      requires |newPrices| == |optionOrder|
      requires forall k :: 0 <= k < |draws| ==> draws[k] < |optionOrder|
      requires |Elems(draws)| >= UpdateCount(|optionOrder|)
      modifies this`sockets, this`optionsCache, this`underlyingCache
      ensures Valid()
      ensures TickEffect(old(sockets), old(optionsCache), old(underlyingCache), indices, optionUpdates,
                         underlyingPrice, draws, newPrices, now)
    {
      assert underlyingOrder[0] in Elems(underlyingOrder);
      var allOptions := AllOptions();
      var underlyingUpdate := UpdateUnderlying(underlyingPrice, now);
      var updateCount := UpdateCount(|allOptions|);
      var chosen, updates := GenerateRandomUpdates(allOptions, updateCount, draws, newPrices);
      indices, optionUpdates := chosen, updates;
      ChosenTokensDistinct(allOptions, optionOrder, optionsCache, chosen, updates, draws, newPrices);
      ApplyTicks(updates, underlyingPrice, now);
      FanOut(updates, underlyingUpdate);
    }

    /** The underlying half of a tick: the first cached underlying moves to
        `underlyingPrice`, stamped now. */
    method UpdateUnderlying(underlyingPrice: real, now: int) returns (underlyingUpdate: TickUpdate)
      requires Valid() && underlyingOrder != []
      modifies this`underlyingCache
      ensures Valid()
      ensures var u0 := old(underlyingCache)[underlyingOrder[0]];
        && underlyingUpdate == GenerateUnderlyingUpdate(u0, underlyingPrice)
        && underlyingCache == old(underlyingCache)[u0.token :=
             u0.(currentPrice := underlyingPrice, percentChange := underlyingUpdate.percentChange, updatedAt := now)]
    {
      assert underlyingOrder[0] in Elems(underlyingOrder);
      var underlying := underlyingCache[underlyingOrder[0]];
      underlyingUpdate := GenerateUnderlyingUpdate(underlying, underlyingPrice);
      underlying := underlying.(currentPrice := underlyingUpdate.currentPrice,
                                percentChange := underlyingUpdate.percentChange, updatedAt := now);
      underlyingCache := underlyingCache[underlying.token := underlying];
    }

    /** The cache half of a tick: each update, in order, mutates the option
        it names. */
    method ApplyTicks(updates: seq<TickUpdate>, underlyingPrice: real, now: int)
      requires Valid()
      modifies this`optionsCache
      ensures Valid()
      ensures optionsCache == ApplyUpdates(old(optionsCache), updates, underlyingPrice, now)
    {
      var k := 0;
      while k < |updates|
        invariant 0 <= k <= |updates|
        invariant optionsCache == ApplyUpdates(old(optionsCache), updates[..k], underlyingPrice, now)
        invariant Valid()
      {
        var update := updates[k];
        if update.token in optionsCache {
          var option := optionsCache[update.token];
          option := option.(currentPrice := update.currentPrice, percentChange := update.percentChange,
                            updatedAt := now,
                            moneyness := GetMoneyness(option.strike, underlyingPrice, option.optionType));
          optionsCache := optionsCache[update.token := option];
        }
        assert updates[..k + 1][..k] == updates[..k];
        k := k + 1;
      }
      assert updates[..|updates|] == updates;
    }

    /** The broadcast half of a tick: every OPEN registered client gets the
        option updates it subscribes to, then the underlying update if it
        subscribes to the underlying, in one delta; an empty delta is not sent. */
    method FanOut(updates: seq<TickUpdate>, underlyingUpdate: TickUpdate)
      requires Valid()
      modifies this`sockets
      ensures Valid()
      ensures sockets == BroadcastSockets(old(sockets), clients, updates, underlyingUpdate)
    {
      var rest := clients.Keys;
      while rest != {}
        invariant rest <= clients.Keys
        invariant sockets.Keys == old(sockets).Keys
        invariant forall c :: c in sockets ==>
          sockets[c] == (if c in clients && c !in rest
                         then TickSocket(old(sockets)[c], DeltaFor(clients[c].subscriptions, updates, underlyingUpdate))
                         else old(sockets)[c])
        decreases rest
      {
        var c :| c in rest;
        ghost var before := sockets;
        if sockets[c].readyState == Open {
          var delta := Relevant(updates, clients[c].subscriptions);
          if underlyingUpdate.token in clients[c].subscriptions {
            delta := delta + [underlyingUpdate];
          }
          assert delta == DeltaFor(clients[c].subscriptions, updates, underlyingUpdate);
          if |delta| > 0 {
            SendMessage(c, Delta(delta));
          }
        }
        assert sockets == before[c := TickSocket(before[c], DeltaFor(clients[c].subscriptions, updates, underlyingUpdate))];
        rest := rest - {c};
      }
    }
  }
}
