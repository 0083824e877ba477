/** The React hook of frontend/src/hooks/useWebSocket.js: its local state (a
    value, replaced by each setter) and the calls it makes into the browser's
    connection service. The market-data merge is `HandleMarketData`, proved
    against the fold `MergeAll`. */
module UseWebSocket {
  import opened Common
  import opened ClientSocket
  import opened Market
  import opened Protocol

  /** The hook's `marketData`: token → merged entry. */
  type MarketMap = map<string, Fields>

  /** What one `handleMarketData` call does to the map: nothing, a new map, or
      a TypeError thrown inside the state updater. */
  datatype Merge = Ignored | Merged(data: MarketMap) | Threw

  const LAST_UPDATED: string := "lastUpdated"

  /** `{ lastUpdated: new Date() }`. */
  function Stamped(now: int): Fields
  {
    map[LAST_UPDATED := Stamp(now)]
  }

  /** `newData[token] || {}` (entries are always objects). */
  function EntryOr(m: MarketMap, t: string): Fields
  {
    if t in m then m[t] else map[]
  }

  /** The non-empty string token an update names, if any. */
  function TokenOf(f: Fields): Option<string>
  {
    if "token" in f && f["token"].Str? && f["token"].s != "" then Some(f["token"].s) else None
  }

  /** `type === "option" || type === "underlying"`. */
  predicate IsTyped(f: Fields)
  {
    Get(f, "type") == Some(Str("option")) || Get(f, "type") == Some(Str("underlying"))
  }

  /** One update applied to the map being built. A typed update creates or
      merges its entry from its `data`; an untyped one merges the whole update,
      but only for a token known before the message or in a full state. */
  function MergeFields(prev: MarketMap, isFull: bool, now: int, acc: MarketMap, f: Fields): (r: MarketMap)
    ensures acc.Keys <= r.Keys <= acc.Keys + TokenOfSet(Obj(f))
    ensures forall t :: t in acc && TokenOf(f) != Some(t) ==> r[t] == acc[t]
    ensures TokenOf(f).Some? && !IsTyped(f) && TokenOf(f).value !in prev && !isFull ==> r == acc
  {
    match TokenOf(f)
    case None => acc
    case Some(t) =>
      if IsTyped(f) then acc[t := Spread(Spread(EntryOr(acc, t), SpreadOf(Get(f, "data"))), Stamped(now))]
      else if t in prev || isFull then acc[t := Spread(Spread(EntryOr(acc, t), f), Stamped(now))]
      else acc
  }

  /** Destructuring `null` throws; other non-objects have no `token`. */
  function MergeStep(prev: MarketMap, isFull: bool, now: int, acc: MarketMap, u: Value): (r: Option<MarketMap>)
    ensures r.None? <==> u.Null?
    ensures !u.Obj? && !u.Null? ==> r == Some(acc)
  {
    match u
    case Null => None
    case Obj(f) => Some(MergeFields(prev, isFull, now, acc, f))
    case _ => Some(acc)
  }

  /** The forEach over the updates, from `start`; `None` once one throws. */
  function MergeAll(prev: MarketMap, isFull: bool, now: int, start: MarketMap, us: seq<Value>): (r: Option<MarketMap>)
    ensures r.None? <==> HasNull(us)
  {
    if us == [] then Some(start)
    else
      HasNullSnoc(us);
      match MergeAll(prev, isFull, now, start, us[..|us| - 1])
      case None => None
      case Some(acc) => MergeStep(prev, isFull, now, acc, us[|us| - 1])
  }

  /** Some update is `null`: destructuring it throws. */
  predicate HasNull(us: seq<Value>)
  {
    exists i :: 0 <= i < |us| && us[i].Null?
  }

  lemma HasNullSnoc(us: seq<Value>)
    requires us != []
    ensures HasNull(us) <==> HasNull(us[..|us| - 1]) || us[|us| - 1].Null?
  {
    if HasNull(us) && !us[|us| - 1].Null? {
      var i :| 0 <= i < |us| && us[i].Null?;
      assert us[..|us| - 1][i].Null?;
    }
    if HasNull(us[..|us| - 1]) {
      var i :| 0 <= i < |us| - 1 && us[..|us| - 1][i].Null?;
      assert us[i].Null?;
    }
  }

  /** handleMarketData on a parsed message: ignored without a truthy `data`;
      a full state builds from empty, an incremental one from a copy of the
      previous map. */
  function MarketDataSpec(prev: MarketMap, message: Fields, now: int): (r: Merge)
    ensures r.Ignored? <==> !Truthy(Get(message, "data"))
    ensures r.Merged? && !Truthy(Get(message, "isFullState")) ==> prev.Keys <= r.data.Keys
  {
    if !Truthy(Get(message, "data")) then Ignored
    else
      match message["data"]
      case Arr(us) =>
        var isFull := Truthy(Get(message, "isFullState"));
        (match MergeAll(prev, isFull, now, if isFull then map[] else prev, us)
         case None => Threw
         case Some(m) =>
           MergeKeys(prev, isFull, now, if isFull then map[] else prev, us);
           Merged(m))
      case _ => Threw
  }

  /** handleMarketData, as the source's loop. */
  method HandleMarketData(prev: MarketMap, message: Fields, now: int) returns (r: Merge)
    ensures r == MarketDataSpec(prev, message, now)
  {
    if !Truthy(Get(message, "data")) {
      return Ignored;
    }
    if !message["data"].Arr? {
      assert MarketDataSpec(prev, message, now) == Threw;
      return Threw;
    }
    var updates := message["data"].items;
    var isFullState := Truthy(Get(message, "isFullState"));
    var newData: MarketMap := if isFullState then map[] else prev;
    var k := 0;
    while k < |updates|
      invariant 0 <= k <= |updates|
      invariant MergeAll(prev, isFullState, now, if isFullState then map[] else prev, updates[..k]) == Some(newData)
    {
      assert updates[..k + 1][..k] == updates[..k];
      var update := updates[k];
      if update.Null? {
        assert HasNull(updates);
        return Threw;
      }
      ghost var acc := newData;
      if update.Obj? {
        var f := update.fields;
        if "token" in f && f["token"].Str? && f["token"].s != "" {
          var token := f["token"].s;
          if IsTyped(f) {
            newData := newData[token := Spread(Spread(EntryOr(newData, token), SpreadOf(Get(f, "data"))), Stamped(now))];
          } else if token in prev || isFullState {
            newData := newData[token := Spread(Spread(EntryOr(newData, token), f), Stamped(now))];
          }
        }
      }
      assert MergeStep(prev, isFullState, now, acc, update) == Some(newData);
      k := k + 1;
    }
    assert updates[..k] == updates;
    return Merged(newData);
  }

  /** `u` names token `t`. */
  predicate Names(u: Value, t: string)
  {
    u.Obj? && TokenOf(u.fields) == Some(t)
  }

  /** The tokens some update of `us` names. */
  ghost function NamedTokens(us: seq<Value>): set<string>
  {
    set i, t | 0 <= i < |us| && t in TokenOfSet(us[i]) :: t
  }

  function TokenOfSet(u: Value): set<string>
  {
    if u.Obj? && TokenOf(u.fields).Some? then {TokenOf(u.fields).value} else {}
  }

  /** Merging keeps every key it starts from and adds only tokens the updates
      name. */
  lemma {:induction false} MergeKeys(prev: MarketMap, isFull: bool, now: int, start: MarketMap, us: seq<Value>)
    ensures MergeAll(prev, isFull, now, start, us).Some? ==>
      start.Keys <= MergeAll(prev, isFull, now, start, us).value.Keys <= start.Keys + NamedTokens(us)
  {
    if us != [] {
      var front := us[..|us| - 1];
      MergeKeys(prev, isFull, now, start, front);
      assert forall t :: t in NamedTokens(front) ==> t in NamedTokens(us) by {
        forall t | t in NamedTokens(front)
          ensures t in NamedTokens(us)
        {
          var i :| 0 <= i < |front| && t in TokenOfSet(front[i]);
          assert us[i] == front[i];
        }
      }
      assert TokenOfSet(us[|us| - 1]) <= NamedTokens(us);
    }
  }

  /** A full-state message leaves exactly entries for tokens it names. */
  lemma FullStateKeys(prev: MarketMap, message: Fields, now: int)
    requires Truthy(Get(message, "isFullState"))
    requires MarketDataSpec(prev, message, now).Merged?
    ensures MarketDataSpec(prev, message, now).data.Keys <= NamedTokens(message["data"].items)
  {
    MergeKeys(prev, true, now, map[], message["data"].items);
  }

  /** An entry no update names is left as it was. */
  lemma {:induction false} MergeUntouched(prev: MarketMap, isFull: bool, now: int, start: MarketMap,
                                          us: seq<Value>, t: string)
    requires t in start
    requires forall i :: 0 <= i < |us| ==> !Names(us[i], t)
    ensures MergeAll(prev, isFull, now, start, us).Some? ==>
      t in MergeAll(prev, isFull, now, start, us).value && MergeAll(prev, isFull, now, start, us).value[t] == start[t]
  {
    if us != [] {
      MergeUntouched(prev, isFull, now, start, us[..|us| - 1], t);
      MergeKeys(prev, isFull, now, start, us[..|us| - 1]);
    }
  }

  /** In an incremental message, an entry for a token no update names is kept
      unchanged. */
  lemma IncrementalKeepsUntouched(prev: MarketMap, message: Fields, now: int, t: string)
    requires !Truthy(Get(message, "isFullState"))
    requires MarketDataSpec(prev, message, now).Merged?
    requires t in prev
    requires forall i :: 0 <= i < |message["data"].items| ==> !Names(message["data"].items[i], t)
    ensures MarketDataSpec(prev, message, now).data[t] == prev[t]
  {
    MergeUntouched(prev, false, now, prev, message["data"].items, t);
  }

  /** Without a typed update for it, an incremental message never adds a token
      that was not already in the map. */
  lemma {:induction false} UntypedUnknownDropped(prev: MarketMap, now: int, start: MarketMap, us: seq<Value>, t: string)
    requires t !in prev && t !in start
    requires forall i :: 0 <= i < |us| ==> !(Names(us[i], t) && IsTyped(us[i].fields))
    ensures MergeAll(prev, false, now, start, us).Some? ==> t !in MergeAll(prev, false, now, start, us).value
  {
    if us != [] {
      UntypedUnknownDropped(prev, now, start, us[..|us| - 1], t);
    }
  }

  /** Merging two runs of updates is merging the second from the first's
      result. */
  lemma {:induction false} MergeAppend(prev: MarketMap, isFull: bool, now: int, start: MarketMap,
                                       a: seq<Value>, b: seq<Value>)
    ensures MergeAll(prev, isFull, now, start, a + b) ==
      match MergeAll(prev, isFull, now, start, a)
      case None => None
      case Some(m) => MergeAll(prev, isFull, now, m, b)
  {
    if b == [] {
      assert a + b == a;
    } else {
      assert (a + b)[..|a + b| - 1] == a + b[..|b| - 1];
      MergeAppend(prev, isFull, now, start, a, b[..|b| - 1]);
      if MergeAll(prev, isFull, now, start, a).None? {
        NoneStays(prev, isFull, now, start, a, b);
      }
    }
  }

  lemma {:induction false} NoneStays(prev: MarketMap, isFull: bool, now: int, start: MarketMap, a: seq<Value>, b: seq<Value>)
    requires MergeAll(prev, isFull, now, start, a).None?
    ensures MergeAll(prev, isFull, now, start, a + b).None?
  {
    if b == [] {
      assert a + b == a;
    } else {
      assert (a + b)[..|a + b| - 1] == a + b[..|b| - 1];
      NoneStays(prev, isFull, now, start, a, b[..|b| - 1]);
    }
  }

  /** The entry of the last update naming `t` is what that update's own step
      made of it: the merge up to it did not throw, and no later update
      touches the entry. */
  lemma LastNamingStep(prev: MarketMap, isFull: bool, now: int, start: MarketMap, us: seq<Value>, i: nat, t: string)
    requires i < |us| && Names(us[i], t)
    requires forall j :: i < j < |us| ==> !Names(us[j], t)
    requires MergeAll(prev, isFull, now, start, us).Some?
    ensures MergeAll(prev, isFull, now, start, us[..i]).Some?
    ensures var step := MergeFields(prev, isFull, now, MergeAll(prev, isFull, now, start, us[..i]).value, us[i].fields);
      t in step ==> t in MergeAll(prev, isFull, now, start, us).value && MergeAll(prev, isFull, now, start, us).value[t] == step[t]
  {
    var head, tail := us[..i + 1], us[i + 1..];
    assert us == head + tail;
    MergeAppend(prev, isFull, now, start, head, tail);
    assert head[..|head| - 1] == us[..i];
    var mid := MergeAll(prev, isFull, now, start, head);
    if mid.None? {
      NoneStays(prev, isFull, now, start, head, tail);
    } else {
      if MergeAll(prev, isFull, now, start, us[..i]).Some? {
        var step := MergeFields(prev, isFull, now, MergeAll(prev, isFull, now, start, us[..i]).value, us[i].fields);
        if t in step {
          MergeUntouched(prev, isFull, now, mid.value, tail, t);
        }
      }
    }
  }

  /** A typed update that is the last to name its token leaves that entry
      holding every field of its `data` (except `lastUpdated`), a fresh
      `lastUpdated`, and every other field the entry had before it. */
  lemma TypedUpdateMerged(prev: MarketMap, isFull: bool, now: int, start: MarketMap, us: seq<Value>, i: nat, t: string)
    requires i < |us| && Names(us[i], t) && IsTyped(us[i].fields)
    requires forall j :: i < j < |us| ==> !Names(us[j], t)
    requires MergeAll(prev, isFull, now, start, us).Some?
    ensures var m := MergeAll(prev, isFull, now, start, us).value;
      && t in m && LAST_UPDATED in m[t] && m[t][LAST_UPDATED] == Stamp(now)
      && (forall k :: k in SpreadOf(Get(us[i].fields, "data")) && k != LAST_UPDATED ==>
           k in m[t] && m[t][k] == SpreadOf(Get(us[i].fields, "data"))[k])
      && MergeAll(prev, isFull, now, start, us[..i]).Some?
      && var before := EntryOr(MergeAll(prev, isFull, now, start, us[..i]).value, t);
         forall k :: k in before && k !in SpreadOf(Get(us[i].fields, "data")) && k != LAST_UPDATED ==>
           k in m[t] && m[t][k] == before[k]
  {
    LastNamingStep(prev, isFull, now, start, us, i, t);
  }

  /** An update without a type that is the last to name a token known before
      the message (or that sits in a full state) leaves that entry holding
      every field of the update itself (except `lastUpdated`), a fresh
      `lastUpdated`, and every other field the entry had before it. */
  lemma UntypedUpdateMerged(prev: MarketMap, isFull: bool, now: int, start: MarketMap, us: seq<Value>, i: nat, t: string)
    requires i < |us| && Names(us[i], t) && !IsTyped(us[i].fields) && (t in prev || isFull)
    requires forall j :: i < j < |us| ==> !Names(us[j], t)
    requires MergeAll(prev, isFull, now, start, us).Some?
    ensures var m := MergeAll(prev, isFull, now, start, us).value;
      && t in m && LAST_UPDATED in m[t] && m[t][LAST_UPDATED] == Stamp(now)
      && (forall k :: k in us[i].fields && k != LAST_UPDATED ==> k in m[t] && m[t][k] == us[i].fields[k])
      && MergeAll(prev, isFull, now, start, us[..i]).Some?
      && var before := EntryOr(MergeAll(prev, isFull, now, start, us[..i]).value, t);
         forall k :: k in before && k !in us[i].fields && k != LAST_UPDATED ==> k in m[t] && m[t][k] == before[k]
  {
    LastNamingStep(prev, isFull, now, start, us, i, t);
  }

  /** A merge of objects none of which is a typed update for `t` or carries
      field `k` leaves field `k` of `t`'s entry as it was. */
  lemma {:induction false} FieldKept(prev: MarketMap, isFull: bool, now: int, start: MarketMap, us: seq<Value>, t: string, k: string)
    requires t in start && k in start[t] && k != LAST_UPDATED
    requires forall i :: 0 <= i < |us| ==> us[i].Obj?
    requires forall i :: 0 <= i < |us| && Names(us[i], t) ==> !IsTyped(us[i].fields) && k !in us[i].fields
    ensures MergeAll(prev, isFull, now, start, us).Some?
    ensures var m := MergeAll(prev, isFull, now, start, us).value; t in m && k in m[t] && m[t][k] == start[t][k]
  {
    if us != [] {
      var front := us[..|us| - 1];
      FieldKept(prev, isFull, now, start, front, t, k);
      MergeKeys(prev, isFull, now, start, front);
    }
  }

  /** The properties a tick update carries. */
  const TICK_FIELDS: set<string> := {"token", "previousPrice", "currentPrice", "percentChange"}

  /** `us` are the parsed updates of the tick updates `ts`: one object
      without a type per tick update, carrying exactly the tick update's
      properties and naming its token. */
  ghost predicate TickItems(ts: seq<TickUpdate>, us: seq<Value>)
  {
    && |us| == |ts|
    && (forall i :: 0 <= i < |us| ==>
          us[i] == TickJson(ts[i]) && us[i].Obj? && !IsTyped(us[i].fields) && us[i].fields.Keys == TICK_FIELDS)
    && (forall i, t :: 0 <= i < |us| ==> (Names(us[i], t) <==> ts[i].token == t && t != ""))
  }

  lemma DeltaItems(ts: seq<TickUpdate>)
    ensures var m := Encode(Delta(ts));
      && Truthy(Get(m, "data")) && !Truthy(Get(m, "isFullState")) && m["data"].Arr?
      && TickItems(ts, m["data"].items)
  {
  }

  /** The merge of a tick delta's updates, as `HookDeltaMerge` states it. */
  lemma DeltaMergeFacts(prev: MarketMap, ts: seq<TickUpdate>, us: seq<Value>, now: int)
    requires TickItems(ts, us)
    ensures MergeAll(prev, false, now, prev, us).Some?
    ensures var r := MergeAll(prev, false, now, prev, us).value;
      && r.Keys == prev.Keys
      && (forall t :: t in prev && (forall i :: 0 <= i < |ts| ==> ts[i].token != t) ==> r[t] == prev[t])
      && (forall t, k :: t in prev && k in prev[t] && k != LAST_UPDATED && k !in TICK_FIELDS ==>
            k in r[t] && r[t][k] == prev[t][k])
  {
    assert !HasNull(us);
    var r := MergeAll(prev, false, now, prev, us).value;
    MergeKeys(prev, false, now, prev, us);
    forall t | t in r
      ensures t in prev
    {
      if t !in prev {
        UntypedUnknownDropped(prev, now, prev, us, t);
      }
    }
    forall t | t in prev && (forall i :: 0 <= i < |ts| ==> ts[i].token != t)
      ensures r[t] == prev[t]
    {
      MergeUntouched(prev, false, now, prev, us, t);
    }
    forall t, k | t in prev && k in prev[t] && k != LAST_UPDATED && k !in TICK_FIELDS
      ensures k in r[t] && r[t][k] == prev[t][k]
    {
      FieldKept(prev, false, now, prev, us, t, k);
    }
  }

  /** The entry named by the last tick update for its token, in a merge of
      a tick delta's updates. */
  lemma DeltaNamedFacts(prev: MarketMap, ts: seq<TickUpdate>, us: seq<Value>, now: int)
    requires TickItems(ts, us)
    requires MergeAll(prev, false, now, prev, us).Some?
    ensures var r := MergeAll(prev, false, now, prev, us).value;
      forall i :: LastTick(ts, i) && ts[i].token in prev ==>
        && ts[i].token in r && LAST_UPDATED in r[ts[i].token] && r[ts[i].token][LAST_UPDATED] == Stamp(now)
        && forall k :: k in TickJson(ts[i]).fields ==> k in r[ts[i].token] && r[ts[i].token][k] == TickJson(ts[i]).fields[k]
  {
    forall i | LastTick(ts, i) && ts[i].token in prev
      ensures var r := MergeAll(prev, false, now, prev, us).value;
        && ts[i].token in r && LAST_UPDATED in r[ts[i].token] && r[ts[i].token][LAST_UPDATED] == Stamp(now)
        && forall k :: k in TickJson(ts[i]).fields ==> k in r[ts[i].token] && r[ts[i].token][k] == TickJson(ts[i]).fields[k]
    {
      UntypedUpdateMerged(prev, false, now, prev, us, i, ts[i].token);
    }
  }

  /** A server tick delta through the hook: nothing is thrown, no token is
      added or removed, an entry the delta does not name stays as it was, a
      named entry takes the fields of the last update naming it and a fresh
      `lastUpdated`, and every field a tick update does not carry is kept. */
  lemma HookDeltaMerge(prev: MarketMap, ts: seq<TickUpdate>, now: int)
    ensures var r := MarketDataSpec(prev, Encode(Delta(ts)), now);
      && r.Merged?
      && r.data.Keys == prev.Keys
      && (forall t :: t in prev && (forall i :: 0 <= i < |ts| ==> ts[i].token != t) ==> r.data[t] == prev[t])
      && (forall i :: LastTick(ts, i) && ts[i].token in prev ==>
            && LAST_UPDATED in r.data[ts[i].token] && r.data[ts[i].token][LAST_UPDATED] == Stamp(now)
            && forall k :: k in TickJson(ts[i]).fields ==>
                 k in r.data[ts[i].token] && r.data[ts[i].token][k] == TickJson(ts[i]).fields[k])
      && (forall t, k :: t in prev && k in prev[t] && k != LAST_UPDATED && k !in TICK_FIELDS ==>
            k in r.data[t] && r.data[t][k] == prev[t][k])
  {
    var m := Encode(Delta(ts));
    DeltaItems(ts);
    var us := m["data"].items;
    DeltaMergeFacts(prev, ts, us, now);
    DeltaNamedFacts(prev, ts, us, now);
    assert MarketDataSpec(prev, m, now) == Merged(MergeAll(prev, false, now, prev, us).value);
  }

  /** `ts[i]` is the last tick update for its (non-empty) token. */
  predicate LastTick(ts: seq<TickUpdate>, i: int)
  {
    0 <= i < |ts| && ts[i].token != "" && forall j :: i < j < |ts| ==> ts[j].token != ts[i].token
  }

  // ------------------------------------------------------------ hook state

  /** The hook's useState variables. */
  datatype HookState = HookState(
    connectionState: ReadyState,
    isConnecting: bool,
    subscriptions: set<Token>,
    lastMessage: Option<Fields>,
    marketData: MarketMap,
    error: Option<Value>,
    reconnectAttempt: int)

  function InitialHookState(): HookState
  {
    HookState(Closed, false, {}, None, map[], None, 0)
  }

  /** connect: marks the hook connecting and asks the service to connect. */
  method Connect(s: HookState, service: WebSocketService, creationFails: bool) returns (r: HookState)
    requires service.Valid()
    modifies service
    ensures service.Valid() && service.handlers == old(service.handlers)
    ensures service.ConnectEffect(creationFails)
    ensures r == s.(isConnecting := true, error := None)
  {
    service.Connect(creationFails);
    r := s.(isConnecting := true, error := None);
  }

  /** disconnect: the service disconnects; the hook forgets its
      subscriptions and market data and reports CLOSED. */
  method Disconnect(s: HookState, service: WebSocketService) returns (r: HookState)
    requires service.Valid()
    modifies service
    ensures service.Valid() && service.handlers == old(service.handlers)
    ensures service.DisconnectEffect() && service.socket.None?
    ensures r == s.(isConnecting := false, connectionState := Closed, subscriptions := {}, marketData := map[])
  {
    service.Disconnect();
    r := s.(isConnecting := false, connectionState := Closed, subscriptions := {}, marketData := map[]);
  }

  /** subscribe: ignores falsy input and the empty array; otherwise the tokens
      join the local set whether or not connected, and go to the service only
      while it is connected. */
  method Subscribe(s: HookState, service: WebSocketService, tokens: TokenArg) returns (r: HookState)
    modifies service`sent, service`pendingSubscriptions
    ensures Falsy(tokens) || tokens == Many([]) ==>
      r == s && service.sent == old(service.sent) && service.pendingSubscriptions == old(service.pendingSubscriptions)
    ensures !Falsy(tokens) && tokens != Many([]) ==>
      r == s.(subscriptions := s.subscriptions + Elems(TokenArray(tokens)))
    ensures !Falsy(tokens) && tokens != Many([]) && service.IsConnected() ==>
      service.sent == old(service.sent) + [(service.socket.value, SubscribeMsg(TokenArray(tokens)))]
    ensures !service.IsConnected() ==>
      service.sent == old(service.sent) && service.pendingSubscriptions == old(service.pendingSubscriptions)
  {
    if Falsy(tokens) || tokens == Many([]) {
      return s;
    }
    var tokenArray := TokenArray(tokens);
    if service.IsConnected() {
      service.Subscribe(Many(tokenArray));
    }
    r := s.(subscriptions := s.subscriptions + Elems(tokenArray));
  }

  /** unsubscribe: ignores falsy input; otherwise the tokens always leave the
      local set, and the service hears of it only while connected. */
  method Unsubscribe(s: HookState, service: WebSocketService, tokens: TokenArg) returns (r: HookState)
    modifies service`sent, service`pendingSubscriptions
    ensures Falsy(tokens) ==>
      r == s && service.sent == old(service.sent) && service.pendingSubscriptions == old(service.pendingSubscriptions)
    ensures !Falsy(tokens) ==> r == s.(subscriptions := s.subscriptions - Elems(TokenArray(tokens)))
    ensures !Falsy(tokens) && service.IsConnected() ==>
      service.sent == old(service.sent) + [(service.socket.value, UnsubscribeMsg(TokenArray(tokens)))]
    ensures !service.IsConnected() ==>
      service.sent == old(service.sent) && service.pendingSubscriptions == old(service.pendingSubscriptions)
  {
    if Falsy(tokens) {
      return s;
    }
    var tokenArray := TokenArray(tokens);
    if service.IsConnected() {
      service.Unsubscribe(Many(tokenArray));
    }
    r := s.(subscriptions := s.subscriptions - Elems(tokenArray));
  }

  /** The hook's "open" handler: reports OPEN, clears the error and the
      attempt count, and re-sends a non-empty subscription set as one
      subscribe. */
  method HandleOpen(s: HookState, service: WebSocketService) returns (r: HookState)
    modifies service`sent, service`pendingSubscriptions
    ensures r == s.(connectionState := Open, isConnecting := false, error := None, reconnectAttempt := 0)
    ensures s.subscriptions == {} ==>
      service.sent == old(service.sent) && service.pendingSubscriptions == old(service.pendingSubscriptions)
    ensures s.subscriptions != {} && !service.IsConnected() ==>
      service.sent == old(service.sent) && service.pendingSubscriptions == old(service.pendingSubscriptions) + s.subscriptions
    ensures s.subscriptions != {} && service.IsConnected() ==>
      && service.pendingSubscriptions == old(service.pendingSubscriptions)
      && exists ts :: Elems(ts) == s.subscriptions && NoDup(ts)
           && service.sent == old(service.sent) + [(service.socket.value, SubscribeMsg(ts))]
  {
    r := s.(connectionState := Open, isConnecting := false, error := None, reconnectAttempt := 0);
    if |s.subscriptions| > 0 {
      var tokens := SetToSeq(s.subscriptions);
      assert tokens != [] by {
        var t :| t in s.subscriptions;
        assert t in Elems(tokens);
      }
      service.Subscribe(Many(tokens));
    }
  }

  /** The hook's "close" handler. */
  function HandleClose(s: HookState): (r: HookState)
    ensures r.connectionState == Closed && !r.isConnecting
    ensures r.subscriptions == s.subscriptions && r.marketData == s.marketData
  {
    s.(connectionState := Closed, isConnecting := false)
  }

  /** The hook's "message" handler: remembers the message, merges market
      data, records a server error. A merge that throws (`Threw`) is given
      here as no change to the map; in the hook the exception escapes the
      state updater into the render, which this model does not follow. */
  function HandleMessage(s: HookState, message: Fields, now: int): (r: HookState)
    ensures r.lastMessage == Some(message)
    ensures r.subscriptions == s.subscriptions && r.connectionState == s.connectionState
    ensures Get(message, "type") != Some(Str("marketData")) ==> r.marketData == s.marketData
    ensures Get(message, "type") == Some(Str("error")) ==>
      r.error == Some(if Truthy(Get(message, "error")) then message["error"] else Str("Unknown error from server"))
  {
    var s1 := s.(lastMessage := Some(message));
    match Get(message, "type")
    case Some(Str("marketData")) =>
      (match MarketDataSpec(s.marketData, message, now)
       case Merged(m) => s1.(marketData := m)
       case _ => s1)
    case Some(Str("error")) =>
      s1.(error := Some(if Truthy(Get(message, "error")) then message["error"] else Str("Unknown error from server")))
    case _ => s1
  }

  /** The hook's "reconnect" handler: `data.attempt || 0`. */
  function HandleReconnect(s: HookState, data: EventData): (r: HookState)
    requires data.Reconnecting? || data.ReconnectFailed?
    ensures r.reconnectAttempt == data.attempt
    ensures r.(reconnectAttempt := s.reconnectAttempt) == s
  {
    s.(reconnectAttempt := data.attempt)
  }

  /** The hook's "error" handler: `err.message || "WebSocket error occurred"`.
      The transport's error event carries no message; a connection attempt
      that throws passes its exception, which does. */
  function HandleError(s: HookState, errMessage: Option<Value>): (r: HookState)
    ensures Truthy(errMessage) ==> r.error == errMessage
    ensures !Truthy(errMessage) ==> r.error == Some(Str("WebSocket error occurred"))
    ensures !r.isConnecting && r.(error := s.error, isConnecting := s.isConnecting) == s
  {
    s.(error := if Truthy(errMessage) then errMessage else Some(Str("WebSocket error occurred")), isConnecting := false)
  }

  /** sendPing: a ping goes out only while the service is connected. */
  method SendPing(service: WebSocketService, now: int)
    modifies service`sent
    ensures service.IsConnected() ==> service.sent == old(service.sent) + [(service.socket.value, PingMsg(now))]
    ensures !service.IsConnected() ==> service.sent == old(service.sent)
  {
    if service.IsConnected() {
      var _ := service.Send(PingMsg(now));
    }
  }
}
