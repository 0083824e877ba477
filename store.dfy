/** The Redux slice of frontend/src/store/optionChainStore.js. Each reducer
    writes into an Immer draft; as a whole-state transition that is a function
    from the old state and the action to the new state. */
module Store {
  import opened Common
  import opened ClientSocket

  /** The slice's state. Fields the reducers only overwrite with a payload
      hold any JSON value; `marketData` maps a token to its merged entry. */
  datatype StoreState = StoreState(
    underlying: Value,
    options: Value,
    visibleStrikes: Value,
    allStrikes: Value,
    atmStrike: Value,
    isLoading: Value,
    error: Value,
    marketData: map<string, Fields>,
    subscriptions: seq<Token>,
    connectionState: Value)

  /** `initialState`. Its `connectionState` 0 is CONNECTING in the
      transport's readyState numbering. */
  function Initial(): (r: StoreState)
    ensures r.marketData == map[] && r.subscriptions == []
    ensures r.connectionState == Num(Connecting.Code() as real)
  {
    StoreState(Null, Arr([]), Arr([]), Arr([]), Null, Bool(false), Null, map[], [], Num(0.0))
  }

  /** The slice's actions with their payloads, plus any action of another
      slice. */
  datatype Action =
    | SetLoading(payload: Value)
    | SetError(payload: Value)
    | SetUnderlying(payload: Value)
    | SetOptions(payload: Value)
    | SetVisibleStrikes(payload: Value)
    | SetAllStrikes(payload: Value)
    | SetAtmStrike(payload: Value)
    | UpdateMarketData(token: string, data: Option<Value>)
    | SetFullMarketData(marketData: map<string, Fields>)
    | AddSubscription(token: Token)
    | RemoveSubscription(token: Token)
    | SetConnectionState(payload: Value)
    | ResetState
    | ConnectWebSocket
    | DisconnectWebSocket
    | SubscribeTokens(tokens: TokenArg)
    | UnsubscribeTokens(tokens: TokenArg)
    | Other(kind: string)
  {
    /** The four actions only the middleware acts on. */
    predicate IsIntent()
    {
      ConnectWebSocket? || DisconnectWebSocket? || SubscribeTokens? || UnsubscribeTokens?
    }

    /** The eight setters, which overwrite one field with their payload. */
    predicate IsSetter()
    {
      SetLoading? || SetError? || SetUnderlying? || SetOptions? || SetVisibleStrikes?
      || SetAllStrikes? || SetAtmStrike? || SetConnectionState?
    }
  }

  /** The fields a setter can write. */
  datatype Slot = UnderlyingSlot | OptionsSlot | VisibleStrikesSlot | AllStrikesSlot
                | AtmStrikeSlot | IsLoadingSlot | ErrorSlot | ConnectionStateSlot

  function Read(s: StoreState, slot: Slot): Value
  {
    match slot
    case UnderlyingSlot => s.underlying
    case OptionsSlot => s.options
    case VisibleStrikesSlot => s.visibleStrikes
    case AllStrikesSlot => s.allStrikes
    case AtmStrikeSlot => s.atmStrike
    case IsLoadingSlot => s.isLoading
    case ErrorSlot => s.error
    case ConnectionStateSlot => s.connectionState
  }

  /** The field a setter writes. */
  function SlotOf(a: Action): Slot
    requires a.IsSetter()
  {
    match a
    case SetLoading(_) => IsLoadingSlot
    case SetError(_) => ErrorSlot
    case SetUnderlying(_) => UnderlyingSlot
    case SetOptions(_) => OptionsSlot
    case SetVisibleStrikes(_) => VisibleStrikesSlot
    case SetAllStrikes(_) => AllStrikesSlot
    case SetAtmStrike(_) => AtmStrikeSlot
    case SetConnectionState(_) => ConnectionStateSlot
  }

  /** `updateMarketData`'s new entry: the old entry, then the data's fields,
      then the timestamp. */
  function MergedEntry(entries: map<string, Fields>, token: string, data: Option<Value>, now: int): (r: Fields)
    ensures "lastUpdated" in r && r["lastUpdated"] == Stamp(now)
    ensures forall k :: k in SpreadOf(data) && k != "lastUpdated" ==> k in r && r[k] == SpreadOf(data)[k]
    ensures token in entries ==>
      forall k :: k in entries[token] && k !in SpreadOf(data) && k != "lastUpdated" ==> k in r && r[k] == entries[token][k]
    ensures forall k :: k in r && k != "lastUpdated" ==> k in SpreadOf(data) || (token in entries && k in entries[token])
  {
    Spread(Spread(if token in entries then entries[token] else map[], SpreadOf(data)), map["lastUpdated" := Stamp(now)])
  }

  /** The slice reducer. */
  function Reduce(s: StoreState, a: Action, now: int): (r: StoreState)
    ensures a.IsIntent() || a.Other? ==> r == s
    ensures !(a.UpdateMarketData? || a.SetFullMarketData? || a.ResetState?) ==> r.marketData == s.marketData
    ensures !(a.AddSubscription? || a.RemoveSubscription? || a.ResetState?) ==> r.subscriptions == s.subscriptions
    ensures NoDup(s.subscriptions) ==> NoDup(r.subscriptions)
  {
    match a
    case SetLoading(p) => s.(isLoading := p)
    case SetError(p) => s.(error := p)
    case SetUnderlying(p) => s.(underlying := p)
    case SetOptions(p) => s.(options := p)
    case SetVisibleStrikes(p) => s.(visibleStrikes := p)
    case SetAllStrikes(p) => s.(allStrikes := p)
    case SetAtmStrike(p) => s.(atmStrike := p)
    case UpdateMarketData(t, d) => s.(marketData := s.marketData[t := MergedEntry(s.marketData, t, d, now)])
    case SetFullMarketData(m) => s.(marketData := m)
    case AddSubscription(t) =>
      if t in s.subscriptions then s
      else
        AppendKeepsNoDup(s.subscriptions, t);
        s.(subscriptions := s.subscriptions + [t])
    case RemoveSubscription(t) =>
      WithoutKeepsNoDup(s.subscriptions, t);
      s.(subscriptions := Without(s.subscriptions, t))
    case SetConnectionState(p) => s.(connectionState := p)
    case ResetState => Initial()
    case _ => s
  }

  /** Dispatching a run of actions, one after the other. */
  function ReduceAll(s: StoreState, actions: seq<Action>, now: int): (r: StoreState)
    ensures NoDup(s.subscriptions) ==> NoDup(r.subscriptions)
  {
    if actions == [] then s
    else Reduce(ReduceAll(s, actions[..|actions| - 1], now), actions[|actions| - 1], now)
  }

  lemma AppendKeepsNoDup(s: seq<Token>, t: Token)
    requires t !in s
    ensures NoDup(s) ==> NoDup(s + [t])
  {
  }

  lemma {:induction false} WithoutKeepsNoDup(s: seq<Token>, x: Token)
    ensures NoDup(s) ==> NoDup(Without(s, x))
  {
    if s != [] && NoDup(s) {
      var front, last := s[..|s| - 1], s[|s| - 1];
      assert NoDup(front);
      WithoutKeepsNoDup(front, x);
      if last != x {
        assert last !in front;
        WithoutCount(front, x);
        assert multiset(Without(front, x))[last] == 0;
        AppendKeepsNoDup(Without(front, x), last);
      }
    }
  }

  /** `addSubscription` adds its token to the set of subscriptions, appending
      it only when absent, so the list never holds a token twice. */
  lemma AddSubscriptionSpec(s: StoreState, t: Token, now: int)
    requires NoDup(s.subscriptions)
    ensures var r := Reduce(s, AddSubscription(t), now);
      && NoDup(r.subscriptions) && Elems(r.subscriptions) == Elems(s.subscriptions) + {t}
      && |r.subscriptions| == |s.subscriptions| + (if t in s.subscriptions then 0 else 1)
      && r.subscriptions[..|s.subscriptions|] == s.subscriptions
  {
  }

  /** Applying `removeSubscription` across a split list is applying it to each
      part: the kept tokens stay in their order. */
  lemma {:induction false} WithoutAppend(a: seq<Token>, b: seq<Token>, x: Token)
    ensures Without(a + b, x) == Without(a, x) + Without(b, x)
  {
    if b == [] {
      assert a + b == a;
    } else {
      assert (a + b)[..|a + b| - 1] == a + b[..|b| - 1];
      assert (a + b)[|a + b| - 1] == b[|b| - 1];
      WithoutAppend(a, b[..|b| - 1], x);
      assert Without(a, x) + Without(b[..|b| - 1], x) + (if b[|b| - 1] == x then [] else [b[|b| - 1]])
        == Without(a, x) + Without(b, x);
    }
  }

  /** A token that is not subscribed is removed without effect. */
  lemma {:induction false} WithoutAbsent(s: seq<Token>, x: Token)
    requires x !in s
    ensures Without(s, x) == s
  {
    if s != [] {
      assert s == s[..|s| - 1] + [s[|s| - 1]];
      WithoutAbsent(s[..|s| - 1], x);
    }
  }

  /** The tokens left after removing `x`. */
  lemma WithoutElems(s: seq<Token>, x: Token)
    ensures x !in Without(s, x)
    ensures Elems(Without(s, x)) == Elems(s) - {x}
  {
    var w := Without(s, x);
    WithoutCount(s, x);
    assert x !in multiset(w);
    forall y | y != x
      ensures y in w <==> y in s
    {
      assert multiset(w)[y] == multiset(s)[y];
      assert y in w <==> y in multiset(w);
      assert y in s <==> y in multiset(s);
    }
  }

  /** `removeSubscription` drops every copy of its token, keeps every other
      token, and does nothing further when repeated. */
  lemma RemoveSubscriptionSpec(s: StoreState, t: Token, now: int)
    ensures var r := Reduce(s, RemoveSubscription(t), now);
      && t !in r.subscriptions
      && Elems(r.subscriptions) == Elems(s.subscriptions) - {t}
      && Reduce(r, RemoveSubscription(t), now) == r
  {
    var r := Reduce(s, RemoveSubscription(t), now);
    WithoutElems(s.subscriptions, t);
    WithoutAbsent(r.subscriptions, t);
  }

  /** `updateMarketData` touches only its token's entry, which keeps the old
      fields the data does not overwrite, takes every data field, and gets a
      fresh `lastUpdated`. */
  lemma UpdateMarketDataSpec(s: StoreState, t: string, d: Option<Value>, now: int)
    ensures var r := Reduce(s, UpdateMarketData(t, d), now);
      && r.marketData.Keys == s.marketData.Keys + {t}
      && (forall u :: u in s.marketData && u != t ==> r.marketData[u] == s.marketData[u])
      && r.marketData[t]["lastUpdated"] == Stamp(now)
      && (forall k :: k in SpreadOf(d) && k != "lastUpdated" ==> r.marketData[t][k] == SpreadOf(d)[k])
      && (t in s.marketData ==> forall k :: k in s.marketData[t] && k !in SpreadOf(d) && k != "lastUpdated" ==>
            r.marketData[t][k] == s.marketData[t][k])
      && r.(marketData := s.marketData) == s
  {
  }

  /** `setFullMarketData` replaces the map; nothing else changes. */
  lemma SetFullMarketDataSpec(s: StoreState, m: map<string, Fields>, now: int)
    ensures Reduce(s, SetFullMarketData(m), now) == s.(marketData := m)
  {
  }

  /** `resetState` brings back the initial state from any state, so it is
      idempotent. */
  lemma ResetStateSpec(s: StoreState, now: int)
    ensures Reduce(s, ResetState, now) == Initial()
    ensures Reduce(Reduce(s, ResetState, now), ResetState, now) == Reduce(s, ResetState, now)
  {
  }

  /** A setter writes its payload to its own field and leaves every other
      field as it was. */
  lemma SetterSpec(s: StoreState, a: Action, now: int)
    requires a.IsSetter()
    ensures var r := Reduce(s, a, now);
      && Read(r, SlotOf(a)) == a.payload
      && (forall slot :: slot != SlotOf(a) ==> Read(r, slot) == Read(s, slot))
      && r.marketData == s.marketData && r.subscriptions == s.subscriptions
  {
  }
}
