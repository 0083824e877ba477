/** The management surface of backend/services/websocketService.js: reads of
    the registry and two pushes, each of which does nothing (or answers 0) when
    the manager is not initialised, as the source's catch blocks do. */
module BackendService {
  import opened Common
  import opened Market
  import opened Protocol
  import opened Manager
  import opened Handlers

  /** The registered clients whose subscriptions hold `token`. */
  function SubscribersOf(clients: map<ClientId, ClientData>, token: Token): (s: set<ClientId>)
    ensures s <= clients.Keys
  {
    set c | c in clients && token in clients[c].subscriptions
  }

  /** A token never has more subscribers than there are clients. */
  lemma SubscribersBounded(clients: map<ClientId, ClientData>, token: Token)
    ensures |SubscribersOf(clients, token)| <= |clients|
  {
    assert |clients.Keys| == |clients|;
    SubsetCard(SubscribersOf(clients, token), clients.Keys);
  }

  lemma {:induction false} SubsetCard<T>(a: set<T>, b: set<T>)
    requires a <= b
    ensures |a| <= |b|
  {
    if a != {} {
      var x :| x in a;
      SubsetCard(a - {x}, b - {x});
    }
  }

  /** getConnectionCount: the registry size, 0 before initialisation. */
  method GetConnectionCount(holder: ManagerHolder) returns (n: nat)
    ensures holder.wsManager == null ==> n == 0
    ensures holder.wsManager != null ==> n == |holder.wsManager.clients|
  {
    var r := holder.GetWebSocketManager();
    if r.Failure? {
      return 0;
    }
    n := |r.value.clients|;
  }

  /** getSubscriptionCount: how many registered clients subscribe to
      `token`, counted one by one; 0 before initialisation. */
  method GetSubscriptionCount(holder: ManagerHolder, token: Token) returns (count: nat)
    ensures holder.wsManager == null ==> count == 0
    ensures holder.wsManager != null ==>
      && count == |SubscribersOf(holder.wsManager.clients, token)|
      && count <= |holder.wsManager.clients|
  {
    var r := holder.GetWebSocketManager();
    if r.Failure? {
      return 0;
    }
    var clients := r.value.clients;
    count := 0;
    var rest := clients.Keys;
    while rest != {}
      invariant rest <= clients.Keys
      invariant count == |SubscribersOf(clients, token) - rest|
      decreases rest
    {
      var c :| c in rest;
      if token in clients[c].subscriptions {
        assert SubscribersOf(clients, token) - (rest - {c}) == (SubscribersOf(clients, token) - rest) + {c};
        count := count + 1;
      } else {
        assert SubscribersOf(clients, token) - (rest - {c}) == SubscribersOf(clients, token) - rest;
      }
      rest := rest - {c};
    }
    SubscribersBounded(clients, token);
  }

  /** broadcastMessage: the message goes to every registered client,
      whatever it subscribes to, and is delivered on those that are OPEN. */
  method BroadcastMessage(holder: ManagerHolder, message: Fields)
    requires holder.Valid()
    modifies holder.wsManager
    ensures holder.Valid()
    ensures holder.wsManager != null ==>
      && holder.wsManager.clients == old(holder.wsManager.clients)
      && holder.wsManager.CacheUnchanged()
      && holder.wsManager.updateTimerRunning == old(holder.wsManager.updateTimerRunning)
      && holder.wsManager.sockets == map c | c in old(holder.wsManager.sockets) ::
           if c in holder.wsManager.clients then Deliver(old(holder.wsManager.sockets)[c], Custom(message))
           else old(holder.wsManager.sockets)[c]
  {
    var r := holder.GetWebSocketManager();
    if r.Failure? {
      return;
    }
    var manager := r.value;
    var rest := manager.clients.Keys;
    while rest != {}
      invariant manager.Valid()
      invariant manager.clients == old(manager.clients)
      invariant manager.CacheUnchanged() && manager.updateTimerRunning == old(manager.updateTimerRunning)
      invariant rest <= manager.clients.Keys
      invariant manager.sockets.Keys == old(manager.sockets).Keys
      invariant forall c :: c in manager.sockets ==>
        manager.sockets[c] == (if c in manager.clients && c !in rest
                               then Deliver(old(manager.sockets)[c], Custom(message))
                               else old(manager.sockets)[c])
      decreases rest
    {
      var c :| c in rest;
      manager.SendMessage(c, Custom(message));
      rest := rest - {c};
    }
  }

  /** triggerDataUpdate: one tick of the manager's update cycle, run now. */
  method TriggerDataUpdate(holder: ManagerHolder, underlyingPrice: real, draws: seq<nat>,
                           newPrices: seq<real>, now: int)
    returns (ghost indices: seq<nat>, ghost optionUpdates: seq<TickUpdate>)
    requires holder.Valid()
    requires holder.wsManager != null ==>
      && |newPrices| == |holder.wsManager.optionOrder|
      && (forall k :: 0 <= k < |draws| ==> draws[k] < |holder.wsManager.optionOrder|)
      && |Elems(draws)| >= UpdateCount(|holder.wsManager.optionOrder|)
    modifies holder.wsManager
    ensures holder.Valid()
    ensures holder.wsManager != null ==> holder.wsManager.clients == old(holder.wsManager.clients)
    ensures holder.wsManager != null && |holder.wsManager.clients| == 0 ==>
      && !holder.wsManager.updateTimerRunning
      && holder.wsManager.sockets == old(holder.wsManager.sockets) && holder.wsManager.CacheUnchanged()
    ensures holder.wsManager != null && |holder.wsManager.clients| > 0 ==>
      holder.wsManager.updateTimerRunning == old(holder.wsManager.updateTimerRunning)
    ensures holder.wsManager != null && |holder.wsManager.clients| > 0 && holder.wsManager.underlyingOrder == [] ==>
      holder.wsManager.sockets == old(holder.wsManager.sockets) && holder.wsManager.CacheUnchanged()
    ensures holder.wsManager != null && |holder.wsManager.clients| > 0 && holder.wsManager.underlyingOrder != [] ==>
      holder.wsManager.TickEffect(old(holder.wsManager.sockets), old(holder.wsManager.optionsCache),
                                  old(holder.wsManager.underlyingCache), indices, optionUpdates,
                                  underlyingPrice, draws, newPrices, now)
  {
    indices, optionUpdates := [], [];
    var r := holder.GetWebSocketManager();
    if r.Failure? {
      return;
    }
    indices, optionUpdates := r.value.BroadcastDataUpdates(underlyingPrice, draws, newPrices, now);
  }
}
