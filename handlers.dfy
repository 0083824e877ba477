/** The process-wide manager instance of backend/websocket/handlers.js: created
    by the first initialisation only, and an error for callers that come
    before it. */
module Handlers {
  import opened Common
  import opened Market
  import opened Manager

  const NOT_INITIALIZED: string := "WebSocket manager not initialized"

  class ManagerHolder {
    /** The module-level `wsManager` variable. */
    var wsManager: WebSocketManager?

    ghost predicate Valid()
      reads this, wsManager
    {
      wsManager != null ==> wsManager.Valid()
    }

    constructor ()
      ensures wsManager == null
    {
      wsManager := null;
    }

    /** initWebSocketManager: builds the manager over the stored options and
        underlyings the first time, and returns the same instance ever after. */
    method InitWebSocketManager(options: seq<OptionEntry>, underlyings: seq<UnderlyingEntry>)
      returns (m: WebSocketManager)
      requires Valid()
      requires NoDup(OptionTokens(options)) && NoDup(UnderlyingTokens(underlyings))
      modifies this
      ensures Valid()
      ensures wsManager == m
      ensures old(wsManager) != null ==> m == old(wsManager)
      ensures old(wsManager) == null ==> fresh(m) && m.clients == map[] && !m.updateTimerRunning
    {
      if wsManager == null {
        wsManager := new WebSocketManager(options, underlyings);
      }
      m := wsManager;
    }

    /** getWebSocketManager: the instance, or the error thrown before
        initialisation. */
    function GetWebSocketManager(): (r: Result<WebSocketManager, string>)
      reads this
      ensures r.Success? <==> wsManager != null
      ensures r.Success? ==> r.value == wsManager
      ensures r.Failure? ==> r.error == NOT_INITIALIZED
    {
      if wsManager == null then Failure(NOT_INITIALIZED) else Success(wsManager)
    }
  }

  /** Initialising twice yields one manager: the second call returns the first
      call's instance and changes nothing. */
  method InitTwice(options: seq<OptionEntry>, underlyings: seq<UnderlyingEntry>)
    returns (first: WebSocketManager, second: WebSocketManager)
    requires NoDup(OptionTokens(options)) && NoDup(UnderlyingTokens(underlyings))
    ensures first == second
  {
    var holder := new ManagerHolder();
    first := holder.InitWebSocketManager(options, underlyings);
    second := holder.InitWebSocketManager(options, underlyings);
  }
}
