/** The server-to-client messages of the WebSocket protocol and their JSON form
    as the browser parses it (backend/websocket/manager.js builds them,
    frontend/src/store/websocketMiddleware.js and
    frontend/src/hooks/useWebSocket.js read them). */
module Protocol {
  import opened Common
  import opened Pricing
  import opened Market

  /** One `{token, type, data}` entry of a full-state snapshot. */
  datatype SnapshotEntry =
    | OptionSnap(token: Token, option: OptionEntry)
    | UnderlyingSnap(token: Token, underlying: UnderlyingEntry)

  datatype ServerMessage =
    | Connected(clientId: string)             // connectionStatus "connected"
    | Unsubscribed(tokens: seq<Token>)        // connectionStatus "unsubscribed"
    | FullState(entries: seq<SnapshotEntry>)  // marketData, isFullState: true
    | Delta(updates: seq<TickUpdate>)         // marketData without isFullState
    | Pong(timestamp: int)
    | Error(error: string)
    | Custom(body: Fields)                    // any message handed to broadcastMessage

  /** JSON.stringify writes NaN and Infinity as null. */
  function PercentJson(p: Percent): Value
  {
    match p
    case Finite(v) => Num(v)
    case NonFinite => Null
  }

  function MoneynessJson(m: Moneyness): Value
  {
    match m
    case ITM => Str("ITM")
    case ATM => Str("ATM")
    case OTM => Str("OTM")
  }

  function OptionJson(o: OptionEntry): Value
  {
    Obj(map[
      "token" := Str(o.token),
      "strike" := Num(o.strike),
      "optionType" := Str(o.optionType),
      "currentPrice" := Num(o.currentPrice),
      "yesterdayPrice" := Num(o.yesterdayPrice),
      "percentChange" := PercentJson(o.percentChange),
      "moneyness" := MoneynessJson(o.moneyness),
      "updatedAt" := Stamp(o.updatedAt)])
  }

  function UnderlyingJson(u: UnderlyingEntry): Value
  {
    Obj(map[
      "token" := Str(u.token),
      "name" := Str(u.name),
      "currentPrice" := Num(u.currentPrice),
      "yesterdayPrice" := Num(u.yesterdayPrice),
      "percentChange" := PercentJson(u.percentChange),
      "updatedAt" := Stamp(u.updatedAt)])
  }

  function TickJson(u: TickUpdate): Value
  {
    Obj(map[
      "token" := Str(u.token),
      "previousPrice" := Num(u.previousPrice),
      "currentPrice" := Num(u.currentPrice),
      "percentChange" := PercentJson(u.percentChange)])
  }

  function EntryJson(e: SnapshotEntry): Value
  {
    match e
    case OptionSnap(t, o) => Obj(map["token" := Str(t), "type" := Str("option"), "data" := OptionJson(o)])
    case UnderlyingSnap(t, u) => Obj(map["token" := Str(t), "type" := Str("underlying"), "data" := UnderlyingJson(u)])
  }

  /** The object the browser gets after JSON.parse. */
  function Encode(m: ServerMessage): (r: Fields)
    ensures !m.Custom? ==> "type" in r && r["type"].Str?
    ensures !m.Custom? ==> (r["type"] == Str("marketData") <==> m.FullState? || m.Delta?)
    ensures !m.Custom? ==> (Truthy(Get(r, "isFullState")) <==> m.FullState?)
    ensures m.FullState? ==>
      "data" in r && r["data"].Arr? && |r["data"].items| == |m.entries|
      && forall i :: 0 <= i < |m.entries| ==> r["data"].items[i] == EntryJson(m.entries[i])
    ensures m.Delta? ==>
      "data" in r && r["data"].Arr? && |r["data"].items| == |m.updates|
      && forall i :: 0 <= i < |m.updates| ==> r["data"].items[i] == TickJson(m.updates[i])
  {
    match m
    case Connected(id) =>
      map["type" := Str("connectionStatus"), "status" := Str("connected"), "clientId" := Str(id)]
    case Unsubscribed(ts) =>
      map["type" := Str("connectionStatus"), "status" := Str("unsubscribed"),
          "tokens" := Arr(seq(|ts|, i requires 0 <= i < |ts| => Str(ts[i])))]
    case FullState(es) =>
      map["type" := Str("marketData"), "isFullState" := Bool(true),
          "data" := Arr(seq(|es|, i requires 0 <= i < |es| => EntryJson(es[i])))]
    case Delta(us) =>
      map["type" := Str("marketData"), "data" := Arr(seq(|us|, i requires 0 <= i < |us| => TickJson(us[i])))]
    case Pong(ts) =>
      map["type" := Str("pong"), "timestamp" := Num(ts as real)]
    case Error(e) =>
      map["type" := Str("error"), "error" := Str(e)]
    case Custom(body) => body
  }
}
