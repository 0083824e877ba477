/** The option-chain hook of frontend/src/hooks/useOptionChain.js: the
    at-the-money strike, the visible window of strikes around it, the grouping
    of the fetched options into a chain, the merge of live market data into
    that chain, and the rows handed to the table. */
module UseOptionChain {
  import opened Common
  import UseWebSocket

  /** `DEFAULT_CONFIG.displayStrikes`. */
  const DISPLAY_STRIKES: nat := 75
  const CALL: string := "CALL"
  const PUT: string := "PUT"

  /** `Math.abs(a - b)`. */
  function Dist(a: real, b: real): real
  {
    if a >= b then a - b else b - a
  }

  // ------------------------------------------------------------ ATM strike

  /** The `reduce` of findAtmStrike: keep the running choice unless a later
      strike is strictly closer. */
  function Closest(strikes: seq<real>, price: real): (r: real)
    requires strikes != []
    ensures r in strikes
    ensures forall k :: 0 <= k < |strikes| ==> Dist(r, price) <= Dist(strikes[k], price)
  {
    if |strikes| == 1 then strikes[0]
    else
      var c := Closest(strikes[..|strikes| - 1], price);
      var last := strikes[|strikes| - 1];
      if Dist(last, price) < Dist(c, price) then last else c
  }

  /** The reduce picks a strike of the list at the least distance from the
      price, and the earliest one among those at that distance. */
  lemma {:induction false} ClosestSpec(strikes: seq<real>, price: real)
    requires strikes != []
    ensures exists k :: (0 <= k < |strikes| && strikes[k] == Closest(strikes, price)
                         && forall i :: 0 <= i < k ==> Dist(strikes[i], price) > Dist(strikes[k], price))
    ensures forall i :: 0 <= i < |strikes| ==> Dist(strikes[i], price) >= Dist(Closest(strikes, price), price)
  {
    if |strikes| == 1 {
      assert strikes[0] == Closest(strikes, price);
    } else {
      var front := strikes[..|strikes| - 1];
      ClosestSpec(front, price);
      var k :| 0 <= k < |front| && front[k] == Closest(front, price)
        && (forall i :: 0 <= i < k ==> Dist(front[i], price) > Dist(front[k], price));
      var last := strikes[|strikes| - 1];
      assert forall i :: 0 <= i < |front| ==> strikes[i] == front[i];
      if Dist(last, price) < Dist(Closest(front, price), price) {
        var n := |strikes| - 1;
        assert strikes[n] == Closest(strikes, price);
        assert forall i :: 0 <= i < n ==> Dist(strikes[i], price) > Dist(strikes[n], price);
      } else {
        assert strikes[k] == Closest(strikes, price);
      }
    }
  }

  /** findAtmStrike: null for an empty list or a falsy (missing or zero)
      price, otherwise the closest strike. */
  function FindAtmStrike(strikes: seq<real>, price: Option<real>): (r: Option<real>)
    ensures r.None? <==> strikes == [] || price.None? || price.value == 0.0
    ensures r.Some? ==> r.value in strikes
  {
    if strikes == [] || price.None? || price.value == 0.0 then None
    else
      ClosestSpec(strikes, price.value);
      Some(Closest(strikes, price.value))
  }

  // ------------------------------------------------------------ visible window

  /** `allStrikes.indexOf(x)`: the first index holding `x`, or -1. */
  function IndexOf(s: seq<real>, x: real): (i: int)
    ensures -1 <= i < |s|
    ensures i == -1 <==> x !in s
    ensures i >= 0 ==> s[i] == x && x !in s[..i]
  {
    if s == [] then -1
    else if s[0] == x then 0
    else
      var j := IndexOf(s[1..], x);
      assert j >= 0 ==> s[1..][..j] == s[1..j + 1];
      if j == -1 then -1 else j + 1
  }

  function Min(a: int, b: int): int
  {
    if a <= b then a else b
  }

  /** Where the window of `count` strikes around index `atm` of a list of
      `len` starts: `atm - floor(count/2)`, raised to 0, and pulled back to
      `max(0, len - count)` when the window would run past the end. */
  function WindowStart(len: nat, atm: nat, count: nat): (lo: nat)
    requires atm < len
    ensures lo <= atm && lo + Min(count, len) <= len
    ensures count >= 1 ==> atm < lo + Min(count, len)
    ensures count / 2 <= atm && atm - count / 2 + count <= len ==> lo == atm - count / 2
    ensures atm < count / 2 ==> lo == 0
    ensures atm - count / 2 + count > len ==> lo + Min(count, len) == len
  {
    var start := if atm - count / 2 < 0 then 0 else atm - count / 2;
    if start + count > len then
      (if len - count < 0 then 0 else len - count)
    else start
  }

  /** `r` is the slice of `all` that starts at `lo`. */
  predicate IsWindow(all: seq<real>, r: seq<real>, lo: int)
  {
    0 <= lo && lo + |r| <= |all| && r == all[lo..lo + |r|]
  }

  /** getVisibleStrikes. */
  function GetVisibleStrikes(all: seq<real>, atm: Option<real>, count: nat): (r: seq<real>)
    ensures all == [] || atm.None? || atm.value == 0.0 ==> r == []
    ensures all != [] && atm.Some? && atm.value != 0.0 ==> |r| == Min(count, |all|)
    ensures all != [] && atm.Some? && atm.value != 0.0 && atm.value !in all ==> r == all[..Min(count, |all|)]
    ensures atm.Some? && atm.value != 0.0 && atm.value in all && count >= 1 ==> atm.value in r
    ensures exists lo :: IsWindow(all, r, lo)
  {
    if all == [] || atm.None? || atm.value == 0.0 then
      assert IsWindow(all, [], 0);
      []
    else
      var i := IndexOf(all, atm.value);
      if i == -1 then
        assert IsWindow(all, all[..Min(count, |all|)], 0);
        all[..Min(count, |all|)]
      else
        var lo := WindowStart(|all|, i, count);
        var r := all[lo..lo + Min(count, |all|)];
        assert count >= 1 ==> r[i - lo] == atm.value;
        assert IsWindow(all, r, lo);
        r
  }

  /** A window of a strictly ascending list is strictly ascending. */
  lemma WindowAscending(all: seq<real>, r: seq<real>, lo: int)
    requires Ascending(all) && IsWindow(all, r, lo)
    ensures Ascending(r)
  {
    forall i, j | 0 <= i < j < |r|
      ensures r[i] < r[j]
    {
      assert r[i] == all[lo + i] && r[j] == all[lo + j];
    }
  }

  /** The visible strikes of an ascending strike list are ascending. */
  lemma VisibleStrikesAscending(all: seq<real>, atm: Option<real>, count: nat)
    requires Ascending(all)
    ensures Ascending(GetVisibleStrikes(all, atm, count))
  {
    var r := GetVisibleStrikes(all, atm, count);
    var lo :| IsWindow(all, r, lo);
    WindowAscending(all, r, lo);
  }

  // ------------------------------------------------------------ grouping

  /** One option as the API returns it: its token, strike and type, and the
      rest of its fields. */
  datatype ChainOption = ChainOption(token: Token, strike: real, optionType: string, quote: Fields)

  /** `processedOptions`: strike → option type → option. */
  type Chain = map<real, map<string, ChainOption>>

  /** The underlying as fetched: its token and its fields. */
  datatype Underlying = Underlying(token: Token, quote: Fields)

  /** `underlying.currentPrice`, when it is a number. */
  function PriceOf(u: Underlying): Option<real>
  {
    if "currentPrice" in u.quote && u.quote["currentPrice"].Num? then Some(u.quote["currentPrice"].n) else None
  }

  predicate Ascending(s: seq<real>)
  {
    forall i, j :: 0 <= i < j < |s| ==> s[i] < s[j]
  }

  /** `processedOptions[o.strike][o.optionType] = o` applied to each option
      in turn. */
  function Group(options: seq<ChainOption>): Chain
  {
    if options == [] then map[]
    else
      var c := Group(options[..|options| - 1]);
      var o := options[|options| - 1];
      c[o.strike := (if o.strike in c then c[o.strike] else map[])[o.optionType := o]]
  }

  /** The chain has a row for each distinct strike of the list. */
  lemma {:induction false} GroupKeys(options: seq<ChainOption>)
    ensures Group(options).Keys == set i | 0 <= i < |options| :: options[i].strike
  {
    if options != [] {
      var front := options[..|options| - 1];
      GroupKeys(front);
      assert forall i :: 0 <= i < |front| ==> front[i] == options[i];
      assert (set i | 0 <= i < |options| :: options[i].strike)
        == (set i | 0 <= i < |front| :: front[i].strike) + {options[|options| - 1].strike};
    }
  }

  /** Each cell holds an option of the list with that strike and type. */
  lemma {:induction false} GroupCells(options: seq<ChainOption>)
    ensures forall s, ty :: s in Group(options) && ty in Group(options)[s] ==>
      Group(options)[s][ty] in options && Group(options)[s][ty].strike == s && Group(options)[s][ty].optionType == ty
  {
    if options != [] {
      var front := options[..|options| - 1];
      GroupCells(front);
      assert forall o :: o in front ==> o in options;
    }
  }

  /** The same strike and type. */
  predicate SameCell(a: ChainOption, b: ChainOption)
  {
    a.strike == b.strike && a.optionType == b.optionType
  }

  /** An option that no later option displaces is the one in its cell. */
  lemma {:induction false} GroupLast(options: seq<ChainOption>, i: nat)
    requires i < |options|
    requires forall j :: i < j < |options| ==> !SameCell(options[j], options[i])
    ensures options[i].strike in Group(options)
    ensures options[i].optionType in Group(options)[options[i].strike]
    ensures Group(options)[options[i].strike][options[i].optionType] == options[i]
  {
    if i < |options| - 1 {
      var front := options[..|options| - 1];
      GroupLast(front, i);
    }
  }

  /** Puts `x` into a strictly ascending list, once. */
  function Insert(s: seq<real>, x: real): (r: seq<real>)
    requires Ascending(s)
    ensures Ascending(r) && Elems(r) == Elems(s) + {x}
  {
    if s == [] then [x]
    else if x < s[0] then
      ConsAscending(x, s);
      [x] + s
    else if x == s[0] then s
    else
      var t := Insert(s[1..], x);
      assert Elems(s) == {s[0]} + Elems(s[1..]);
      ConsAscending(s[0], t);
      [s[0]] + t
  }

  /** Putting a smaller element in front keeps a list ascending. */
  lemma ConsAscending(x: real, t: seq<real>)
    requires Ascending(t) && forall y :: y in Elems(t) ==> x < y
    ensures Ascending([x] + t) && Elems([x] + t) == {x} + Elems(t)
  {
    var r := [x] + t;
    forall i, j | 0 <= i < j < |r|
      ensures r[i] < r[j]
    {
      assert r[j] == t[j - 1] && t[j - 1] in Elems(t);
      if i > 0 {
        assert r[i] == t[i - 1];
      }
    }
  }

  /** Two strictly ascending lists with the same elements are the same list,
      so the strikes are determined by their set whatever builds them. */
  lemma {:induction false} AscendingUnique(a: seq<real>, b: seq<real>)
    requires Ascending(a) && Ascending(b) && Elems(a) == Elems(b)
    ensures a == b
  {
    assert a != [] ==> a[0] in Elems(a);
    assert b != [] ==> b[0] in Elems(b);
    if a != [] && b != [] {
      assert a[0] in Elems(b) && b[0] in Elems(a);
      assert a[0] == b[0] by {
        var i :| 0 <= i < |b| && b[i] == a[0];
        var j :| 0 <= j < |a| && a[j] == b[0];
        assert b[0] <= a[0] && a[0] <= b[0];
      }
      assert Elems(a[1..]) == Elems(a) - {a[0]} by {
        assert Elems(a) == {a[0]} + Elems(a[1..]);
        assert a[0] !in a[1..];
      }
      assert Elems(b[1..]) == Elems(b) - {b[0]} by {
        assert Elems(b) == {b[0]} + Elems(b[1..]);
        assert b[0] !in b[1..];
      }
      AscendingUnique(a[1..], b[1..]);
    }
  }

  /** The grouping loop of loadOptionChain: the chain, and the distinct
      strikes in ascending order. */
  method GroupOptions(options: seq<ChainOption>) returns (chain: Chain, strikes: seq<real>)
    ensures chain == Group(options)
    ensures Ascending(strikes) && Elems(strikes) == chain.Keys
  {
    chain := map[];
    strikes := [];
    var k := 0;
    while k < |options|
      invariant 0 <= k <= |options|
      invariant chain == Group(options[..k])
      invariant Ascending(strikes) && Elems(strikes) == chain.Keys
    {
      assert options[..k + 1][..k] == options[..k];
      var option := options[k];
      strikes := Insert(strikes, option.strike);
      if option.strike !in chain {
        chain := chain[option.strike := map[]];
      }
      chain := chain[option.strike := chain[option.strike][option.optionType := option]];
      k := k + 1;
    }
    assert options[..k] == options;
  }

  /** The tokens loadOptionChain subscribes to: the underlying's, then every
      option's in list order. */
  method SubscriptionTokens(underlyingToken: Token, options: seq<ChainOption>) returns (tokens: seq<Token>)
    ensures tokens == [underlyingToken] + seq(|options|, i requires 0 <= i < |options| => options[i].token)
  {
    tokens := [underlyingToken];
    var k := 0;
    while k < |options|
      invariant 0 <= k <= |options|
      invariant tokens == [underlyingToken] + seq(k, i requires 0 <= i < k => options[i].token)
    {
      tokens := tokens + [options[k].token];
      k := k + 1;
    }
  }

  // ------------------------------------------------------------ hook state

  /** The hook's useState variables. */
  datatype ChainState = ChainState(
    isLoading: bool,
    error: Option<Value>,
    optionChain: Option<Chain>,
    underlying: Option<Underlying>,
    strikes: seq<real>,
    visibleStrikes: seq<real>,
    atmStrike: Option<real>)

  function InitialChainState(): ChainState
  {
    ChainState(true, None, None, None, [], [], None)
  }

  /** What the fetch returned: the underlying and its options. */
  datatype ChainData = ChainData(underlying: Underlying, options: seq<ChainOption>)

  /** The hook's requests to the WebSocket hook during a load. */
  datatype Requests = Requests(connect: bool, subscribe: seq<Token>)

  /** loadOptionChain. A failed fetch records `err.message || "Failed to load
      option chain"`; a successful one groups, picks the ATM strike and the
      window, asks for a connection when not connected, and subscribes to
      every token. */
  method LoadOptionChain(s: ChainState, fetched: Result<ChainData, Option<Value>>, count: nat, isConnected: bool)
      returns (r: ChainState, req: Requests)
    ensures !r.isLoading
    ensures fetched.Failure? ==>
      && r == s.(isLoading := false,
                 error := if Truthy(fetched.error) then fetched.error else Some(Str("Failed to load option chain")))
      && req == Requests(false, [])
    ensures fetched.Success? ==>
      var d := fetched.value;
      && r.error.None? && r.underlying == Some(d.underlying)
      && r.optionChain == Some(Group(d.options))
      && Ascending(r.strikes) && Elems(r.strikes) == Group(d.options).Keys
      && r.atmStrike == FindAtmStrike(r.strikes, PriceOf(d.underlying))
      && r.visibleStrikes == GetVisibleStrikes(r.strikes, r.atmStrike, count)
      && req.connect == !isConnected
      && req.subscribe == [d.underlying.token] + seq(|d.options|, i requires 0 <= i < |d.options| => d.options[i].token)
  {
    if fetched.Failure? {
      var message := if Truthy(fetched.error) then fetched.error else Some(Str("Failed to load option chain"));
      return s.(isLoading := false, error := message), Requests(false, []);
    }
    var data := fetched.value;
    var chain, sortedStrikes := GroupOptions(data.options);
    var atm := FindAtmStrike(sortedStrikes, PriceOf(data.underlying));
    var visible := GetVisibleStrikes(sortedStrikes, atm, count);
    r := ChainState(false, None, Some(chain), Some(data.underlying), sortedStrikes, visible, atm);
    var tokens := SubscriptionTokens(data.underlying.token, data.options);
    req := Requests(!isConnected, tokens);
  }

  // ------------------------------------------------------------ live merge

  /** `{ ...option, ...data }` for the cell whose option has the token. */
  function MergeCell(o: ChainOption, md: UseWebSocket.MarketMap): ChainOption
  {
    if o.token in md then o.(quote := Spread(o.quote, md[o.token])) else o
  }

  /** The chain after every market-data entry was applied, for the tokens in
      `done`. */
  function MergeChain(c: Chain, md: UseWebSocket.MarketMap, done: set<string>): (r: Chain)
    ensures r.Keys == c.Keys
    ensures forall s :: s in c ==> r[s].Keys == c[s].Keys
  {
    map s | s in c :: map ty | ty in c[s] ::
      if c[s][ty].token in done && c[s][ty].token in md then MergeCell(c[s][ty], md) else c[s][ty]
  }

  /** Some option in the chain has the token. */
  predicate InChain(c: Chain, t: string)
  {
    exists s, ty :: s in c && ty in c[s] && c[s][ty].token == t
  }

  /** Merging keeps every option's token, strike and type, and merging the
      same market data twice gives what merging it once gives. */
  lemma MergeChainSpec(c: Chain, md: UseWebSocket.MarketMap)
    ensures var m := MergeChain(c, md, md.Keys);
      forall s, ty :: s in c && ty in c[s] ==>
        && m[s][ty].token == c[s][ty].token && m[s][ty].strike == c[s][ty].strike
        && m[s][ty].optionType == c[s][ty].optionType
        && (c[s][ty].token !in md ==> m[s][ty] == c[s][ty])
    ensures MergeChain(MergeChain(c, md, md.Keys), md, md.Keys) == MergeChain(c, md, md.Keys)
  {
    var m := MergeChain(c, md, md.Keys);
    var mm := MergeChain(m, md, md.Keys);
    forall s | s in c
      ensures mm[s] == m[s]
    {
      forall ty | ty in c[s]
        ensures mm[s][ty] == m[s][ty]
      {
        var o := c[s][ty];
        if o.token in md {
          assert Spread(Spread(o.quote, md[o.token]), md[o.token]) == Spread(o.quote, md[o.token]);
        }
      }
    }
  }

  /** With no entry applied yet, the chain is as it was. */
  lemma MergeChainNothing(c: Chain, md: UseWebSocket.MarketMap)
    ensures MergeChain(c, md, {}) == c
  {
    var m := MergeChain(c, md, {});
    forall s | s in c
      ensures m[s] == c[s]
    {
    }
  }

  /** The underlying after the entry for its token was spread over it. */
  function MergedUnderlying(u: Underlying, md: UseWebSocket.MarketMap): Underlying
    requires u.token in md
  {
    u.(quote := Spread(u.quote, md[u.token]))
  }

  /** The market-data effect: applies each entry to the underlying and to the
      options with its token. Only if something matched does the state change;
      the ATM strike and window are recomputed only when the underlying took
      an update and the new ATM strike differs from the old one. */
  method MergeMarketData(s: ChainState, md: UseWebSocket.MarketMap, count: nat) returns (r: ChainState)
    ensures s.optionChain.None? || md == map[] ==> r == s
    ensures s.optionChain.Some? && md != map[] ==>
      var underlyingHit := s.underlying.Some? && s.underlying.value.token in md;
      var chainHit := exists t :: t in md && InChain(s.optionChain.value, t);
      && (!underlyingHit && !chainHit ==> r == s)
      && (underlyingHit || chainHit ==>
            && r.optionChain == Some(MergeChain(s.optionChain.value, md, md.Keys))
            && r.(optionChain := s.optionChain, underlying := s.underlying,
                  atmStrike := s.atmStrike, visibleStrikes := s.visibleStrikes) == s)
      && (!underlyingHit ==>
            r.underlying == s.underlying && r.atmStrike == s.atmStrike && r.visibleStrikes == s.visibleStrikes)
      && (underlyingHit ==>
            && r.underlying == Some(MergedUnderlying(s.underlying.value, md))
            && var newAtm := FindAtmStrike(s.strikes, PriceOf(MergedUnderlying(s.underlying.value, md)));
               if newAtm != s.atmStrike
               then r.atmStrike == newAtm && r.visibleStrikes == GetVisibleStrikes(s.strikes, newAtm, count)
               else r.atmStrike == s.atmStrike && r.visibleStrikes == s.visibleStrikes)
  {
    if s.optionChain.None? || md == map[] {
      return s;
    }
    var updatedChain, updatedUnderlying, underlyingChanged, needsUpdate := ApplyEntries(s.optionChain.value, s.underlying, md);
    if !needsUpdate {
      return s;
    }
    r := s.(optionChain := Some(updatedChain));
    if underlyingChanged {
      r := r.(underlying := updatedUnderlying);
      var newAtm := FindAtmStrike(s.strikes, PriceOf(updatedUnderlying.value));
      if newAtm != s.atmStrike {
        r := r.(atmStrike := newAtm, visibleStrikes := GetVisibleStrikes(s.strikes, newAtm, count));
      }
    }
  }

  /** The `Object.entries(marketData).forEach` loop of the effect. */
  method ApplyEntries(original: Chain, underlying: Option<Underlying>, md: UseWebSocket.MarketMap)
      returns (updatedChain: Chain, updatedUnderlying: Option<Underlying>, underlyingChanged: bool, needsUpdate: bool)
    ensures updatedChain == MergeChain(original, md, md.Keys)
    ensures underlyingChanged <==> underlying.Some? && underlying.value.token in md
    ensures needsUpdate <==> underlyingChanged || exists t :: t in md && InChain(original, t)
    ensures updatedUnderlying == if underlyingChanged then Some(MergedUnderlying(underlying.value, md)) else underlying
  {
    updatedChain := original;
    updatedUnderlying := underlying;
    underlyingChanged := false;
    needsUpdate := false;
    var rest := md.Keys;
    var done: set<string> := {};
    MergeChainNothing(original, md);
    while rest != {}
      invariant rest + done == md.Keys && rest !! done
      invariant updatedChain == MergeChain(original, md, done)
      invariant underlyingChanged <==> underlying.Some? && underlying.value.token in done
      invariant needsUpdate <==> underlyingChanged || exists t :: t in done && InChain(original, t)
      invariant updatedUnderlying == if underlyingChanged then Some(MergedUnderlying(underlying.value, md)) else underlying
      decreases rest
    {
      var token :| token in rest;
      if underlying.Some? && token == underlying.value.token {
        updatedUnderlying := Some(MergedUnderlying(underlying.value, md));
        underlyingChanged := true;
        needsUpdate := true;
      }
      if InChain(original, token) {
        needsUpdate := true;
      }
      updatedChain := MergeChain(original, md, done + {token});
      rest := rest - {token};
      done := done + {token};
    }
  }

  // ------------------------------------------------------------ rows

  /** One row of the table. */
  datatype Row = Row(strike: real, isATM: bool, calls: Option<ChainOption>, puts: Option<ChainOption>)

  /** `optionChain[strike]?.[type] || null`. */
  function Cell(c: Chain, strike: real, ty: string): Option<ChainOption>
  {
    if strike in c && ty in c[strike] then Some(c[strike][ty]) else None
  }

  /** formattedData. */
  function FormattedData(c: Option<Chain>, visible: seq<real>, atm: Option<real>): (rows: seq<Row>)
    ensures c.None? || visible == [] ==> rows == []
    ensures c.Some? && visible != [] ==> |rows| == |visible|
    ensures c.Some? ==> forall i :: 0 <= i < |rows| ==>
      && rows[i].strike == visible[i] && (rows[i].isATM <==> atm == Some(visible[i]))
      && rows[i].calls == Cell(c.value, visible[i], CALL) && rows[i].puts == Cell(c.value, visible[i], PUT)
  {
    if c.None? || visible == [] then []
    else
      seq(|visible|, i requires 0 <= i < |visible| =>
        Row(visible[i], Some(visible[i]) == atm, Cell(c.value, visible[i], CALL), Cell(c.value, visible[i], PUT)))
  }

  /** When the window is ascending and holds the ATM strike, exactly one row
      is marked ATM. */
  lemma OneAtmRow(c: Chain, visible: seq<real>, atm: real)
    requires Ascending(visible) && atm in visible
    ensures var rows := FormattedData(Some(c), visible, Some(atm));
      exists k :: 0 <= k < |rows| && rows[k].isATM && forall i :: 0 <= i < |rows| && i != k ==> !rows[i].isATM
  {
    var rows := FormattedData(Some(c), visible, Some(atm));
    var k :| 0 <= k < |visible| && visible[k] == atm;
    assert rows[k].isATM;
    forall i | 0 <= i < |rows| && i != k
      ensures !rows[i].isATM
    {
      if i < k { assert visible[i] < visible[k]; } else { assert visible[k] < visible[i]; }
    }
  }
}
