/** The per-endpoint wrappers of the client. Each one formats its arguments
    into a method path (and, for `withdraw` and `trade`, a field mapping) and
    hands them to the dispatcher; `market_open_orders` and `trade` first check
    enumerated arguments and return an error instead of dispatching.

    A wrapper is modelled as the `Call` it delegates (`Client.Send` performs
    it). Arguments arrive already converted by `str`, `int` or `float`. */
module Endpoints {
  import opened Wrappers
  import opened Paths
  import opened Numerals
  import opened NovaExchange

  /** The order sides accepted by `market_open_orders`. */
  const OrderTypes: set<string> := {"BUY", "SELL", "BOTH"}

  /** The trade sides accepted by `trade`. */
  const TradeTypes: set<string> := {"BUY", "SELL"}

  /** 0: the amount is in the market currency; 1: in the base currency. */
  const TradeBases: set<int> := {0, 1}

  /** The fields `trade` sends besides the credentials. */
  const TradeFields: set<string> := {"tradetype", "tradebase", "tradeprice", "tradeamount"}

  /** A market path: the literal `prefix` spells "market/<name>/". */
  lemma MarketPath(prefix: string, name: string, arg: string)
    requires '/' !in name && prefix == "market/" + name + "/"
    ensures Split(prefix + arg) == ["market", name] + Split(arg)
    ensures Classify(prefix + arg) == Public
  {
    SplitPrefixed(prefix, ["market", name], arg);
    RouteBySegment(prefix + arg);
  }

  /** The path of `market_open_orders` for an order type without '/'. */
  lemma OpenOrdersPath(market: string, ordertype: string)
    requires '/' !in ordertype
    ensures var m := "market/openorders/" + market + "/" + ordertype;
            && Split(m) == ["market", "openorders"] + Split(market) + [ordertype]
            && Classify(m) == Public
  {
    var m := "market/openorders/" + market + "/" + ordertype;
    SplitAppend("market/openorders/" + market, ordertype);
    SplitSlashFree(ordertype);
    MarketPath("market/openorders/", "openorders", market);
    RouteBySegment(m);
  }

  // ---- public wrappers ----

  /** `markets()`. */
  function Markets(): (c: Call)
    ensures Split(c.methodName) == ["markets"]
    ensures Classify(c.methodName) == Public && c.params == map[]
  {
    SplitSlashFree("markets");
    RouteBySegment("markets");
    Call("markets", map[])
  }

  /** `market_info(market)`. */
  function MarketInfo(market: string): (c: Call)
    ensures Split(c.methodName) == ["market", "info"] + Split(market)
    ensures Classify(c.methodName) == Public && c.params == map[]
  {
    MarketPath("market/info/", "info", market);
    Call("market/info/" + market, map[])
  }

  /** `market_order_history(market)`. */
  function MarketOrderHistory(market: string): (c: Call)
    ensures Split(c.methodName) == ["market", "orderhistory"] + Split(market)
    ensures Classify(c.methodName) == Public && c.params == map[]
  {
    MarketPath("market/orderhistory/", "orderhistory", market);
    Call("market/orderhistory/" + market, map[])
  }

  /** `market_open_orders(market, ordertype)`: only BUY, SELL and BOTH are
      dispatched; any other order type is returned as an error. */
  function MarketOpenOrders(market: string, ordertype: string): (r: Result<Call, Error>)
    ensures r.Success? <==> ordertype in OrderTypes
    ensures r.Failure? ==> r.error == InvalidOrderType(ordertype)
    ensures r.Success? ==>
              && Split(r.value.methodName) == ["market", "openorders"] + Split(market) + [ordertype]
              && Classify(r.value.methodName) == Public && r.value.params == map[]
  {
    if ordertype in OrderTypes then
      OpenOrdersPath(market, ordertype);
      Success(Call("market/openorders/" + market + "/" + ordertype, map[]))
    else
      Failure(InvalidOrderType(ordertype))
  }

  // ---- private wrappers ----

  /** `get_balances()`. */
  function GetBalances(): (c: Call)
    ensures Split(c.methodName) == ["getbalances"]
    ensures Classify(c.methodName) == Private && c.params == map[]
  {
    SplitSlashFree("getbalances");
    RouteBySegment("getbalances");
    Call("getbalances", map[])
  }

  /** `get_balance(currency)`. */
  function GetBalance(currency: string): (c: Call)
    ensures Split(c.methodName) == ["getbalance"] + Split(currency)
    ensures Classify(c.methodName) == Private && c.params == map[]
  {
    SplitPrefixed("getbalance/", ["getbalance"], currency);
    RouteBySegment("getbalance/" + currency);
    Call("getbalance/" + currency, map[])
  }

  /** `get_deposits()`. */
  function GetDeposits(): (c: Call)
    ensures Split(c.methodName) == ["getdeposits"]
    ensures Classify(c.methodName) == Private && c.params == map[]
  {
    SplitSlashFree("getdeposits");
    RouteBySegment("getdeposits");
    Call("getdeposits", map[])
  }

  /** `get_withdrawals()`. */
  function GetWithdrawals(): (c: Call)
    ensures Split(c.methodName) == ["getwithdrawals"]
    ensures Classify(c.methodName) == Private && c.params == map[]
  {
    SplitSlashFree("getwithdrawals");
    RouteBySegment("getwithdrawals");
    Call("getwithdrawals", map[])
  }

  /** `get_new_deposit_address(currency)`. */
  function GetNewDepositAddress(currency: string): (c: Call)
    ensures Split(c.methodName) == ["getnewdepositaddress"] + Split(currency)
    ensures Classify(c.methodName) == Private && c.params == map[]
  {
    SplitPrefixed("getnewdepositaddress/", ["getnewdepositaddress"], currency);
    RouteBySegment("getnewdepositaddress/" + currency);
    Call("getnewdepositaddress/" + currency, map[])
  }

  /** `get_deposit_address(currency)`. */
  function GetDepositAddress(currency: string): (c: Call)
    ensures Split(c.methodName) == ["getdepositaddress"] + Split(currency)
    ensures Classify(c.methodName) == Private && c.params == map[]
  {
    SplitPrefixed("getdepositaddress/", ["getdepositaddress"], currency);
    RouteBySegment("getdepositaddress/" + currency);
    Call("getdepositaddress/" + currency, map[])
  }

  /** `my_open_orders()`. */
  function MyOpenOrders(): (c: Call)
    ensures Split(c.methodName) == ["myopenorders"]
    ensures Classify(c.methodName) == Private && c.params == map[]
  {
    SplitSlashFree("myopenorders");
    RouteBySegment("myopenorders");
    Call("myopenorders", map[])
  }

  /** `my_open_orders_market(market)`. */
  function MyOpenOrdersMarket(market: string): (c: Call)
    ensures Split(c.methodName) == ["myopenorders_market"] + Split(market)
    ensures Classify(c.methodName) == Private && c.params == map[]
  {
    SplitPrefixed("myopenorders_market/", ["myopenorders_market"], market);
    RouteBySegment("myopenorders_market/" + market);
    Call("myopenorders_market/" + market, map[])
  }

  /** `cancel_order(order_id)`: the id is printed in decimal. */
  function CancelOrder(orderId: int): (c: Call)
    ensures Split(c.methodName) == ["cancelorder", IntString(orderId)]
    ensures Classify(c.methodName) == Private && c.params == map[]
  {
    var id := IntString(orderId);
    SplitPrefixed("cancelorder/", ["cancelorder"], id);
    SplitSlashFree(id);
    RouteBySegment("cancelorder/" + id);
    Call("cancelorder/" + id, map[])
  }

  /** `withdraw(currency, amount, address)`: the path names the currency and
      the fields carry currency, amount and address. */
  function Withdraw(currency: string, amount: real, address: string): (c: Call)
    ensures Split(c.methodName) == ["withdraw"] + Split(currency)
    ensures Classify(c.methodName) == Private
    ensures c.params.Keys == {"currency", "amount", "address"}
    ensures c.params["currency"] == Text(currency) && c.params["amount"] == Float(amount)
            && c.params["address"] == Text(address)
  {
    SplitPrefixed("withdraw/", ["withdraw"], currency);
    RouteBySegment("withdraw/" + currency);
    Call("withdraw/" + currency,
         map["currency" := Text(currency), "amount" := Float(amount), "address" := Text(address)])
  }

  /** `trade(market, tradetype, tradeamount, tradeprice, tradebase)`: the trade
      type is checked first, then the trade base; only when both are valid is
      "trade/<market>" dispatched with exactly the four trade fields. */
  function Trade(market: string, tradetype: string, tradeamount: real, tradeprice: real,
                 tradebase: int): (r: Result<Call, Error>)
    ensures tradetype !in TradeTypes ==> r == Failure(InvalidTradeType(tradetype))
    ensures tradetype in TradeTypes && tradebase !in TradeBases
            ==> r == Failure(InvalidTradeBase(tradebase))
    ensures r.Success? <==> tradetype in TradeTypes && tradebase in TradeBases
    ensures r.Success? ==>
              && Split(r.value.methodName) == ["trade"] + Split(market)
              && Classify(r.value.methodName) == Private
              && r.value.params.Keys == TradeFields
              && r.value.params["tradetype"] == Text(tradetype)
              && r.value.params["tradebase"] == Int(tradebase)
              && r.value.params["tradeprice"] == Float(tradeprice)
              && r.value.params["tradeamount"] == Float(tradeamount)
  {
    if tradetype !in TradeTypes then
      Failure(InvalidTradeType(tradetype))
    else if tradebase !in TradeBases then
      Failure(InvalidTradeBase(tradebase))
    else
      SplitPrefixed("trade/", ["trade"], market);
      RouteBySegment("trade/" + market);
      Success(Call("trade/" + market,
                   map["tradetype" := Text(tradetype), "tradebase" := Int(tradebase),
                       "tradeprice" := Float(tradeprice), "tradeamount" := Float(tradeamount)]))
  }

  /** `trade_history()`. */
  function TradeHistory(): (c: Call)
    ensures Split(c.methodName) == ["tradehistory"]
    ensures Classify(c.methodName) == Private && c.params == map[]
  {
    SplitSlashFree("tradehistory");
    RouteBySegment("tradehistory");
    Call("tradehistory", map[])
  }

  /** `get_deposit_history()`. */
  function GetDepositHistory(): (c: Call)
    ensures Split(c.methodName) == ["getdeposithistory"]
    ensures Classify(c.methodName) == Private && c.params == map[]
  {
    SplitSlashFree("getdeposithistory");
    RouteBySegment("getdeposithistory");
    Call("getdeposithistory", map[])
  }

  /** `get_withdrawal_history()`. */
  function GetWithdrawalHistory(): (c: Call)
    ensures Split(c.methodName) == ["getwithdrawalhistory"]
    ensures Classify(c.methodName) == Private && c.params == map[]
  {
    SplitSlashFree("getwithdrawalhistory");
    RouteBySegment("getwithdrawalhistory");
    Call("getwithdrawalhistory", map[])
  }

  /** `wallet_status(currency)`: all wallets without a currency, one wallet
      below "walletstatus/" with one. */
  function WalletStatus(currency: Option<string>): (c: Call)
    ensures currency.None? ==> Split(c.methodName) == ["walletstatus"]
    ensures currency.Some? ==> Split(c.methodName) == ["walletstatus"] + Split(currency.value)
    ensures Classify(c.methodName) == Private && c.params == map[]
  {
    match currency
    case None =>
      SplitSlashFree("walletstatus");
      RouteBySegment("walletstatus");
      Call("walletstatus", map[])
    case Some(cur) =>
      SplitPrefixed("walletstatus/", ["walletstatus"], cur);
      RouteBySegment("walletstatus/" + cur);
      Call("walletstatus/" + cur, map[])
  }

  // ---- wrappers composed with the dispatcher ----

  /** `market_info(m)` is an unsigned GET of ".../market/info/<m>/". */
  lemma MarketInfoRequest(apiKey: string, apiSecret: string, market: string, nonce: nat,
                          sign: Signer)
    ensures var c := MarketInfo(market);
            Dispatch(apiKey, apiSecret, c.methodName, c.params, nonce, sign)
            == Success(Request(GET, Base + "market/info/" + market + "/", None, map[]))
  {
    var c := MarketInfo(market);
    assert c.methodName == "market/info/" + market;
    MarketRoute(apiKey, apiSecret, c.methodName, c.params, nonce, sign);
    assert Base + c.methodName + "/" == Base + "market/info/" + market + "/";
  }

  /** An accepted trade is a POST under "private/trade/" whose fields are the
      four trade fields plus the key and the signature, and nothing else. */
  lemma TradeRequest(apiKey: string, apiSecret: string, market: string, tradetype: string,
                     tradeamount: real, tradeprice: real, tradebase: int, nonce: nat, sign: Signer)
    requires tradetype in TradeTypes && tradebase in TradeBases
    ensures var c := Trade(market, tradetype, tradeamount, tradeprice, tradebase).value;
            var r := Dispatch(apiKey, apiSecret, c.methodName, c.params, nonce, sign);
            && r.Success? && r.value.verb == POST
            && r.value.target == PrivateUrl("trade/" + market, nonce)
            && r.value.params.Keys == TradeFields + {"apikey", "signature"}
  {
    var c := Trade(market, tradetype, tradeamount, tradeprice, tradebase).value;
    OnlyTwoKeysChange(apiKey, apiSecret, c.methodName, c.params, nonce, sign);
  }

  /** `wallet_status()` dispatches "walletstatus" and `wallet_status("LTC")`
      dispatches "walletstatus/LTC", both as private calls. */
  lemma WalletStatusExamples()
    ensures WalletStatus(None).methodName == "walletstatus"
    ensures WalletStatus(Some("LTC")).methodName == "walletstatus/LTC"
    ensures Classify("walletstatus/LTC") == Private
  {
    assert WalletStatus(Some("LTC")).methodName == "walletstatus/LTC";
  }
}
