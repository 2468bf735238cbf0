# NovaExchange client: request routing, signing and endpoint wrappers

A Dafny model of the request-building core of the `NovaExchange` Python client
(`novaexchange.py`). Given a method path such as `market/info/LTC_MEOW` or
`getbalance/BTC`, `api_query` decides how to send it:

- a **market** call (the first path segment starts with `market`) becomes an
  unsigned GET of `https://novaexchange.com/remote/v2/<path>/`;
- a **private** call (the first path segment is one of the fifteen private
  endpoints) becomes a POST to the canonical URL
  `https://novaexchange.com/remote/v2/private/<path>/?nonce=<unix seconds>`.
  The caller's form fields get `apikey` and `signature` added. The signature
  covers exactly that URL;
- any other path sends nothing and fails.

The endpoint wrappers (`markets` … `wallet_status`) format their arguments into
such a path. `market_open_orders` and `trade` also check their enumerated
arguments first.

Files:

- `wrappers.dfy`: `Option` and `Result`.
- `paths.dfy`: Python's `s.split('/')` as `Split`, with `Join` as its inverse,
  and `FirstSegment` (`s.split('/')[0]`).
- `numerals.dfy`: `str(n)` for integers (`Decimal`, `IntString`), with a parser
  `ParseDecimal` as its inverse.
- `nova_exchange.dfy`: the routing decision `Classify` and the reference
  function `Dispatch`, with lemmas about routing, signing and fields. It also
  holds the `Client` class: its credentials are `const` fields, and `ApiQuery`
  is the imperative `api_query`. `ApiQuery` works on a mutable `Form` object,
  which is the caller's `req` dictionary.
- `endpoints.dfy`: the wrappers, each as the `Call` (path plus fields) it
  delegates. `Client.Send` performs a `Call`.

The clock and the cryptography are parameters. `nonce: nat` stands for
`int(time.time())`. `sign: Signer` stands for base64(HMAC-SHA512(secret, url))
and stays uninterpreted. Instead of making the HTTP call, the model returns the
`Request` record that would be sent: verb, target, signed message and form
fields.

Behaviour of the code worth noting, which the model keeps:

- `api_query` accepts `""`. It routes nowhere and raises `UnboundLocalError`
  at line 51, so the model returns `Failure(UnroutedMethod(""))`.
- The code signs with empty credentials without complaint, and so does the
  model.
- Routing never looks at `public_set`. Any path starting with `market`
  (for example `marketfoo`) is public.
- `if not req: req = {}` replaces an empty caller dictionary with a fresh one.
  So a caller's empty dictionary is never changed. A non-empty one is changed
  in place. `ApiQuery`'s postcondition states both cases.

## Model

| member | source | states |
|---|---|---|
| `Paths.Split` | novaexchange.py:42 | `method.split('/')` gives at least one piece, none containing '/', and joining the pieces with '/' gives back the method string |
| `Paths.SplitJoin` | novaexchange.py:42 | round trip the other way: splitting a '/'-join of separator-free pieces returns exactly those pieces |
| `Paths.JoinInjective` | novaexchange.py:42 | two lists of separator-free pieces with the same join are equal (so the split is unique) |
| `Paths.SplitAppend` | novaexchange.py:42 | the pieces of `a + "/" + b` are the pieces of `a` followed by the pieces of `b` |
| `Paths.FirstSegment` | novaexchange.py:42-44 | `split('/')[0]` is a prefix of the method, contains no '/', and is either the whole method or is followed by '/' |
| `Paths.FirstSegmentUnder` | novaexchange.py:44 | the first segment of `p` or of `p + "/" + rest` (for '/'-free `p`) is exactly `p` |
| `Numerals.Decimal` | novaexchange.py:45 | `str(n)` for the nonce is a non-empty digit string with no leading zero unless it is "0" |
| `Numerals.ParseDecimalOfDecimal` | novaexchange.py:45 | reading back the printed nonce gives the nonce |
| `Numerals.DecimalOfParseDecimal` | novaexchange.py:45 | every canonical numeral is what `str` prints for its value (the other round trip) |
| `Numerals.DecimalInjective` | novaexchange.py:45 | distinct nonces print as distinct strings |
| `Numerals.IntString` | novaexchange.py:238 | `str(order_id)` never contains '/', so the id stays one path segment |
| `Numerals.IntStringInjective` | novaexchange.py:238 | distinct order ids print as distinct strings, so the `cancel_order` path identifies the order |
| `NovaExchange.ClassifyPublic` | novaexchange.py:42 | a call is routed to the market branch if and only if the method string starts with "market" (the first six characters of the first segment) |
| `NovaExchange.ClassifyPrivate` | novaexchange.py:42-44 | a call is routed private if and only if the method is a private endpoint or lies below one ('/'-separated); market paths are excluded |
| `NovaExchange.PrivateEndpointShape` | novaexchange.py:13-14 | no private endpoint contains "/" or passes the market test, so the market test taking precedence never hides a private endpoint |
| `NovaExchange.MarketRoute` | novaexchange.py:42-43 | a market path becomes a GET of base + method + "/", with no signed message and no fields, whatever `req` holds |
| `NovaExchange.PrivateRoute` | novaexchange.py:44-50 | a private path becomes a POST to base + "private/" + method + "/?nonce=" + str(nonce), and the signed message is that same string |
| `NovaExchange.UnroutedIsError` | novaexchange.py:42-51 | a path that neither starts with "market" nor names a private endpoint produces no request, only `UnroutedMethod` |
| `NovaExchange.EmptyMethodIsError` | novaexchange.py:42-51 | the empty method string is unrouted |
| `NovaExchange.SignedIsSent` | novaexchange.py:43-50 | every GET carries no fields and no signature; every POST is signed over exactly its target, with `apikey` = the key and `signature` = Sig(secret, target) |
| `NovaExchange.OnlyTwoKeysChange` | novaexchange.py:46-48 | on a private call the sent keys are the caller's keys plus `apikey` and `signature`, and every other key keeps its value |
| `NovaExchange.NoncesSeparateRequests` | novaexchange.py:45 | two private calls with different nonces are sent to and signed over different URLs |
| `NovaExchange.NonceInUrl` | novaexchange.py:45 | the tail of the private URL after "?nonce=" is a canonical numeral whose value is the nonce |
| `NovaExchange.PublicSetRoutesPublic` | novaexchange.py:12 | each name in `public_set` routes to the market branch |
| `NovaExchange.PrivateSetRoutesPrivate` | novaexchange.py:13-14 | each name in `private_set`, alone or with any path below it, routes private |
| `NovaExchange.Client.constructor` | novaexchange.py:22-24 | absent credentials become "", given ones are kept; the fields are `const`, so nothing reassigns them later |
| `NovaExchange.Client.ApiQuery` | novaexchange.py:26-51 | the result is `Dispatch` of the caller's fields (none when `req` is missing); a non-empty caller mapping ends up equal to the sent fields on a private call and unchanged otherwise; an empty one is never touched |
| `NovaExchange.Client.Send` | novaexchange.py:65-342 | the `return self.api_query(...)` step shared by every wrapper: a wrapper's delegation with a fresh field mapping yields exactly `Dispatch` of the call and changes nothing the caller holds |
| `Endpoints.Markets` | novaexchange.py:65 | `markets()` is the one-segment path "markets", routed public, with no fields |
| `Endpoints.MarketInfo` | novaexchange.py:81 | `market_info(m)` splits into "market", "info", then the pieces of `m`, and routes public |
| `Endpoints.MarketOrderHistory` | novaexchange.py:97 | `market_order_history(m)` splits into "market", "orderhistory", then the pieces of `m`, and routes public |
| `Endpoints.MarketOpenOrders` | novaexchange.py:117-121 | dispatches if and only if the order type is BUY, SELL or BOTH; otherwise returns `InvalidOrderType`; the path splits into "market", "openorders", the pieces of the market, then the order type, and routes public |
| `Endpoints.GetBalances` | novaexchange.py:134 | the path is the single private endpoint "getbalances" |
| `Endpoints.GetBalance` | novaexchange.py:149 | first piece "getbalance", then the currency's pieces; routes private for every currency |
| `Endpoints.GetDeposits` | novaexchange.py:158 | the path is the single private endpoint "getdeposits" |
| `Endpoints.GetWithdrawals` | novaexchange.py:168 | the path is the single private endpoint "getwithdrawals" |
| `Endpoints.GetNewDepositAddress` | novaexchange.py:183 | first piece "getnewdepositaddress", then the currency's pieces; routes private for every currency |
| `Endpoints.GetDepositAddress` | novaexchange.py:198 | first piece "getdepositaddress", then the currency's pieces; routes private for every currency |
| `Endpoints.MyOpenOrders` | novaexchange.py:207 | the path is the single private endpoint "myopenorders" |
| `Endpoints.MyOpenOrdersMarket` | novaexchange.py:223 | first piece "myopenorders_market", then the market's pieces; routes private for every market |
| `Endpoints.CancelOrder` | novaexchange.py:238 | exactly two pieces, "cancelorder" and the decimal order id; routes private |
| `Endpoints.Withdraw` | novaexchange.py:257 | first piece "withdraw", then the currency's pieces; routes private; sends exactly the fields currency, amount and address with the given values |
| `Endpoints.Trade` | novaexchange.py:278-291 | an invalid trade type is rejected before the trade base is looked at; an invalid trade base is rejected next; it dispatches if and only if both are valid, under "trade" plus the market's pieces, routed private, with exactly the four trade fields |
| `Endpoints.TradeHistory` | novaexchange.py:304 | the path is the single private endpoint "tradehistory" |
| `Endpoints.GetDepositHistory` | novaexchange.py:313 | the path is the single private endpoint "getdeposithistory" |
| `Endpoints.GetWithdrawalHistory` | novaexchange.py:322 | the path is the single private endpoint "getwithdrawalhistory" |
| `Endpoints.WalletStatus` | novaexchange.py:339-342 | without a currency the path is "walletstatus"; with one it is "walletstatus" followed by the currency's pieces; both route private |
| `Endpoints.MarketInfoRequest` | novaexchange.py:81 | `market_info(m)` results in an unsigned GET of base + "market/info/" + m + "/" |
| `Endpoints.TradeRequest` | novaexchange.py:291 | an accepted trade is a POST to the private URL of "trade/<market>" whose fields are exactly the four trade fields plus `apikey` and `signature` |
| `Endpoints.WalletStatusExamples` | novaexchange.py:339-342 | `wallet_status()` dispatches "walletstatus" and `wallet_status("LTC")` dispatches "walletstatus/LTC", a private call |

## Left out

- HTTP transport: `requests.get`/`requests.post`, the 60-second timeout, the content-type header, form-urlencoding of the body and `r.text`. Transport errors are left out too. The model returns the `Request` that would be sent instead of the response body.
- Wall-clock time: `int(time.time())` is the `nonce` parameter. Monotonicity across calls is not modelled, because the source has no local counter.
- Cryptography: HMAC-SHA512, UTF-8 encoding and base64 sit behind the uninterpreted `sign` parameter. Python stores the signature as `bytes`; the model stores it as a `Text` value.
- Floats: amounts and prices are `real`. `float()` conversion, rounding and the exceptions these casts can raise are not modelled. In `trade` the casts run before validation, so a bad amount would raise before an invalid trade type is reported; the model does not capture this.
- Python's `str()` and `int()` on arbitrary objects: the credentials (`str(api_key)`, `str(api_secret)`) and wrapper arguments arrive as strings, `cancel_order`'s id as an `int`, and `trade`'s tradebase as an `int`.
- Default arguments (`tradebase=0`, `currency=None`): callers pass these explicitly.
- The error tuples returned by `market_open_orders` and `trade`: they are the tagged errors `InvalidOrderType`, `InvalidTradeType` and `InvalidTradeBase`, without their message text.
- The wrappers are functions that return the `Call` they delegate, not methods of `Client`; `Client.Send` is the shared delegation step.
