/** The request dispatcher of the NovaExchange client: it classifies a method
    path as public (market data) or private (account calls), builds the
    canonical URL, signs it for private calls and assembles the request.

    The clock and the HMAC primitive are parameters: `nonce` stands for
    `int(time.time())` and `sign(secret, message)` for
    base64(HMAC-SHA512(secret, message)), kept uninterpreted. Instead of
    performing the HTTP call, the dispatcher returns the request it would send. */
module NovaExchange {
  import opened Wrappers
  import opened Paths
  import opened Numerals

  /** The fixed API origin and version prefix. */
  const Base: string := "https://novaexchange.com/remote/v2/"

  /** The public method names (listed by the client; routing does not use them). */
  const PublicMethods: set<string> :=
    {"markets", "market/info", "market/orderhistory", "market/openorders"}

  /** The first path segments that select the authenticated branch. */
  const PrivateMethods: set<string> :=
    {"getbalances", "getbalance", "getdeposits", "getwithdrawals", "getnewdepositaddress",
     "getdepositaddress", "myopenorders", "myopenorders_market", "cancelorder", "withdraw",
     "trade", "tradehistory", "getdeposithistory", "getwithdrawalhistory", "walletstatus"}

  /** A form field value: a string, an int, or a float (modelled as a real). */
  datatype Value = Text(s: string) | Int(i: int) | Float(x: real)

  /** base64(HMAC-SHA512(key, message)), left uninterpreted. */
  type Signer = (string, string) -> string

  datatype Verb = GET | POST

  /** What goes on the wire: the verb, the target URL, the message the
      signature covers (private calls only) and the form fields of the body. */
  datatype Request = Request(verb: Verb, target: string, signedMessage: Option<string>,
                             params: map<string, Value>)

  /** Failures: a method path that no routing branch accepts, and the wrappers'
      rejected arguments. */
  datatype Error =
    | UnroutedMethod(methodName: string)
    | InvalidOrderType(ordertype: string)
    | InvalidTradeType(tradetype: string)
    | InvalidTradeBase(tradebase: int)

  /** A method path with its extra form fields, as a wrapper hands it to the
      dispatcher (no fields stands for `req=None`). */
  datatype Call = Call(methodName: string, params: map<string, Value>)

  datatype Route = Public | Private | Unrouted

  /** Python's `s[0:n]`: at most the first `n` characters. */
  function Head(s: string, n: nat): string
  {
    if |s| <= n then s else s[..n]
  }

  /** `methodName` is the endpoint itself or a path below it. */
  predicate UnderEndpoint(methodName: string, endpoint: string)
  {
    methodName == endpoint || endpoint + "/" <= methodName
  }

  /** The routing decision: the market test on the first six characters of the
      first segment comes first, then exact membership of the first segment in
      the private set; anything else is routed nowhere. */
  function Classify(methodName: string): Route
  {
    var segment := FirstSegment(methodName);
    if Head(segment, 6) == "market" then Public
    else if segment in PrivateMethods then Private
    else Unrouted
  }

  /** A call is public exactly when its path starts with "market". */
  lemma ClassifyPublic(methodName: string)
    ensures Classify(methodName) == Public <==> "market" <= methodName
  {
    if "market" <= methodName {
      SlashFreePrefix(methodName, "market");
    }
  }

  /** No private endpoint contains '/' or passes the market test. */
  lemma PrivateEndpointShape(endpoint: string)
    requires endpoint in PrivateMethods
    ensures '/' !in endpoint
    ensures Head(endpoint, 6) != "market"
  {
    PrivateEndpointSlashFree(endpoint);
    PrivateEndpointNotMarket(endpoint);
  }

  lemma PrivateEndpointSlashFree(endpoint: string)
    requires endpoint in PrivateMethods
    ensures '/' !in endpoint
  {
  }

  lemma PrivateEndpointNotMarket(endpoint: string)
    requires endpoint in PrivateMethods
    ensures Head(endpoint, 6) != "market"
  {
    assert |endpoint| >= 6 ==> endpoint[0] != 'm' || endpoint[1] != 'a';
  }

  /** A path at or below a private endpoint routes private. */
  lemma PrivateFromEndpoint(methodName: string, endpoint: string)
    requires endpoint in PrivateMethods && UnderEndpoint(methodName, endpoint)
    ensures FirstSegment(methodName) == endpoint
    ensures Classify(methodName) == Private
  {
    PrivateEndpointShape(endpoint);
    FirstSegmentUnder(methodName, endpoint);
  }

  /** Routing reads only the first piece of the split path. */
  lemma RouteBySegment(methodName: string)
    ensures Head(Split(methodName)[0], 6) == "market" ==> Classify(methodName) == Public
    ensures Split(methodName)[0] in PrivateMethods ==> Classify(methodName) == Private
  {
    if Split(methodName)[0] in PrivateMethods {
      PrivateEndpointNotMarket(Split(methodName)[0]);
    }
  }

  /** A private route names its endpoint: the first segment. */
  lemma EndpointOfPrivate(methodName: string)
    requires Classify(methodName) == Private
    ensures FirstSegment(methodName) in PrivateMethods
    ensures UnderEndpoint(methodName, FirstSegment(methodName))
  {
    var segment := FirstSegment(methodName);
    assert |segment| < |methodName| ==> segment + "/" <= methodName;
  }

  /** A call is private exactly when its path is a private endpoint or lies
      below one. */
  lemma ClassifyPrivate(methodName: string)
    ensures Classify(methodName) == Private
            <==> exists p :: p in PrivateMethods && UnderEndpoint(methodName, p)
  {
    if exists p :: p in PrivateMethods && UnderEndpoint(methodName, p) {
      var p :| p in PrivateMethods && UnderEndpoint(methodName, p);
      PrivateFromEndpoint(methodName, p);
    }
    if Classify(methodName) == Private {
      EndpointOfPrivate(methodName);
    }
  }

  /** The canonical URL of a private call: signed, and also the POST target. */
  function PrivateUrl(methodName: string, nonce: nat): string
  {
    Base + "private/" + methodName + "/" + "?nonce=" + Decimal(nonce)
  }

  /** `PrivateUrl` re-associated into the spelling of line 45, with "/?nonce="
      as one literal; it only lets `PrivateRoute` state the target that way. */
  lemma CanonicalUrl(methodName: string, nonce: nat)
    ensures PrivateUrl(methodName, nonce)
            == Base + "private/" + methodName + "/?nonce=" + Decimal(nonce)
  {
    var head := Base + "private/" + methodName;
    assert "/" + "?nonce=" == "/?nonce=";
    assert head + "/" + "?nonce=" == head + "/?nonce=";
  }

  /** The request `api_query` sends for `methodName`, with `req` the caller's
      fields (an absent mapping is the empty one). */
  function Dispatch(apiKey: string, apiSecret: string, methodName: string,
                    req: map<string, Value>, nonce: nat, sign: Signer): Result<Request, Error>
  {
    match Classify(methodName)
    case Public => Success(Request(GET, Base + methodName + "/", None, map[]))
    case Private =>
      var url := PrivateUrl(methodName, nonce);
      var fields := req["apikey" := Text(apiKey)]["signature" := Text(sign(apiSecret, url))];
      Success(Request(POST, url, Some(url), fields))
    case Unrouted => Failure(UnroutedMethod(methodName))
  }

  /** Market paths become an unsigned GET of the path plus a trailing slash;
      the caller's fields are neither sent nor signed. */
  lemma MarketRoute(apiKey: string, apiSecret: string, methodName: string,
                    req: map<string, Value>, nonce: nat, sign: Signer)
    requires "market" <= methodName
    ensures Dispatch(apiKey, apiSecret, methodName, req, nonce, sign)
            == Success(Request(GET, Base + methodName + "/", None, map[]))
  {
    ClassifyPublic(methodName);
  }

  /** Private paths become a POST to the nonce-carrying URL below "private/",
      and the signed message is that same URL. */
  lemma PrivateRoute(apiKey: string, apiSecret: string, methodName: string,
                     req: map<string, Value>, nonce: nat, sign: Signer, endpoint: string)
    requires endpoint in PrivateMethods && UnderEndpoint(methodName, endpoint)
    ensures var r := Dispatch(apiKey, apiSecret, methodName, req, nonce, sign);
            && r.Success? && r.value.verb == POST
            && r.value.target == Base + "private/" + methodName + "/?nonce=" + Decimal(nonce)
            && r.value.signedMessage == Some(r.value.target)
  {
    PrivateFromEndpoint(methodName, endpoint);
    CanonicalUrl(methodName, nonce);
  }

  /** A path that neither starts with "market" nor names a private endpoint
      produces no request, only an error. */
  lemma UnroutedIsError(apiKey: string, apiSecret: string, methodName: string,
                        req: map<string, Value>, nonce: nat, sign: Signer)
    requires !("market" <= methodName)
    requires forall p :: p in PrivateMethods ==> !UnderEndpoint(methodName, p)
    ensures Dispatch(apiKey, apiSecret, methodName, req, nonce, sign)
            == Failure(UnroutedMethod(methodName))
  {
    ClassifyPublic(methodName);
    ClassifyPrivate(methodName);
  }

  /** The empty path is unrouted. */
  lemma EmptyMethodIsError(apiKey: string, apiSecret: string,
                           req: map<string, Value>, nonce: nat, sign: Signer)
    ensures Dispatch(apiKey, apiSecret, "", req, nonce, sign) == Failure(UnroutedMethod(""))
  {
    UnroutedIsError(apiKey, apiSecret, "", req, nonce, sign);
  }

  /** For every request produced: a GET carries no fields and no signature; a
      POST is signed over exactly the string it is sent to, with the key and
      the signature in its fields. */
  lemma SignedIsSent(apiKey: string, apiSecret: string, methodName: string,
                     req: map<string, Value>, nonce: nat, sign: Signer)
    ensures var r := Dispatch(apiKey, apiSecret, methodName, req, nonce, sign);
            r.Success? ==>
              (r.value.verb == GET ==> r.value.signedMessage == None && r.value.params == map[])
              && (r.value.verb == POST ==>
                    && r.value.signedMessage == Some(r.value.target)
                    && "apikey" in r.value.params && r.value.params["apikey"] == Text(apiKey)
                    && "signature" in r.value.params
                    && r.value.params["signature"] == Text(sign(apiSecret, r.value.target)))
  {
  }

  /** On a private call the sent fields are the caller's with "apikey" and
      "signature" set; every other field keeps its value. */
  lemma OnlyTwoKeysChange(apiKey: string, apiSecret: string, methodName: string,
                          req: map<string, Value>, nonce: nat, sign: Signer)
    requires Classify(methodName) == Private
    ensures var r := Dispatch(apiKey, apiSecret, methodName, req, nonce, sign);
            && r.Success?
            && r.value.params.Keys == req.Keys + {"apikey", "signature"}
            && (forall k :: k in req && k != "apikey" && k != "signature"
                  ==> r.value.params[k] == req[k])
  {
  }

  /** Private calls made at different nonces are signed over, and sent to,
      different URLs. */
  lemma NoncesSeparateRequests(apiKey: string, apiSecret: string, methodName: string,
                               req: map<string, Value>, n1: nat, n2: nat, sign: Signer)
    requires Classify(methodName) == Private && n1 != n2
    ensures Dispatch(apiKey, apiSecret, methodName, req, n1, sign).value.target
            != Dispatch(apiKey, apiSecret, methodName, req, n2, sign).value.target
  {
    var prefix := Base + "private/" + methodName + "/" + "?nonce=";
    var u1, u2 := PrivateUrl(methodName, n1), PrivateUrl(methodName, n2);
    if u1 == u2 {
      assert u1[|prefix|..] == Decimal(n1);
      assert u2[|prefix|..] == Decimal(n2);
      DecimalInjective(n1, n2);
    }
  }

  /** The nonce can be read back from the tail of the private URL. */
  lemma NonceInUrl(methodName: string, nonce: nat)
    ensures var url := PrivateUrl(methodName, nonce);
            var tail := url[|Base + "private/" + methodName + "/?nonce="|..];
            IsCanonical(tail) && ParseDecimal(tail) == nonce
  {
    var url := PrivateUrl(methodName, nonce);
    assert url[|Base + "private/" + methodName + "/?nonce="|..] == Decimal(nonce);
    ParseDecimalOfDecimal(nonce);
  }

  /** Every listed public method routes to the market branch. */
  lemma PublicSetRoutesPublic(methodName: string)
    requires methodName in PublicMethods
    ensures Classify(methodName) == Public
  {
    assert "market" <= methodName by {
      if methodName == "markets" {
      } else if methodName == "market/info" {
      } else if methodName == "market/orderhistory" {
      } else {
        assert methodName == "market/openorders";
      }
    }
    ClassifyPublic(methodName);
  }

  /** Every private endpoint, alone or with a path below it, routes private. */
  lemma PrivateSetRoutesPrivate(endpoint: string, rest: string)
    requires endpoint in PrivateMethods
    ensures Classify(endpoint) == Private
    ensures Classify(endpoint + "/" + rest) == Private
  {
    PrivateFromEndpoint(endpoint, endpoint);
    PrivateFromEndpoint(endpoint + "/" + rest, endpoint);
  }

  /** Python's `str(v) if v is not None else ''` for a credential. */
  function Credential(v: Option<string>): string
  {
    match v
    case None => ""
    case Some(s) => s
  }

  /** A mutable mapping of form fields: the dictionary a caller passes as `req`. */
  class Form {
    var fields: map<string, Value>

    constructor (fields: map<string, Value>)
      ensures this.fields == fields
    {
      this.fields := fields;
    }
  }

  /** A client holding its credentials. They are `const`: no method can
      reassign them after construction. */
  class Client {
    const apiKey: string
    const apiSecret: string

    /** Absent credentials become empty strings. */
    constructor (key: Option<string>, secret: Option<string>)
      ensures apiKey == Credential(key) && apiSecret == Credential(secret)
      ensures key.None? ==> apiKey == ""
      ensures secret.None? ==> apiSecret == ""
    {
      apiKey := Credential(key);
      apiSecret := Credential(secret);
    }

    /** `api_query`: route `methodName`, and for a private call add the key
        and the signature to the fields and sign the URL it posts to. A
        non-empty caller mapping is updated in place; a missing or empty one is
        replaced by a fresh mapping, so the caller's is left alone. */
    method ApiQuery(methodName: string, req: Form?, nonce: nat, sign: Signer)
      returns (r: Result<Request, Error>)
      modifies req
      ensures r == Dispatch(apiKey, apiSecret, methodName,
                            if req == null then map[] else old(req.fields), nonce, sign)
      ensures req != null ==>
                req.fields == if old(req.fields) != map[] && Classify(methodName) == Private
                              then r.value.params else old(req.fields)
    {
      var url := Base;
      var form := req;
      if form == null || form.fields == map[] {
        form := new Form(map[]);
      }
      var segment := FirstSegment(methodName);
      if Head(segment, 6) == "market" {
        r := Success(Request(GET, url + methodName + "/", None, map[]));
      } else if segment in PrivateMethods {
        url := url + "private/" + methodName + "/" + "?nonce=" + Decimal(nonce);
        form.fields := form.fields["apikey" := Text(apiKey)];
        form.fields := form.fields["signature" := Text(sign(apiSecret, url))];
        r := Success(Request(POST, url, Some(url), form.fields));
      } else {
        r := Failure(UnroutedMethod(methodName));
      }
    }

    /** A wrapper's delegation: the fields go in a fresh mapping (or none), so
        nothing the caller holds is changed. */
    method Send(call: Call, nonce: nat, sign: Signer) returns (r: Result<Request, Error>)
      ensures r == Dispatch(apiKey, apiSecret, call.methodName, call.params, nonce, sign)
    {
      if call.params == map[] {
        r := ApiQuery(call.methodName, null, nonce, sign);
      } else {
        var form := new Form(call.params);
        r := ApiQuery(call.methodName, form, nonce, sign);
      }
    }
  }
}
