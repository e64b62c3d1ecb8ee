/** The API-key gate in front of the POST routes. */
module Auth {
  import opened Js
  import opened Env
  import opened Http

  const BearerPrefix: string := "Bearer "

  /** The `Authorization` header carries a bearer token. */
  predicate IsBearer(h: Headers) {
    h.authorization.Some? && BearerPrefix <= h.authorization.value
  }

  /** The token the caller presents: what follows "Bearer " in the
      `Authorization` header, or else the `x-api-key` header. */
  function PresentedToken(h: Headers): (t: Option<string>)
    ensures IsBearer(h) ==> t.Some? && h.authorization.value == BearerPrefix + t.value
    ensures !IsBearer(h) ==> t == h.xApiKey
  {
    var header := if h.authorization.Some? then h.authorization.value else "";
    if BearerPrefix <= header then Some(header[|BearerPrefix|..]) else h.xApiKey
  }

  /** Whatever key is sent as a bearer token is the key presented. */
  lemma BearerRoundTrip(key: string, xApiKey: Option<string>)
    ensures PresentedToken(Headers(Some(BearerPrefix + key), xApiKey)) == Some(key)
  {
  }

  /** `requireApiKey`: `None` lets the request through to its handler, `Some`
      is the response that ends it. */
  function RequireApiKey(cfg: Config, h: Headers): (r: Option<Response>)
    ensures r == None <==> IsSet(cfg.apiKey) && PresentedToken(h) == cfg.apiKey
    ensures !IsSet(cfg.apiKey) ==> r == Some(Error(500, ApiKeyNotConfigured))
    ensures IsSet(cfg.apiKey) && PresentedToken(h) != cfg.apiKey ==> r == Some(Error(401, Unauthorized))
  {
    if !IsSet(cfg.apiKey) then Some(Error(500, ApiKeyNotConfigured))
    else
      var token := PresentedToken(h);
      if token.None? || token.value == "" || token != cfg.apiKey then Some(Error(401, Unauthorized))
      else None
  }

  /** A bearer header that starts with "Bearer " always wins over `x-api-key`,
      even when its token is empty: then the request is refused even if
      `x-api-key` holds the right key. */
  lemma EmptyBearerRefused(cfg: Config, xApiKey: Option<string>)
    requires IsSet(cfg.apiKey)
    ensures RequireApiKey(cfg, Headers(Some(BearerPrefix), xApiKey)) == Some(Error(401, Unauthorized))
  {
  }
}
