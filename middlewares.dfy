/** Request middlewares (api/middlewares/middlewares.go): bearer-token
    extraction, token validation, the ownership check and the CORS
    allowlist. The identity provider's token checks are parameters. */
module Middlewares {
  import opened Errors
  import opened Text
  import opened ApiErrors

  const BearerPrefix: string := "Bearer "

  /** `GetAuthToken`: the Authorization header must be present and start
      with exactly `Bearer `; the token is the rest, possibly empty. */
  function GetAuthToken(authHeader: string): (r: Result<string>)
    ensures authHeader == "" ==> r == Err(Failure("No authorization header found."))
    ensures authHeader != "" && !HasPrefix(authHeader, BearerPrefix) ==> r == Err(Failure("Invalid auth token format"))
    ensures r.Ok? <==> HasPrefix(authHeader, BearerPrefix)
    ensures r.Ok? ==> authHeader == BearerPrefix + r.value
  {
    if authHeader == "" then Err(Failure("No authorization header found."))
    else if !HasPrefix(authHeader, BearerPrefix) then Err(Failure("Invalid auth token format"))
    else Ok(TrimPrefix(authHeader, BearerPrefix))
  }

  /** Whatever follows the prefix is read back as the token. */
  lemma {:induction false} AuthTokenRoundTrip(token: string)
    ensures GetAuthToken(BearerPrefix + token) == Ok(token)
  {
    var h := BearerPrefix + token;
    assert h[..|BearerPrefix|] == BearerPrefix;
    assert h[|BearerPrefix|..] == token;
  }

  /** What a middleware does with a request: answer it itself, or pass it
      on (with the token it read, where it reads one). */
  datatype Gate = Reject(error: ApiError) | Next(token: string)

  /** `ValidateToken` (and `ValidateReadTranscript`, which is the same):
      `validate` is the identity provider's token check. */
  function ValidateToken(authHeader: string, validate: string -> Option<Error>): (g: Gate)
    ensures GetAuthToken(authHeader).Err? ==> g == Reject(ApiError(StatusUnauthorized, "", "Invalid auth headerformat"))
    ensures g.Next? <==> GetAuthToken(authHeader).Ok? && validate(GetAuthToken(authHeader).value).None?
    ensures g.Next? ==> g.token == GetAuthToken(authHeader).value
    ensures g.Reject? ==> g.error.code == StatusUnauthorized
  {
    var token := GetAuthToken(authHeader);
    if token.Err? then Reject(ApiError(StatusUnauthorized, "", "Invalid auth headerformat"))
    else if validate(token.value).Some? then Reject(ApiError(StatusUnauthorized, "", "Invalid auth token"))
    else Next(token.value)
  }

  /** The identity provider's record of a token's user. */
  datatype AuthRecord = AuthRecord(uid: string, emailVerified: bool)

  /** `ValidateOwnership`: the caller must be the verified owner of the
      account named in the path. `getRecord` is the provider's lookup of
      the record behind a token. */
  function ValidateOwnership(pathID: string, authHeader: string, getRecord: string -> Result<AuthRecord>): (g: Gate)
    // The checks come in this order, each answering with its own status.
    ensures pathID == "" ==> g == Reject(ApiError(StatusBadRequest, "", "Missing the id path param value"))
    ensures pathID != "" && GetAuthToken(authHeader).Err? ==>
      g == Reject(ApiError(StatusUnauthorized, "", "Invalid auth headerformat"))
    ensures pathID != "" && GetAuthToken(authHeader).Ok? ==>
      var rec := getRecord(GetAuthToken(authHeader).value);
      (rec.Err? ==> g.Reject? && g.error.code == StatusInternalServerError) &&
      (rec.Ok? && !rec.value.emailVerified ==> g == Reject(ApiError(StatusUnauthorized, UnverifiedEmailAccount.Text(), ""))) &&
      (rec.Ok? && rec.value.emailVerified && rec.value.uid != pathID ==>
         g == Reject(ApiError(StatusUnauthorized, AuthTokenDoesNotMatchAcessedUser.Text(), "")))
    // The next handler runs exactly for the verified owner.
    ensures g.Next? <==> (pathID != "" && GetAuthToken(authHeader).Ok? &&
      getRecord(GetAuthToken(authHeader).value).Ok? &&
      getRecord(GetAuthToken(authHeader).value).value.emailVerified &&
      getRecord(GetAuthToken(authHeader).value).value.uid == pathID)
  {
    if pathID == "" then Reject(ApiError(StatusBadRequest, "", "Missing the id path param value"))
    else
      var token := GetAuthToken(authHeader);
      if token.Err? then Reject(ApiError(StatusUnauthorized, "", "Invalid auth headerformat"))
      else
        var rec := getRecord(token.value);
        if rec.Err? then
          Reject(ApiError(StatusInternalServerError, "", "Faile to get the user auth record: " + rec.error.Text()))
        else if !rec.value.emailVerified then Reject(ApiError(StatusUnauthorized, UnverifiedEmailAccount.Text(), ""))
        else if rec.value.uid != pathID then Reject(ApiError(StatusUnauthorized, AuthTokenDoesNotMatchAcessedUser.Text(), ""))
        else Next(token.value)
  }

  const AllowedOrigins: set<string> :=
    {"capacitor://localhost", "http://localhost", "http://localhost:8100", "https://eavesdropper-4f10b.web.app"}

  const DefaultAllowHeaders: string := "Content-Type, Authorization, X-Requested-With, Accept, Origin, Cache-Control"
  const AllowMethods: string := "GET, POST, PUT, DELETE, OPTIONS"
  const MaxAge: string := "86400"

  /** The headers the middleware sets for an allowlisted origin. */
  function CorsHeaders(origin: string, requestHeaders: string): (h: map<string, string>)
    ensures h.Keys == {"Access-Control-Allow-Origin", "Vary", "Access-Control-Allow-Credentials",
                       "Access-Control-Allow-Headers", "Access-Control-Allow-Methods", "Access-Control-Max-Age"}
    ensures h["Access-Control-Allow-Origin"] == origin && h["Vary"] == "Origin"
    ensures h["Access-Control-Allow-Credentials"] == "true"
    ensures h["Access-Control-Allow-Headers"] == if requestHeaders == "" then DefaultAllowHeaders else requestHeaders
    ensures h["Access-Control-Allow-Methods"] == AllowMethods && h["Access-Control-Max-Age"] == MaxAge
  {
    var allowHeaders := if requestHeaders == "" then DefaultAllowHeaders else requestHeaders;
    map["Access-Control-Allow-Origin" := origin,
        "Vary" := "Origin",
        "Access-Control-Allow-Credentials" := "true",
        "Access-Control-Allow-Headers" := allowHeaders,
        "Access-Control-Allow-Methods" := AllowMethods,
        "Access-Control-Max-Age" := MaxAge]
  }

  /** Setting the six headers one by one adds the CORS headers. */
  lemma SetsAddCorsHeaders(h: map<string, string>, origin: string, requestHeaders: string, allowHeaders: string)
    requires allowHeaders == if requestHeaders == "" then DefaultAllowHeaders else requestHeaders
    ensures h["Access-Control-Allow-Origin" := origin]["Vary" := "Origin"]["Access-Control-Allow-Credentials" := "true"]
             ["Access-Control-Allow-Headers" := allowHeaders]["Access-Control-Allow-Methods" := AllowMethods]
             ["Access-Control-Max-Age" := MaxAge]
            == h + CorsHeaders(origin, requestHeaders)
  {
  }

  /** The response being written: its header map and the status written,
      0 while none is. */
  class ResponseWriter {
    var header: map<string, string>
    var status: int

    constructor ()
      ensures header == map[] && status == 0
    {
      header := map[];
      status := 0;
    }

    method Set(key: string, value: string)
      modifies this
      ensures header == old(header)[key := value] && status == old(status)
    {
      header := header[key := value];
    }

    method WriteHeader(code: int)
      modifies this
      ensures status == code && header == old(header)
    {
      status := code;
    }
  }

  /** `CorsMiddleware`: sets the CORS headers exactly for an allowlisted
      origin, answers every preflight with 204 itself, and passes every
      other request on. */
  method CorsMiddleware(w: ResponseWriter, origin: string, requestHeaders: string, httpMethod: string)
    returns (callsNext: bool)
    modifies w
    ensures origin in AllowedOrigins ==> w.header == old(w.header) + CorsHeaders(origin, requestHeaders)
    ensures origin !in AllowedOrigins ==> w.header == old(w.header)
    ensures callsNext <==> httpMethod != "OPTIONS"
    ensures !callsNext ==> w.status == StatusNoContent
    ensures callsNext ==> w.status == old(w.status)
  {
    if origin in AllowedOrigins {
      ghost var h := w.header;
      w.Set("Access-Control-Allow-Origin", origin);
      w.Set("Vary", "Origin");
      w.Set("Access-Control-Allow-Credentials", "true");
      var reqHeaders := requestHeaders;
      if reqHeaders == "" {
        reqHeaders := DefaultAllowHeaders;
      }
      w.Set("Access-Control-Allow-Headers", reqHeaders);
      w.Set("Access-Control-Allow-Methods", AllowMethods);
      w.Set("Access-Control-Max-Age", MaxAge);
      SetsAddCorsHeaders(h, origin, requestHeaders, reqHeaders);
    }
    if httpMethod == "OPTIONS" {
      w.WriteHeader(StatusNoContent);
      return false;
    }
    return true;
  }

  /** The allowlist is exact: no other spelling of an allowed origin is let in. */
  lemma AllowlistIsExact()
    ensures "https://eavesdropper-4f10b.web.app/" !in AllowedOrigins
    ensures "http://localhost:8101" !in AllowedOrigins && "HTTP://localhost" !in AllowedOrigins
    ensures "" !in AllowedOrigins
  {
  }
}
