/** The token decisions of `AuthValuai` and `AuthManager`. Each HTTP call becomes an input:
    what the token endpoint answered. The two variants share `get_new_tokens` and
    `refresh_tokens`; they differ in which exceptions from the refresh path make
    `get_valid_token` fall back to obtaining new tokens. */
module TokenManager {
  import opened Wrappers
  import opened Exceptions
  import opened DotEnv

  /** One request to a token endpoint: a transport failure, or a status and a body. A decoded
      body is a JSON object of strings (`Some`) or `null` (`None`, also what an empty body
      reads as). */
  datatype HttpOutcome = TransportError | Response(status: int, body: JsonBody<Option<map<string, string>>>)

  /** A call's result together with the environment and `.env` file it leaves. */
  datatype Step<T> = Step(result: Result<T, Exc>, env: EnvState)

  datatype Variant = AuthValuai | AuthManager

  /** The exceptions of the refresh path that `get_valid_token` answers by obtaining new tokens:
      `(aiohttp.ClientError, KeyError)` in `AuthValuai`, every `Exception` in `AuthManager`. */
  predicate Catches(v: Variant, x: Exc)
  {
    match v
    case AuthValuai => x == ClientError || x == KeyError
    case AuthManager => true
  }

  /** The 200 branch shared by `get_new_tokens` and `refresh_tokens`: `tokens = await
      response.json()`, then `update_env_tokens(tokens)`, then `return tokens`. A `null`
      document makes the key test `key in tokens` raise TypeError. */
  function Persisted(e: EnvState, body: JsonBody<Option<map<string, string>>>): (r: Step<map<string, string>>)
    ensures r.result.Ok? <==> body.Decoded? && body.doc.Some? && HasTokens(body.doc.value)
    ensures r.result.Ok? ==> r.result.value == body.doc.value && EnvUpdate(e, body.doc.value) == Ok(r.env)
    ensures r.result.Err? ==> r.env == e
    ensures body.WrongContentType? ==> r.result == Err(ClientError)
    ensures body.Malformed? ==> r.result == Err(ValueError)
    ensures body == Decoded(None) ==> r.result == Err(TypeError)
    ensures body.Decoded? && body.doc.Some? && !HasTokens(body.doc.value) ==> r.result == Err(ValueError)
  {
    var doc: Result<Option<map<string, string>>, Exc> := ReadJson(body);
    match doc
    case Err(x) => Step(Err(x), e)
    case Ok(None) => Step(Err(TypeError), e)
    case Ok(Some(tokens)) =>
      match EnvUpdate(e, tokens)
      case Err(x) => Step(Err(x), e)
      case Ok(e') => Step(Ok(tokens), e')
  }

  /** `get_new_tokens`: 400 and 401 raise, 200 persists and returns the body, any other status raises. */
  function GetNewTokens(e: EnvState, resp: HttpOutcome): (r: Step<map<string, string>>)
    ensures r.result.Ok? <==>
              resp.Response? && resp.status == 200 && resp.body.Decoded? && resp.body.doc.Some? && HasTokens(resp.body.doc.value)
    ensures r.result.Ok? ==> r.result.value == resp.body.doc.value && EnvUpdate(e, resp.body.doc.value) == Ok(r.env)
    ensures r.result.Ok? ==> r.env.environ[AccessKey] == r.result.value[AuthorizationField]
    ensures r.result.Err? ==> r.env == e
    ensures resp.TransportError? ==> r.result == Err(ClientError)
    ensures resp.Response? && resp.status != 200 ==> r.result == Err(StatusError(resp.status))
    ensures resp.Response? && resp.status == 200 ==> r == Persisted(e, resp.body)
  {
    match resp
    case TransportError => Step(Err(ClientError), e)
    case Response(status, body) =>
      if status == 400 then Step(Err(StatusError(400)), e)
      else if status == 401 then Step(Err(StatusError(401)), e)
      else if status == 200 then Persisted(e, body)
      else Step(Err(StatusError(status)), e)
  }

  /** `refresh_tokens`: like `get_new_tokens` for 400, 401 and 200, but any other status falls
      off the end of the method and returns `None` without persisting anything. */
  function RefreshTokens(e: EnvState, resp: HttpOutcome): (r: Step<Option<map<string, string>>>)
    ensures r.result.Ok? && r.result.value.Some? <==>
              resp.Response? && resp.status == 200 && resp.body.Decoded? && resp.body.doc.Some? && HasTokens(resp.body.doc.value)
    ensures r.result.Ok? && r.result.value.Some? ==>
              r.result.value.value == resp.body.doc.value && EnvUpdate(e, resp.body.doc.value) == Ok(r.env)
    ensures r.result == Ok(None) <==> resp.Response? && resp.status !in {200, 400, 401}
    ensures r.result.Err? || r.result == Ok(None) ==> r.env == e
    ensures resp.TransportError? ==> r.result == Err(ClientError)
    ensures resp.Response? && resp.status in {400, 401} ==> r.result == Err(StatusError(resp.status))
    ensures resp.Response? && resp.status == 200 && r.result.Err? ==> r.result.error == Persisted(e, resp.body).result.error
  {
    match resp
    case TransportError => Step(Err(ClientError), e)
    case Response(status, body) =>
      if status == 400 then Step(Err(StatusError(400)), e)
      else if status == 401 then Step(Err(StatusError(401)), e)
      else if status == 200 then
        var p := Persisted(e, body);
        Step(if p.result.Ok? then Ok(Some(p.result.value)) else Err(p.result.error), p.env)
      else Step(Ok(None), e)
  }

  /** `tokens["authorization_token"]` on what `get_new_tokens` returned. */
  function AccessOf(s: Step<map<string, string>>): Step<string>
    requires s.result.Ok? ==> HasTokens(s.result.value)
  {
    match s.result
    case Err(x) => Step(Err(x), s.env)
    case Ok(tokens) => Step(Ok(tokens[AuthorizationField]), s.env)
  }

  /** `os.getenv` of both tokens gives non-empty strings. */
  predicate HasStoredTokens(e: EnvState)
  {
    AccessKey in e.environ && e.environ[AccessKey] != "" && RefreshKey in e.environ && e.environ[RefreshKey] != ""
  }

  /** The `try` body of the refresh path: `refresh_tokens(...)["authorization_token"]`, where
      subscripting the `None` of an unexpected status raises TypeError. */
  function RefreshAttempt(e: EnvState, refreshResp: HttpOutcome): (r: Step<string>)
    ensures r.env == RefreshTokens(e, refreshResp).env
    ensures r.result.Ok? <==> RefreshTokens(e, refreshResp).result.Ok? && RefreshTokens(e, refreshResp).result.value.Some?
    ensures r.result.Ok? ==> r.result.value == RefreshTokens(e, refreshResp).result.value.value[AuthorizationField]
    ensures RefreshTokens(e, refreshResp).result.Err? ==> r.result == Err(RefreshTokens(e, refreshResp).result.error)
    ensures RefreshTokens(e, refreshResp).result == Ok(None) ==> r.result == Err(TypeError)
  {
    var rf := RefreshTokens(e, refreshResp);
    match rf.result
    case Err(x) => Step(Err(x), rf.env)
    case Ok(None) => Step(Err(TypeError), rf.env)
    case Ok(Some(tokens)) => Step(Ok(tokens[AuthorizationField]), rf.env)
  }

  /** `get_valid_token`: new tokens when either stored token is missing or empty; otherwise a
      refresh, and new tokens only when the refresh raised an exception the variant catches. */
  function GetValidToken(v: Variant, e: EnvState, refreshResp: HttpOutcome, newResp: HttpOutcome): (r: Step<string>)
    ensures r.result.Err? ==> r.env == e
    ensures r.result.Ok? ==> AccessKey in r.env.environ && r.env.environ[AccessKey] == r.result.value
    ensures r.result.Ok? ==> r.env.dotEnv.Some?
    ensures r.result.Ok? ==> exists t :: HasTokens(t) && t[AuthorizationField] == r.result.value && EnvUpdate(e, t) == Ok(r.env)
    ensures v == AuthManager && r.result.Err? ==> GetNewTokens(e, newResp).result.Err?
  {
    if !HasStoredTokens(e) then AccessOf(GetNewTokens(e, newResp))
    else
      var attempt := RefreshAttempt(e, refreshResp);
      if attempt.result.Ok? then attempt
      else if Catches(v, attempt.result.error) then AccessOf(GetNewTokens(attempt.env, newResp))
      else attempt
  }

  /** Without both stored tokens no refresh is attempted: only `get_new_tokens` decides. */
  lemma MissingTokensSkipRefresh(v: Variant, e: EnvState, r1: HttpOutcome, r2: HttpOutcome, newResp: HttpOutcome)
    requires !HasStoredTokens(e)
    ensures GetValidToken(v, e, r1, newResp) == GetValidToken(v, e, r2, newResp)
    ensures GetValidToken(v, e, r1, newResp) == AccessOf(GetNewTokens(e, newResp))
  {
  }

  /** A successful refresh answers with the refreshed token, whatever `get_new_tokens` would do. */
  lemma RefreshSuccessWins(v: Variant, e: EnvState, tokens: map<string, string>, n1: HttpOutcome, n2: HttpOutcome)
    requires HasStoredTokens(e) && HasTokens(tokens)
    ensures GetValidToken(v, e, Response(200, Decoded(Some(tokens))), n1) == GetValidToken(v, e, Response(200, Decoded(Some(tokens))), n2)
    ensures GetValidToken(v, e, Response(200, Decoded(Some(tokens))), n1).result == Ok(tokens[AuthorizationField])
  {
  }

  /** `AuthManager`: whenever the refresh path fails, for whatever reason, the answer is exactly
      that of `get_new_tokens` on the unchanged environment. */
  lemma ManagerFallsBack(e: EnvState, refreshResp: HttpOutcome, newResp: HttpOutcome)
    requires HasStoredTokens(e) && RefreshAttempt(e, refreshResp).result.Err?
    ensures GetValidToken(AuthManager, e, refreshResp, newResp) == AccessOf(GetNewTokens(e, newResp))
  {
  }

  /** `AuthManager` answers with a token whenever `get_new_tokens` would succeed. */
  lemma ManagerNeverFailsIfNewSucceeds(e: EnvState, refreshResp: HttpOutcome, newResp: HttpOutcome)
    requires GetNewTokens(e, newResp).result.Ok?
    ensures GetValidToken(AuthManager, e, refreshResp, newResp).result.Ok?
  {
  }

  /** `AuthValuai`: a refresh rejected with 400 or 401 raises out of `get_valid_token`, even when
      `get_new_tokens` would have succeeded. */
  lemma ValuaiRejectedRefreshPropagates(e: EnvState, status: int, body: JsonBody<Option<map<string, string>>>, newResp: HttpOutcome)
    requires HasStoredTokens(e) && status in {400, 401}
    ensures GetValidToken(AuthValuai, e, Response(status, body), newResp) == Step(Err(StatusError(status)), e)
  {
  }

  /** `AuthValuai`: a refresh answered with an unexpected status yields `None`, and subscripting
      it raises a TypeError that is not caught. */
  lemma ValuaiUnexpectedStatusPropagates(e: EnvState, status: int, body: JsonBody<Option<map<string, string>>>, newResp: HttpOutcome)
    requires HasStoredTokens(e) && status !in {200, 400, 401}
    ensures GetValidToken(AuthValuai, e, Response(status, body), newResp) == Step(Err(TypeError), e)
  {
  }

  /** `AuthValuai`: a transport failure of the refresh, or a refresh body whose Content-Type is
      not JSON, raises a ClientError and falls back to `get_new_tokens`. */
  lemma ValuaiTransportErrorFallsBack(e: EnvState, newResp: HttpOutcome)
    requires HasStoredTokens(e)
    ensures GetValidToken(AuthValuai, e, TransportError, newResp) == AccessOf(GetNewTokens(e, newResp))
    ensures GetValidToken(AuthValuai, e, Response(200, WrongContentType), newResp) == AccessOf(GetNewTokens(e, newResp))
  {
  }

  /** `AuthValuai`: a 200 refresh whose body is malformed JSON, `null`, or an object without both
      tokens raises ValueError or TypeError, which is not caught, even when new tokens could be had. */
  lemma ValuaiUndecodableRefreshPropagates(e: EnvState, tokens: map<string, string>, newResp: HttpOutcome)
    requires HasStoredTokens(e) && !HasTokens(tokens)
    ensures GetValidToken(AuthValuai, e, Response(200, Malformed), newResp) == Step(Err(ValueError), e)
    ensures GetValidToken(AuthValuai, e, Response(200, Decoded(None)), newResp) == Step(Err(TypeError), e)
    ensures GetValidToken(AuthValuai, e, Response(200, Decoded(Some(tokens))), newResp) == Step(Err(ValueError), e)
  {
  }

  /** The two variants agree except where the refresh raised something `AuthValuai` lets through. */
  lemma VariantsAgreeUnlessRefreshRaises(e: EnvState, refreshResp: HttpOutcome, newResp: HttpOutcome)
    requires !HasStoredTokens(e) || RefreshAttempt(e, refreshResp).result.Ok?
             || Catches(AuthValuai, RefreshAttempt(e, refreshResp).result.error)
    ensures GetValidToken(AuthValuai, e, refreshResp, newResp) == GetValidToken(AuthManager, e, refreshResp, newResp)
  {
  }
}
