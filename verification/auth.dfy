/** The shared-secret check that guards the endpoint
    (pages/api/send-report.js, lines 25-33). */
module Auth {
  import opened Wrappers
  import opened Types

  const TokenHeader := "x-secret-token"
  const LegacyHeader := "x-secret"
  const SecretParam := "secret"

  /** The token header is missing or empty. */
  predicate TokenHeaderBlank(headers: map<string, string>) {
    TokenHeader !in headers || headers[TokenHeader] == ""
  }

  /** The header credential, `x-secret-token || x-secret`: the legacy header
      is consulted only when the token header is missing or empty. */
  function HeaderSecret(headers: map<string, string>): (secret: Option<string>)
    // a non-empty token header is the credential
    ensures TokenHeader in headers && headers[TokenHeader] != "" ==> secret == Some(headers[TokenHeader])
    // otherwise the legacy header is, when it is present
    ensures TokenHeaderBlank(headers) && LegacyHeader in headers ==> secret == Some(headers[LegacyHeader])
    // and there is none only when neither header supplies one
    ensures secret.None? <==> TokenHeaderBlank(headers) && LegacyHeader !in headers
  {
    if Truthy(Lookup(headers, TokenHeader)) then Lookup(headers, TokenHeader)
    else Lookup(headers, LegacyHeader)
  }

  /** The `secret` query parameter, `req.query?.secret`. */
  function QuerySecret(req: Request): Option<Param> {
    match req.query
    case None => None
    case Some(q) => Lookup(q, SecretParam)
  }

  /** The token header carries exactly the secret. */
  predicate TokenMatches(headers: map<string, string>, secret: string) {
    TokenHeader in headers && headers[TokenHeader] == secret
  }

  /** The token header is missing or empty and the legacy header carries
      exactly the secret. */
  predicate LegacyMatches(headers: map<string, string>, secret: string) {
    && TokenHeaderBlank(headers)
    && LegacyHeader in headers && headers[LegacyHeader] == secret
  }

  /** The query string has a single-valued `secret` equal to the secret. */
  predicate QueryMatches(query: Option<map<string, Param>>, secret: string) {
    query.Some? && SecretParam in query.value && query.value[SecretParam] == One(secret)
  }

  /** Whether a request gets past the secret check. A configured secret is
      compared by exact equality; an unset or empty one disables the check. */
  function Authorized(cronSecret: Option<string>, req: Request): (ok: bool)
    // no secret configured: the endpoint is open
    ensures !Truthy(cronSecret) ==> ok
    // with a secret, each credential alone is enough, and nothing else passes
    ensures Truthy(cronSecret) ==>
              (ok <==> || TokenMatches(req.headers, cronSecret.value)
                       || LegacyMatches(req.headers, cronSecret.value)
                       || QueryMatches(req.query, cronSecret.value))
  {
    !Truthy(cronSecret)
    || HeaderSecret(req.headers) == cronSecret
    || QuerySecret(req) == Some(One(cronSecret.value))
  }

  /** A non-empty token header that does not match shadows the legacy header:
      a correct `x-secret` is then ignored. */
  lemma TokenHeaderShadowsLegacy(cronSecret: Option<string>, req: Request)
    requires Truthy(cronSecret)
    requires TokenHeader in req.headers && req.headers[TokenHeader] != ""
    requires req.headers[TokenHeader] != cronSecret.value
    requires QuerySecret(req) != Some(One(cronSecret.value))
    ensures !Authorized(cronSecret, req)
  {
  }
}
