/**
 * The records of fulmine/models.py as values: a grant, a temporary grant
 * (authorization code), a refresh token and the session entry behind an
 * access token, with the errors the models raise.
 */
module Records {
  import opened Wrappers
  import opened Scope

  /** Django's `User.id`. */
  type UserId = nat

  /** The separator of every SeparatedValuesField in the models (the default). */
  const ScopeSeparator: char := ' '

  /** A grant is unique per (client_id, user) (`unique_together`), so that
      pair is the key the other records refer to it by. */
  datatype GrantKey = GrantKey(clientId: string, user: UserId)

  /** AuthorizationGrant (fulmine/models.py:64-74); `id` is the primary key. */
  datatype Grant = Grant(
    id: nat,
    clientId: string,
    authBackend: string,
    user: UserId,
    scope: ScopeValue,
    revoked: bool)

  /** TemporaryGrant (fulmine/models.py:116-127); its auth code is the key it is stored under. */
  datatype TemporaryGrant = TemporaryGrant(
    expires: int,
    grant: GrantKey,
    scope: ScopeValue,
    deployId: string,
    state: string,
    redirectUri: string,
    consumed: bool)

  /** RefreshToken (fulmine/models.py:167-174); its token text is the key it is stored under. */
  datatype RefreshToken = RefreshToken(
    deployId: string,
    grant: GrantKey,
    scope: ScopeValue,
    revoked: bool)

  /** The session entry new_access_token writes (fulmine/models.py:86-99). */
  datatype Session = Session(
    secret: string,
    clientId: string,
    deployId: string,
    user: UserId,
    authBackend: string,
    scope: ScopeValue,
    revoked: bool,
    grantId: nat,
    expiresIn: int)

  /** A freshly generated access token: its text and what `parse_bearer`
      splits it into. */
  datatype Bearer = Bearer(text: string, sessionKey: string, secret: string)

  /** What an `emit_token` returns: the access token text and, maybe, a refresh token text. */
  datatype Emitted = Emitted(accessToken: string, refreshToken: Option<string>)

  datatype Error =
    | ConsumedGrant        // "consumed grant can't emit tokens"
    | RevokedRefreshToken  // "revoked refresh token can't be used"
    | SessionExists        // session.save(must_create=True) on a key in use
    | ScopeTypeError       // set(None) when a scope is requested from a grant without one
    | GrantTypeMismatch    // a RefreshToken assigned to a ForeignKey(AuthorizationGrant)
    | NullClientId         // get_or_create of a grant with client_id None
    | NoGrant              // grant_obj used before grant() set it

  /** The conditions of TemporaryGrantManager.authorized on one record. */
  predicate Redeemable(t: TemporaryGrant, redirectUri: string, clientId: string, deployId: string, now: int) {
    && !t.consumed
    && t.expires > now
    && t.redirectUri == redirectUri
    && t.grant.clientId == clientId
    && t.deployId == deployId
  }
}
