/**
 * The grant and token store: the grants, the temporary grants (auth
 * codes), the refresh tokens and the session entries behind access tokens,
 * with the operations of the models and managers that read and change them.
 */
module Store {
  import opened Wrappers
  import opened Scope
  import opened Records

  /** What new_access_token (fulmine/models.py:81-101) does to the session
      table: the table with one new session, or the error it raises. */
  function Mint(sessions: map<string, Session>, g: Grant, expiresIn: int, deployId: string,
                scope: ScopeValue, bearer: Bearer): (r: Result<map<string, Session>, Error>)
    ensures r.Err? <==> TokenScope(scope, g.scope).None? || bearer.sessionKey in sessions
    ensures r.Err? ==> r.error == if TokenScope(scope, g.scope).None? then ScopeTypeError else SessionExists
    ensures r.Ok? ==> bearer.sessionKey !in sessions && r.value.Keys == sessions.Keys + {bearer.sessionKey}
    ensures r.Ok? ==> forall k :: k in sessions ==> r.value[k] == sessions[k]
    ensures r.Ok? ==>
      var s := r.value[bearer.sessionKey];
      && s.secret == bearer.secret && s.clientId == g.clientId && s.deployId == deployId
      && s.user == g.user && s.authBackend == g.authBackend && s.grantId == g.id
      && s.expiresIn == expiresIn && !s.revoked
      && ScopeWithin(s.scope, g.scope)
      && (!Requested(scope) ==> s.scope == g.scope)
      && (Requested(scope) ==>
            s.scope.Some? && NoDuplicates(s.scope.value) &&
            forall x :: x in s.scope.value <==> x in scope.value && x in g.scope.value)
  {
    match TokenScope(scope, g.scope)
    case None => Err(ScopeTypeError)
    case Some(tokenScope) =>
      if bearer.sessionKey in sessions then Err(SessionExists)
      else
        var session := Session(bearer.secret, g.clientId, deployId, g.user, g.authBackend,
                               tokenScope, false, g.id, expiresIn);
        Ok(sessions[bearer.sessionKey := session])
  }

  class AuthStore {
    /** AUTH_CODE_EXPIRE_SECONDS. */
    const authCodeExpireSeconds: nat

    var grants: map<GrantKey, Grant>
    var temporaryGrants: map<string, TemporaryGrant>
    var refreshTokens: map<string, RefreshToken>
    var sessions: map<string, Session>
    /** The primary key the next grant gets. */
    var nextGrantId: nat

    /** Each grant sits under its own (client_id, user) and has a primary
        key below the next one to be handed out; every code and refresh
        token points at a stored grant; every refresh token's scope is one
        its column gives back unchanged. */
    ghost predicate Valid()
      reads this
    {
      && 0 < nextGrantId
      && (forall k :: k in grants ==>
            grants[k].clientId == k.clientId && grants[k].user == k.user && 0 < grants[k].id < nextGrantId)
      && (forall c :: c in temporaryGrants ==> temporaryGrants[c].grant in grants)
      && (forall t :: t in refreshTokens ==> refreshTokens[t].grant in grants)
      && (forall t :: t in refreshTokens ==> Reload(refreshTokens[t].scope, ScopeSeparator) == refreshTokens[t].scope)
    }

    constructor (authCodeExpireSeconds: nat)
      ensures Valid()
      ensures this.authCodeExpireSeconds == authCodeExpireSeconds
      ensures grants == map[] && temporaryGrants == map[] && refreshTokens == map[] && sessions == map[]
    {
      this.authCodeExpireSeconds := authCodeExpireSeconds;
      grants, temporaryGrants, refreshTokens, sessions := map[], map[], map[], map[];
      nextGrantId := 1;
    }

    // -------------------------------------------------------------------
    // Managers
    // -------------------------------------------------------------------

    /** AuthorizationGrantManager.active: the grants that are not revoked. */
    function Active(): (r: map<GrantKey, Grant>)
      reads this
      ensures forall k :: k in r <==> k in grants && !grants[k].revoked
      ensures forall k :: k in r ==> r[k] == grants[k]
    {
      map k | k in grants && !grants[k].revoked :: grants[k]
    }

    /** TemporaryGrantManager.authorized: the code, if it is stored,
        unconsumed, unexpired at `now` and issued for this redirect_uri,
        client_id and deploy_id. At most one record matches. */
    function Authorized(authCode: string, redirectUri: string, clientId: string, deployId: string, now: int)
      : (r: map<string, TemporaryGrant>)
      reads this
      ensures r.Keys <= {authCode}
      ensures forall c :: c in r ==> c in temporaryGrants && r[c] == temporaryGrants[c]
      ensures forall c :: c in r ==>
        && !r[c].consumed && r[c].expires > now && r[c].redirectUri == redirectUri
        && r[c].grant.clientId == clientId && r[c].deployId == deployId
      ensures authCode in r <==>
        authCode in temporaryGrants && Redeemable(temporaryGrants[authCode], redirectUri, clientId, deployId, now)
    {
      map c | c in temporaryGrants && c == authCode
                && Redeemable(temporaryGrants[c], redirectUri, clientId, deployId, now)
        :: temporaryGrants[c]
    }

    /** RefreshTokenManager.refreshable: the token, if it is stored,
        unrevoked and issued for this deploy_id. */
    function Refreshable(token: string, deployId: string): (r: map<string, RefreshToken>)
      reads this
      ensures r.Keys <= {token}
      ensures forall t :: t in r ==> t in refreshTokens && r[t] == refreshTokens[t]
      ensures forall t :: t in r ==> !r[t].revoked && r[t].deployId == deployId
      ensures token in r <==>
        token in refreshTokens && !refreshTokens[token].revoked && refreshTokens[token].deployId == deployId
    {
      map t | t in refreshTokens && t == token && !refreshTokens[t].revoked && refreshTokens[t].deployId == deployId
        :: refreshTokens[t]
    }

    // -------------------------------------------------------------------
    // AuthorizationGrant
    // -------------------------------------------------------------------

    /** `AuthorizationGrant.objects.get_or_create` keyed by (client_id, user),
        as AuthorizationRequest.grant calls it: an existing grant is returned
        untouched (update_scope does nothing); otherwise a new unrevoked grant
        is stored with the requested scope and the next primary key. The
        stored scope is the one every later read of the grant sees: the
        assigned list, joined into the column and split again. */
    method GetOrCreateGrant(clientId: string, user: UserId, authBackend: string, scope: seq<string>)
      returns (key: GrantKey, created: bool)
      requires Valid()
      modifies this`grants, this`nextGrantId
      ensures Valid()
      ensures key == GrantKey(clientId, user) && key in grants
      ensures created <==> key !in old(grants)
      ensures grants.Keys == old(grants).Keys + {key}
      ensures !created ==> grants == old(grants) && nextGrantId == old(nextGrantId)
      ensures created ==>
        && grants == old(grants)[key := Grant(old(nextGrantId), clientId, authBackend, user,
                                              Reload(ToPython(Items(scope), ScopeSeparator), ScopeSeparator), false)]
        && nextGrantId == old(nextGrantId) + 1
      ensures created ==> forall k :: k in old(grants) ==> old(grants)[k].id != grants[key].id
    {
      key := GrantKey(clientId, user);
      if key in grants {
        created := false;
      } else {
        created := true;
        var g := Grant(nextGrantId, clientId, authBackend, user,
                       Reload(ToPython(Items(scope), ScopeSeparator), ScopeSeparator), false);
        grants := grants[key := g];
        nextGrantId := nextGrantId + 1;
        assert forall k :: k in grants && k != key ==> k in old(grants) && grants[k] == old(grants)[k];
      }
    }

    /** AuthorizationGrant.new_auth_code: an unsaved temporary grant of
        `key` with the field defaults: no scope, empty deploy_id, state and
        redirect_uri, unconsumed, expiring AUTH_CODE_EXPIRE_SECONDS after `now`. */
    function NewAuthCode(key: GrantKey, now: int): (t: TemporaryGrant)
      ensures t.grant == key && !t.consumed && t.scope.None? && t.deployId == ""
      ensures t.expires - now == authCodeExpireSeconds
    {
      TemporaryGrant(now + authCodeExpireSeconds, key, None, "", "", "", false)
    }

    /** `TemporaryGrant.save()` of a new record under a freshly generated code. */
    method SaveTemporaryGrant(code: string, t: TemporaryGrant)
      requires Valid()
      requires code !in temporaryGrants && t.grant in grants
      modifies this`temporaryGrants
      ensures Valid()
      ensures temporaryGrants == old(temporaryGrants)[code := t]
    {
      temporaryGrants := temporaryGrants[code := t];
    }

    /** AuthorizationGrant.new_access_token: stores one new session, under
        the session key of `bearer`, carrying the grant's client, user,
        backend and primary key, the deploy_id, the narrowed scope, the
        expiry and revoked = False, and returns the token text. It fails and
        stores nothing if the scope cannot be computed or the key is taken. */
    method NewAccessToken(key: GrantKey, expiresIn: int, deployId: string, scope: ScopeValue, bearer: Bearer)
      returns (r: Result<string, Error>)
      requires Valid() && key in grants
      modifies this`sessions
      ensures Valid()
      ensures match Mint(old(sessions), grants[key], expiresIn, deployId, scope, bearer)
        case Ok(m) => r == Ok(bearer.text) && sessions == m
        case Err(e) => r == Err(e) && sessions == old(sessions)
    {
      var g := grants[key];
      var tokenScope := TokenScope(scope, g.scope);
      if tokenScope.None? {
        return Err(ScopeTypeError);
      }
      var session := Session(bearer.secret, g.clientId, deployId, g.user, g.authBackend,
                             tokenScope.value, false, g.id, expiresIn);
      if bearer.sessionKey in sessions {
        return Err(SessionExists);
      }
      sessions := sessions[bearer.sessionKey := session];
      return Ok(bearer.text);
    }

    // -------------------------------------------------------------------
    // TemporaryGrant.emit_token (fulmine/models.py:131-155)
    // -------------------------------------------------------------------

    /** Exchanges the code for tokens. A consumed code raises and nothing
        changes. Otherwise the code is marked consumed first, so that it is
        spent even when the mint then fails; then an access token is minted
        with the code's deploy_id and scope; then, if asked, a refresh token
        of the same grant and deploy_id, unrevoked and without a scope, is
        stored under `refreshText`. */
    method EmitCodeToken(code: string, expiresIn: int, emitRefresh: bool, bearer: Bearer, refreshText: string)
      returns (r: Result<Emitted, Error>)
      requires Valid() && code in temporaryGrants
      requires emitRefresh ==> refreshText !in refreshTokens
      modifies this`temporaryGrants, this`sessions, this`refreshTokens
      ensures Valid()
      ensures old(temporaryGrants[code]).consumed ==>
        && r == Err(ConsumedGrant)
        && temporaryGrants == old(temporaryGrants) && sessions == old(sessions)
        && refreshTokens == old(refreshTokens)
      ensures !old(temporaryGrants[code]).consumed ==>
        var t := old(temporaryGrants[code]);
        && temporaryGrants == old(temporaryGrants)[code := t.(consumed := true)]
        && match Mint(old(sessions), grants[t.grant], expiresIn, t.deployId, t.scope, bearer)
           case Err(e) => r == Err(e) && sessions == old(sessions) && refreshTokens == old(refreshTokens)
           case Ok(m) =>
             && sessions == m
             && (emitRefresh ==>
                   && r == Ok(Emitted(bearer.text, Some(refreshText)))
                   && refreshTokens == old(refreshTokens)[refreshText := RefreshToken(t.deployId, t.grant, None, false)])
             && (!emitRefresh ==> r == Ok(Emitted(bearer.text, None)) && refreshTokens == old(refreshTokens))
      ensures temporaryGrants[code].consumed
      ensures forall ru, cid, d, now :: code !in Authorized(code, ru, cid, d, now)
    {
      var t := temporaryGrants[code];
      if t.consumed {
        return Err(ConsumedGrant);
      }
      temporaryGrants := temporaryGrants[code := t.(consumed := true)];
      var accessToken := NewAccessToken(t.grant, expiresIn, t.deployId, t.scope, bearer);
      if accessToken.Err? {
        return Err(accessToken.error);
      }
      var refresh: Option<string> := None;
      if emitRefresh {
        assert Reload(None, ScopeSeparator) == None;
        refreshTokens := refreshTokens[refreshText := RefreshToken(t.deployId, t.grant, None, false)];
        refresh := Some(refreshText);
      }
      return Ok(Emitted(accessToken.value, refresh));
    }

    // -------------------------------------------------------------------
    // RefreshToken.emit_token (fulmine/models.py:178-198)
    // -------------------------------------------------------------------

    /** RefreshToken.emit_token as written. A revoked token raises and
        nothing changes. Otherwise an access token is minted from the
        token's grant with its deploy_id and scope; without `emitRefresh`
        that is all and the token stays usable. With `emitRefresh` the token
        is revoked and saved, and then assigning the token itself as the
        successor's grant raises: the session stays, the token stays
        revoked, and no successor and no token text reach the caller. */
    method EmitRefreshTokenAsWritten(token: string, expiresIn: int, emitRefresh: bool, bearer: Bearer)
      returns (r: Result<Emitted, Error>)
      requires Valid() && token in refreshTokens
      modifies this`sessions, this`refreshTokens
      ensures Valid()
      ensures old(refreshTokens[token]).revoked ==>
        r == Err(RevokedRefreshToken) && sessions == old(sessions) && refreshTokens == old(refreshTokens)
      ensures !old(refreshTokens[token]).revoked ==>
        var rt := old(refreshTokens[token]);
        match Mint(old(sessions), grants[rt.grant], expiresIn, rt.deployId, rt.scope, bearer)
        case Err(e) => r == Err(e) && sessions == old(sessions) && refreshTokens == old(refreshTokens)
        case Ok(m) =>
          && sessions == m
          && (emitRefresh ==>
                r == Err(GrantTypeMismatch) && refreshTokens == old(refreshTokens)[token := rt.(revoked := true)])
          && (!emitRefresh ==> r == Ok(Emitted(bearer.text, None)) && refreshTokens == old(refreshTokens))
      ensures emitRefresh ==> r.Err?
      ensures r.Ok? ==> token in Refreshable(token, old(refreshTokens[token]).deployId)
    {
      var rt := refreshTokens[token];
      if rt.revoked {
        return Err(RevokedRefreshToken);
      }
      var accessToken := NewAccessToken(rt.grant, expiresIn, rt.deployId, rt.scope, bearer);
      if accessToken.Err? {
        return Err(accessToken.error);
      }
      if emitRefresh {
        refreshTokens := refreshTokens[token := rt.(revoked := true)];
        // `refresh_token.grant = self` hands a RefreshToken to a
        // ForeignKey(AuthorizationGrant), which Django refuses.
        return Err(GrantTypeMismatch);
      }
      return Ok(Emitted(accessToken.value, None));
    }

    /** RefreshToken.emit_token with the successor pointing at the token's
        own grant (`self.grant`). With `emitRefresh` the old token is revoked
        and a new unrevoked token of the same grant, scope and deploy_id is
        stored under `newText`, a key that was not in use. Its scope is the
        old token's scope as the database gives it back. */
    method EmitRefreshToken(token: string, expiresIn: int, emitRefresh: bool, bearer: Bearer, newText: string)
      returns (r: Result<Emitted, Error>)
      requires Valid() && token in refreshTokens
      requires emitRefresh ==> newText !in refreshTokens
      modifies this`sessions, this`refreshTokens
      ensures Valid()
      ensures old(refreshTokens[token]).revoked ==>
        r == Err(RevokedRefreshToken) && sessions == old(sessions) && refreshTokens == old(refreshTokens)
      ensures !old(refreshTokens[token]).revoked ==>
        var rt := old(refreshTokens[token]);
        match Mint(old(sessions), grants[rt.grant], expiresIn, rt.deployId, rt.scope, bearer)
        case Err(e) => r == Err(e) && sessions == old(sessions) && refreshTokens == old(refreshTokens)
        case Ok(m) =>
          && sessions == m
          && (emitRefresh ==>
                && r == Ok(Emitted(bearer.text, Some(newText)))
                && newText != token
                && refreshTokens == old(refreshTokens)[token := rt.(revoked := true)]
                                                      [newText := RefreshToken(rt.deployId, rt.grant, Reload(rt.scope, ScopeSeparator), false)])
          && (!emitRefresh ==> r == Ok(Emitted(bearer.text, None)) && refreshTokens == old(refreshTokens))
      ensures r.Ok? && emitRefresh ==> refreshTokens[newText].scope == old(refreshTokens[token]).scope
      ensures r.Ok? && emitRefresh ==> forall d :: token !in Refreshable(token, d)
      ensures r.Ok? && emitRefresh ==> newText in Refreshable(newText, old(refreshTokens[token]).deployId)
      ensures r.Ok? && !emitRefresh ==> token in Refreshable(token, old(refreshTokens[token]).deployId)
    {
      var rt := refreshTokens[token];
      if rt.revoked {
        return Err(RevokedRefreshToken);
      }
      var accessToken := NewAccessToken(rt.grant, expiresIn, rt.deployId, rt.scope, bearer);
      if accessToken.Err? {
        return Err(accessToken.error);
      }
      if emitRefresh {
        refreshTokens := refreshTokens[token := rt.(revoked := true)];
        refreshTokens := refreshTokens[newText := RefreshToken(rt.deployId, rt.grant, Reload(rt.scope, ScopeSeparator), false)];
        return Ok(Emitted(accessToken.value, Some(newText)));
      }
      return Ok(Emitted(accessToken.value, None));
    }
  }
}
