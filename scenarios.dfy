/**
 * Whole flows through the models, checked from the contracts alone: the
 * code grant with its exchange, the refresh rotation (with the successor's
 * grant set to the token's grant, and as written), and the implicit grant.
 * Each step states the store it leaves so that the next step starts there.
 */
module Scenarios {
  import opened Wrappers
  import opened Scope
  import opened Records
  import opened Store
  import opened Request

  const Client: GrantKey := GrantKey("c1", 7)

  /** A request of the given response type for client c1, scope read and
      state s1: it passes validation. */
  method NewRequest(responseType: string) returns (request: AuthorizationRequest)
    requires responseType == "code" || responseType == "token"
    ensures fresh(request) && request.errors == [] && request.grantObj.None? && request.clientId == Some("c1")
    ensures request.scope == ["read"] && request.state == "s1" && request.redirectUri == "https://app/cb?x=1"
  {
    request := new AuthorizationRequest(responseType, Some("c1"), "https://app/cb?x=1", ["read"], "s1");
  }

  /** That request, granted for user 7 in a new store. */
  method GrantedRequest(responseType: string) returns (store: AuthStore, request: AuthorizationRequest)
    requires responseType == "code" || responseType == "token"
    ensures fresh(store) && fresh(request) && store.Valid() && store.authCodeExpireSeconds == 600
    ensures store.grants.Keys == {Client} && store.grants[Client].scope == Some(["read"])
    ensures store.temporaryGrants == map[] && store.refreshTokens == map[] && store.sessions == map[]
    ensures request.errors == [] && request.grantObj == Some(Client)
    ensures request.scope == ["read"] && request.state == "s1" && request.redirectUri == "https://app/cb?x=1"
  {
    store := new AuthStore(600);
    request := NewRequest(responseType);
    ReloadKeeps(["read"], ScopeSeparator);
    var key := request.Grant(store, 7, "backend");
  }

  /** The code-grant request, redirected with the code CODE at time 0. */
  method IssueCode() returns (store: AuthStore, redirect: Result<Uri, Error>)
    ensures fresh(store) && store.Valid() && store.authCodeExpireSeconds == 600
    ensures store.grants.Keys == {Client} && store.grants[Client].scope == Some(["read"])
    ensures store.temporaryGrants ==
      map["CODE" := TemporaryGrant(600, Client, None, "", "s1", "https://app/cb?x=1", false)]
    ensures store.refreshTokens == map[] && store.sessions == map[]
    ensures redirect ==
      Ok(Uri("https", "app", "/cb", "", map["x" := ["1"], "code" := ["CODE"], "state" := ["s1"]], map[]))
  {
    var request;
    store, request := GrantedRequest("code");
    var parsed := Uri("https", "app", "/cb", "", map["x" := ["1"]], map[]);
    redirect := request.CodeRedirect(store, parsed, "CODE", 0);
  }

  /** The code is exchanged once, with a refresh token; the session gets
      the grant's whole scope, the refresh token no scope. */
  method ExchangeCode() returns (store: AuthStore)
    ensures fresh(store) && store.Valid()
    ensures store.grants.Keys == {Client} && store.grants[Client].scope == Some(["read"])
    ensures store.temporaryGrants.Keys == {"CODE"} && store.temporaryGrants["CODE"].consumed
    ensures store.sessions.Keys == {"key"} && store.sessions["key"].scope == Some(["read"])
    ensures store.refreshTokens == map["refresh" := RefreshToken("", Client, None, false)]
  {
    var redirect;
    store, redirect := IssueCode();
    assert "CODE" in store.Authorized("CODE", "https://app/cb?x=1", "c1", "", 599);
    assert "CODE" !in store.Authorized("CODE", "https://app/cb?x=1", "c1", "", 600);
    assert "CODE" !in store.Authorized("CODE", "https://app/cb", "c1", "", 0);
    var emitted := store.EmitCodeToken("CODE", 3600, true, Bearer("access", "key", "secret"), "refresh");
    assert emitted == Ok(Emitted("access", Some("refresh")));
    assert store.sessions.Keys == {"key"};
  }

  /** A second exchange of the same code fails and stores nothing. */
  method ReplayCode() returns (replay: Result<Emitted, Error>)
    ensures replay == Err(ConsumedGrant)
  {
    var store := ExchangeCode();
    replay := store.EmitCodeToken("CODE", 3600, true, Bearer("access2", "key2", "secret2"), "refresh2");
    assert replay == Err(ConsumedGrant);
    assert store.sessions.Keys == {"key"} && store.refreshTokens.Keys == {"refresh"};
  }

  /** Rotating the refresh token revokes it and issues a successor of the
      same grant; the old token can then no longer be used. */
  method RotateRefreshToken() returns (rotated: Result<Emitted, Error>, reuse: Result<Emitted, Error>)
    ensures rotated == Ok(Emitted("access3", Some("refresh3")))
    ensures reuse == Err(RevokedRefreshToken)
  {
    var store := ExchangeCode();
    assert "key3" !in store.sessions;
    rotated := store.EmitRefreshToken("refresh", 3600, true, Bearer("access3", "key3", "secret3"), "refresh3");
    assert rotated == Ok(Emitted("access3", Some("refresh3")));
    assert store.sessions["key3"].scope == Some(["read"]);
    assert store.refreshTokens["refresh3"].grant == Client;
    assert "refresh" !in store.Refreshable("refresh", "");
    reuse := store.EmitRefreshToken("refresh", 3600, false, Bearer("access4", "key4", "secret4"), "");
    assert reuse == Err(RevokedRefreshToken);
  }

  /** Rotating as written: the token ends up revoked, a session was stored,
      and the caller gets an error instead of the two token texts. */
  method RotateRefreshTokenAsWritten() returns (rotated: Result<Emitted, Error>)
    ensures rotated == Err(GrantTypeMismatch)
  {
    var store := ExchangeCode();
    assert "key2" !in store.sessions;
    rotated := store.EmitRefreshTokenAsWritten("refresh", 3600, true, Bearer("access2", "key2", "secret2"));
    assert rotated == Err(GrantTypeMismatch);
    assert store.refreshTokens == map["refresh" := RefreshToken("", Client, None, true)];
    assert store.sessions.Keys == {"key", "key2"};
  }

  /** The same request with the token response type: no code is stored
      and the token travels in the fragment, the query stays as it was. */
  method ImplicitGrant() returns (store: AuthStore)
    ensures fresh(store) && store.Valid()
    ensures store.grants.Keys == {Client} && store.grants[Client].scope == Some(["read"])
    ensures store.temporaryGrants == map[] && store.sessions.Keys == {"key"}
  {
    var request;
    store, request := GrantedRequest("token");
    var parsed := Uri("https", "app", "/cb", "", map["x" := ["1"]], map[]);
    assert TokenScope(Some(["read"]), Some(["read"])).Some?;
    var redirect := request.TokenRedirect(store, parsed, 60, Bearer("access", "key", "secret"));
    assert redirect.Ok? && redirect.value.query == parsed.query;
    assert redirect.value.fragment["access_token"] == ["access"] && redirect.value.fragment["scope"] == ["read"];
    assert redirect.value.fragment["token_type"] == ["bearer"] && redirect.value.fragment["state"] == ["s1"];
  }

  /** A second request of the same client and user, for a wider scope,
      finds the grant the implicit grant created and leaves it as it was. */
  method WiderRequest() returns (store: AuthStore, wider: AuthorizationRequest)
    ensures fresh(store) && store.Valid()
    ensures store.grants.Keys == {Client} && store.grants[Client].scope == Some(["read"])
    ensures store.sessions.Keys == {"key"}
    ensures wider.grantObj == Some(Client) && wider.scope == ["read", "write"] && wider.state == "s2"
  {
    store := ImplicitGrant();
    wider := new AuthorizationRequest("token", Some("c1"), "https://app/cb", ["read", "write"], "s2");
    var again := wider.Grant(store, 7, "backend");
  }

  /** The wider request gets only the granted part of its scope in the
      session, while its fragment repeats the scope it asked for; a session
      key already in use is refused. */
  method WiderImplicitGrant() returns (second: Result<Uri, Error>, collision: Result<Uri, Error>)
    ensures second.Ok? && "scope" in second.value.fragment && second.value.fragment["scope"] == ["read", "write"]
    ensures collision == Err(SessionExists)
  {
    var store, wider := WiderRequest();
    assert "key2" !in store.sessions;
    var parsed := Uri("https", "app", "/cb", "", map[], map[]);
    second := wider.TokenRedirect(store, parsed, 60, Bearer("access2", "key2", "secret2"));
    assert second.Ok?;
    assert forall x :: x in store.sessions["key2"].scope.value ==> x == "read";
    assert "key2" in store.sessions;
    collision := wider.TokenRedirect(store, parsed, 60, Bearer("access3", "key2", "secret3"));
  }
}
