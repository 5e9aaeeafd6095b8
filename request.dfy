/**
 * AuthorizationRequest (fulmine/models.py:201-320): the parameters of an
 * authorization request, their validation, the grant they lead to and the
 * two redirects of the "code" and "token" response types.
 */
module Request {
  import opened Wrappers
  import opened Scope
  import opened Records
  import opened Store

  /** Query parameters and fragment parameters: each name with its values, as
      `parse_qs` gives them and `urlencode(..., doseq=True)` takes them. */
  type Params = map<string, seq<string>>

  /** A redirect URI taken apart by `urlparse`. */
  datatype Uri = Uri(scheme: string, netloc: string, path: string, params: string,
                     query: Params, fragment: Params)

  const InvalidResponseType: string := "invalid response_type"
  const InvalidClientId: string := "invalid client_id"
  /** The redirect error when client_id is missing (fulmine/models.py:238). */
  const InvalidRedirectUri: string := "invalid redirect_uri"
  /** The redirect error when the URI check fails, spelt with an underscore (fulmine/models.py:241). */
  const InvalidRedirectUriCheck: string := "invalid_redirect_uri"

  /** validate_redirect_uri as written: a stub that accepts every URI. */
  predicate RedirectUriAllowed(redirectUri: string)
    ensures RedirectUriAllowed(redirectUri)
  {
    true
  }

  /** The error list AuthorizationRequest.validate builds, given what the
      redirect URI check answered. */
  function ValidationErrors(responseType: string, clientId: Option<string>, redirectOk: bool): (r: seq<string>)
    ensures InvalidResponseType in r <==> responseType != "code" && responseType != "token"
    ensures InvalidClientId in r <==> clientId.None?
    ensures InvalidRedirectUri in r <==> clientId.None?
    ensures InvalidRedirectUriCheck in r <==> clientId.Some? && !redirectOk
    ensures r == [] <==> (responseType == "code" || responseType == "token") && clientId.Some? && redirectOk
    ensures NoDuplicates(r)
    ensures forall e :: e in r ==>
      e in [InvalidResponseType, InvalidClientId, InvalidRedirectUri, InvalidRedirectUriCheck]
    ensures InvalidResponseType in r ==> r[0] == InvalidResponseType
    ensures clientId.None? ==> |r| >= 2 && r[|r| - 2] == InvalidClientId && r[|r| - 1] == InvalidRedirectUri
    ensures InvalidRedirectUriCheck in r ==> r[|r| - 1] == InvalidRedirectUriCheck
  {
    (if responseType != "code" && responseType != "token" then [InvalidResponseType] else [])
    + (if clientId.None? then [InvalidClientId, InvalidRedirectUri]
       else if !redirectOk then [InvalidRedirectUriCheck]
       else [])
  }

  /** The decimal digits of `n`, as `str(n)` writes them. */
  function Decimal(n: nat): (r: string)
    ensures |r| >= 1
    ensures forall i :: 0 <= i < |r| ==> '0' <= r[i] <= '9'
    ensures r[0] == '0' ==> n == 0
  {
    var digit := ('0' as int + n % 10) as char;
    if n < 10 then [digit] else Decimal(n / 10) + [digit]
  }

  /** The number a string of decimal digits denotes, read from the left. */
  function DecimalValue(s: string): int {
    if s == [] then 0 else DecimalValue(s[..|s| - 1]) * 10 + (s[|s| - 1] as int - '0' as int)
  }

  /** The digits Decimal writes denote the number it was given. */
  lemma {:induction false} DecimalRoundTrip(n: nat)
    ensures DecimalValue(Decimal(n)) == n
  {
    var d := Decimal(n);
    if n < 10 {
      assert d[..|d| - 1] == [];
    } else {
      DecimalRoundTrip(n / 10);
      assert d[..|d| - 1] == Decimal(n / 10);
    }
  }

  /** The fragment token_redirect builds (fulmine/models.py:306-312). */
  function TokenFragment(accessToken: string, expiresIn: nat, scope: seq<string>, state: string): (f: Params)
    ensures f.Keys == {"access_token", "token_type", "expires_in", "scope", "state"}
    ensures f["access_token"] == [accessToken] && f["token_type"] == ["bearer"] && f["state"] == [state]
    ensures f["scope"] == scope && f["expires_in"] == [Decimal(expiresIn)]
  {
    map["access_token" := [accessToken], "token_type" := ["bearer"], "expires_in" := [Decimal(expiresIn)],
        "scope" := scope, "state" := [state]]
  }

  class AuthorizationRequest {
    /** The redirect URI check validate consults (validate_redirect_uri). */
    const redirectUriAllowed: string -> bool
    var responseType: string
    var clientId: Option<string>
    var redirectUri: string
    var scope: seq<string>
    var state: string
    var errors: seq<string>
    /** `grant_obj`, the key of the grant once grant() has run. */
    var grantObj: Option<GrantKey>

    /** Sets the fields in the source's order; the client_id and
        redirect_uri setters each run validate. */
    constructor (responseType: string, clientId: Option<string>, redirectUri: string,
                 scope: seq<string>, state: string)
      ensures this.responseType == responseType && this.clientId == clientId
      ensures this.redirectUri == redirectUri && this.scope == scope && this.state == state
      ensures redirectUriAllowed == RedirectUriAllowed
      ensures errors == ValidationErrors(responseType, clientId, true)
      ensures grantObj.None?
    {
      this.redirectUriAllowed := RedirectUriAllowed;
      this.clientId := None;
      this.redirectUri := "";
      this.errors := [];
      this.responseType := responseType;
      this.scope := scope;
      this.state := state;
      this.grantObj := None;
      new;
      SetClientId(clientId);
      SetRedirectUri(redirectUri);
    }

    /** The client_id setter: stores the value and validates again. */
    method SetClientId(value: Option<string>)
      modifies this`clientId, this`errors
      ensures clientId == value
      ensures errors == ValidationErrors(responseType, value, redirectUriAllowed(redirectUri))
    {
      clientId := value;
      Validate();
    }

    /** The redirect_uri setter: stores the value and validates again. */
    method SetRedirectUri(value: string)
      modifies this`redirectUri, this`errors
      ensures redirectUri == value
      ensures errors == ValidationErrors(responseType, clientId, redirectUriAllowed(value))
    {
      redirectUri := value;
      Validate();
    }

    /** validate: resets the error list, then appends one error per
        failed check. */
    method Validate()
      modifies this`errors
      ensures errors == ValidationErrors(responseType, clientId, redirectUriAllowed(redirectUri))
    {
      errors := [];
      if responseType != "code" && responseType != "token" {
        errors := errors + [InvalidResponseType];
      }
      if clientId.None? {
        errors := errors + [InvalidClientId];
        errors := errors + [InvalidRedirectUri];
      } else if !redirectUriAllowed(redirectUri) {
        errors := errors + [InvalidRedirectUriCheck];
      }
    }

    /** grant: get_or_create of the grant for (client_id, user), created
        with the request's scope and the identity backend `authBackend`;
        remembers it as grant_obj. A client_id of None cannot be stored
        (the column is NOT NULL), so that call fails and changes nothing. */
    method Grant(store: AuthStore, user: UserId, authBackend: string) returns (r: Result<GrantKey, Error>)
      requires store.Valid()
      modifies this`grantObj, store`grants, store`nextGrantId
      ensures store.Valid()
      ensures clientId.None? ==>
        && r == Err(NullClientId) && grantObj == old(grantObj)
        && store.grants == old(store.grants) && store.nextGrantId == old(store.nextGrantId)
      ensures clientId.Some? ==>
        var key := GrantKey(clientId.value, user);
        && r == Ok(key) && grantObj == Some(key) && key in store.grants
        && store.grants.Keys == old(store.grants).Keys + {key}
        && (key in old(store.grants) ==> store.grants == old(store.grants))
        && (key !in old(store.grants) ==>
              store.grants == old(store.grants)[key := Records.Grant(old(store.nextGrantId), clientId.value,
                                                                     authBackend, user,
                                                                     Reload(ToPython(Items(scope), ScopeSeparator),
                                                                            ScopeSeparator), false)])
    {
      if clientId.None? {
        return Err(NullClientId);
      }
      var key, created := store.GetOrCreateGrant(clientId.value, user, authBackend, scope);
      grantObj := Some(key);
      return Ok(key);
    }

    /** code_redirect: stores a new temporary grant of grant_obj under the
        generated `code`, with the request's state and redirect_uri and the
        default (empty) deploy_id and scope, and returns the redirect URI
        with `code` and `state` set in its query and no fragment. */
    method CodeRedirect(store: AuthStore, parsed: Uri, code: string, now: int) returns (r: Result<Uri, Error>)
      requires store.Valid()
      requires grantObj.Some? ==> grantObj.value in store.grants
      requires code !in store.temporaryGrants
      modifies store`temporaryGrants
      ensures store.Valid()
      ensures grantObj.None? ==> r == Err(NoGrant) && store.temporaryGrants == old(store.temporaryGrants)
      ensures grantObj.Some? ==>
        && store.temporaryGrants == old(store.temporaryGrants)[code :=
             store.NewAuthCode(grantObj.value, now).(state := state, redirectUri := redirectUri)]
        && r == Ok(parsed.(query := parsed.query["code" := [code]]["state" := [state]], fragment := map[]))
      ensures grantObj.Some? && store.authCodeExpireSeconds > 0 ==>
        code in store.Authorized(code, redirectUri, grantObj.value.clientId, "", now)
    {
      if grantObj.None? {
        return Err(NoGrant);
      }
      var temp := store.NewAuthCode(grantObj.value, now);
      temp := temp.(state := state);
      temp := temp.(redirectUri := redirectUri);
      store.SaveTemporaryGrant(code, temp);
      var query := parsed.query;
      query := query["code" := [code]];
      query := query["state" := [state]];
      return Ok(parsed.(query := query, fragment := map[]));
    }

    /** token_redirect: mints an access token from grant_obj for the
        request's scope (deploy_id left empty) and returns the redirect URI
        with its query untouched and the token, its type, lifetime, the
        request's scope and state as fragment. */
    method TokenRedirect(store: AuthStore, parsed: Uri, expiresIn: nat, bearer: Bearer) returns (r: Result<Uri, Error>)
      requires store.Valid()
      requires grantObj.Some? ==> grantObj.value in store.grants
      modifies store`sessions
      ensures store.Valid()
      ensures grantObj.None? ==> r == Err(NoGrant) && store.sessions == old(store.sessions)
      ensures grantObj.Some? ==>
        match Mint(old(store.sessions), store.grants[grantObj.value], expiresIn, "", Some(scope), bearer)
        case Err(e) => r == Err(e) && store.sessions == old(store.sessions)
        case Ok(m) =>
          && store.sessions == m
          && r == Ok(parsed.(fragment := TokenFragment(bearer.text, expiresIn, scope, state)))
      ensures r.Ok? ==> r.value.query == parsed.query && "code" !in r.value.fragment
    {
      if grantObj.None? {
        return Err(NoGrant);
      }
      var token := store.NewAccessToken(grantObj.value, expiresIn, "", Some(scope), bearer);
      if token.Err? {
        return Err(token.error);
      }
      var fragment := TokenFragment(token.value, expiresIn, scope, state);
      return Ok(parsed.(fragment := fragment));
    }
  }
}
