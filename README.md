# fulmine grant and token lifecycle, in Dafny

This project models the core of `fulmine/models.py`, the Django models of the
fulmine OAuth2 authorization server (the "code" and "token" response types of
sections 4.1 and 4.2 of RFC 6749):

- the scope column (`SeparatedValuesField`) and the scope-token check
  (`parse_scope`, `scope_re`);
- authorization grants, with their get-or-create per (client_id, user);
- access tokens: each is a session entry that `new_access_token` creates
  with a narrowed scope;
- authorization codes (`TemporaryGrant`): issued once and redeemed once;
- refresh tokens: revoked when they are rotated;
- the authorization request: its validation, its grant, and its two
  redirects.

Every database table becomes a map field of one class, `Store.AuthStore`:

- grants, keyed by (client_id, user);
- temporary grants, keyed by auth code;
- refresh tokens, keyed by token text;
- sessions, keyed by session key.

The records are values (`records.dfy`). The operations that change them are
methods, and their contracts give the whole new state. The filters and the
scope computations are functions. Scenario methods in `scenarios.dfy` chain
the operations through whole flows, using only the contracts:

- issue a code;
- exchange it;
- replay it;
- rotate the refresh token, both as written and corrected;
- the implicit grant.

Files:

- `wrappers.dfy`: Option and Result.
- `scope.dfy`: the split/join codec, `parse_scope`, and the intersection of scopes.
- `records.dfy`: the records and the errors.
- `store.dfy`: `Mint` (what `new_access_token` does to the session table) and the class `AuthStore`.
- `request.dfy`: the class `AuthorizationRequest` and the redirect URI record `Uri`.
- `scenarios.dfy`: the flows above.

Inputs the model does not compute come in as parameters:

- each random code, token text and bearer (session key, secret) is an argument, with a precondition that it is fresh where the source relies on that;
- "now" is an integer clock;
- `AUTH_CODE_EXPIRE_SECONDS` is a constant of the store;
- the `urlparse` result of the redirect URI is an argument `parsed: Uri`.

The model keeps these behaviours of the code as they are:

- `new_access_token` does not check the grant's `revoked` flag. Only
  `active()` filters on it.
- The class `[!#-[\]-~]` of `scope_re` leaves out `"` and `\` and lets `[`
  and `]` in. That is exactly NQCHAR of section 3.3 of RFC 6749
  (`Scope.ClassCharIsNqChar`).
- `code_redirect` sets neither a scope nor a deploy_id on the code. Its
  `deploy_id` line is commented out. A code-flow token therefore gets the
  grant's whole scope and the deploy_id "".
- The refresh token made by a code exchange gets no scope.
- The code exchange consumes the code before it mints. A failed mint
  therefore still spends the code. The refresh path mints before it revokes.

## Model

| member | source | states |
|---|---|---|
| Scope.Split | fulmine/models.py:47 | `str.split` on one character: at least one piece, and no piece holds the separator |
| Scope.Join | fulmine/models.py:52 | `sep.join(xs)`: the empty list joins to ""; the result starts with the first piece, followed by a separator when there is a second |
| Scope.JoinSplit | fulmine/models.py:47-52 | joining the pieces of a split gives back the text |
| Scope.SplitJoin | fulmine/models.py:47-52 | splitting a join gives back the pieces when no piece holds the separator |
| Scope.ToPython | fulmine/models.py:42-47 | gives None exactly for falsy input; a list passes through; text becomes a non-empty list of pieces, none holding the separator (a piece may be empty) |
| Scope.GetDbPrepValue | fulmine/models.py:49-52 | gives None exactly for None or the empty list; a one-token list is stored as that token |
| Scope.Reload | fulmine/models.py:42-52 | the scope a record has when read back: None exactly when the stored text is absent or empty, otherwise separator-free pieces that store to the same text |
| Scope.ReloadIdempotent | fulmine/models.py:42-52 | reading back a value that was already read back changes nothing |
| Scope.ReloadKeeps | fulmine/models.py:42-52 | a non-empty list with a non-empty first token and no separator in any token reads back unchanged |
| Scope.ReloadValidScope | fulmine/models.py:42-52 | every non-empty scope that `parse_scope` as written accepts (including tokens that end in a newline) reads back unchanged, and so does every scope the corrected check accepts |
| Scope.ReloadChanges | fulmine/models.py:42-52 | `["read write"]` reads back as `["read", "write"]`, and `[""]` as None |
| Scope.StoreThenLoad | fulmine/models.py:42-52 | loading a stored non-empty list gives the list back, when no token holds the separator and the stored text is not empty |
| Scope.LoadThenStore | fulmine/models.py:42-52 | storing loaded non-empty text gives the same text |
| Scope.ClassToken | fulmine/models.py:327 | the character class repeated over the whole token holds exactly for RFC 6749 scope-tokens |
| Scope.ClassCharIsNqChar | fulmine/models.py:327 | the class admits exactly NQCHAR: no `"` and no `\`; `[` and `]` are allowed |
| Scope.ScopeReMatches | fulmine/models.py:327-330 | `scope_re.match(s) is not None`: the token is a scope-token, or a scope-token followed by one final newline |
| Scope.ParseScopeAsWritten | fulmine/models.py:327-332 | succeeds, returning its input unchanged, iff every token matches `scope_re`, where `$` also matches before a final newline; otherwise it raises |
| Scope.ScopeReMatchesWithoutNewline | fulmine/models.py:327 | for a token with no newline, `scope_re` matches iff the token is a scope-token |
| Scope.TrailingNewlinePassesAsWritten | fulmine/models.py:327-332 | the written check accepts `"read\n"`; the corrected check rejects it |
| Scope.ParseScope | fulmine/models.py:327-332 | returns its input unchanged iff every token is a non-empty string of NQCHAR; otherwise it raises |
| Scope.Intersect | fulmine/models.py:93 | `list(set(a) & set(b))`: an element is present iff it is in both; no element appears twice |
| Scope.TokenScope | fulmine/models.py:92-96 | does the TypeError of `set(None)` exactly when a scope is requested from a grant without one; otherwise the result lies within the grant's scope; it is the grant's scope when none is requested; it is the duplicate-free intersection when one is |
| Store.Mint | fulmine/models.py:81-101 | fails iff the scope raises or the session key is taken; otherwise adds exactly one session under the new key and leaves every other one unchanged; the new session has the secret, client, user, backend, grant primary key, deploy_id, expiry and revoked = False; its scope is the grant's scope when none is requested and otherwise exactly the duplicate-free intersection, so always within the grant's scope |
| Store.AuthStore.constructor | fulmine/models.py:64-74 | an empty store that satisfies the store invariant |
| Store.AuthStore.Active | fulmine/models.py:60-61 | exactly the unrevoked grants, unchanged |
| Store.AuthStore.Authorized | fulmine/models.py:105-113 | returns at most the given code, as stored, and returns it iff it is stored, unconsumed, expires after now, and matches the redirect_uri, the grant's client_id and the deploy_id |
| Store.AuthStore.Refreshable | fulmine/models.py:159-164 | returns at most the given token, as stored, and returns it iff it is stored, unrevoked and of that deploy_id |
| Store.AuthStore.GetOrCreateGrant | fulmine/models.py:264-269 | never adds a second grant for a (client_id, user); an existing grant is returned unchanged; a new one is unrevoked and has a primary key no stored grant has; its scope is the requested list as `to_python` gives it on assignment, stored in the column and read back (`Scope.Reload`); the store invariant is kept |
| Store.AuthStore.NewAuthCode | fulmine/models.py:76-79 | an unconsumed code of the grant, with no scope and an empty deploy_id, expiring AUTH_CODE_EXPIRE_SECONDS after now |
| Store.AuthStore.SaveTemporaryGrant | fulmine/models.py:284 | stores the new code under its fresh key and keeps the store invariant |
| Store.AuthStore.NewAccessToken | fulmine/models.py:81-101 | changes the sessions exactly as `Mint` says; returns the token text, or the error with the sessions unchanged |
| Store.AuthStore.EmitCodeToken | fulmine/models.py:131-155 | a consumed code raises and nothing changes. Otherwise the code is consumed, then a token is minted with the code's deploy_id and scope. If the mint succeeds and a refresh token is wanted, one is created: unrevoked, of the same grant and deploy_id, with no scope. Afterwards the code is consumed and unusable: `authorized` no longer returns it |
| Store.AuthStore.EmitRefreshTokenAsWritten | fulmine/models.py:178-198 | a revoked token raises and nothing changes. Otherwise a token is minted from the token's grant. Without emit_refresh the token stays usable. With emit_refresh the token is revoked, then the successor's grant assignment raises |
| Store.AuthStore.EmitRefreshToken | fulmine/models.py:178-198 | a revoked token raises and nothing changes. Otherwise a token is minted. Without emit_refresh the token stays usable. With emit_refresh the old token is revoked and `refreshable` excludes it; a new unrevoked token is stored under a fresh key with the same grant and deploy_id and the old token's scope unchanged, and `refreshable` returns it. The store invariant records that every stored refresh-token scope reads back as itself, and this step keeps it |
| Request.RedirectUriAllowed | fulmine/models.py:243-245 | the `validate_redirect_uri` stub: every URI is accepted |
| Request.ValidationErrors | fulmine/models.py:232-241 | holds only the four error strings, each at most once; `invalid response_type` iff the type is neither code nor token, and then first; `invalid client_id` and then `invalid redirect_uri` as the last two iff client_id is None; `invalid_redirect_uri`, last, iff there is a client_id and the URI check fails; no errors iff all checks pass |
| Request.AuthorizationRequest.Validate | fulmine/models.py:232-241 | the error list is rebuilt from the current fields alone, so running it again changes nothing |
| Request.AuthorizationRequest.SetClientId | fulmine/models.py:218-221 | stores client_id and revalidates |
| Request.AuthorizationRequest.SetRedirectUri | fulmine/models.py:227-230 | stores redirect_uri and revalidates |
| Request.AuthorizationRequest.constructor | fulmine/models.py:202-212 | sets the fields; the errors depend only on response_type and client_id, because the redirect check is the stub that accepts every URI |
| Request.AuthorizationRequest.Grant | fulmine/models.py:263-277 | the grant of (client_id, user) is fetched or created and remembered as grant_obj; an existing grant is untouched; a client_id of None fails and changes nothing |
| Request.AuthorizationRequest.CodeRedirect | fulmine/models.py:279-299 | stores a code of grant_obj with the request's state and redirect_uri and no deploy_id; returns the URI, its query gaining code and state, with no fragment; with a positive TTL, `authorized` returns the new code at once |
| Request.Decimal | fulmine/models.py:309 | `str(n)`: a non-empty string of decimal digits with no leading zero unless n is 0 |
| Request.DecimalRoundTrip | fulmine/models.py:309 | the digits `Decimal` writes denote `n` |
| Request.TokenFragment | fulmine/models.py:306-312 | exactly the keys access_token, token_type, expires_in, scope and state; the values are the token text, "bearer", the decimal digits of the lifetime, the request's scope and state |
| Request.AuthorizationRequest.TokenRedirect | fulmine/models.py:301-320 | mints a token of grant_obj for the request's scope as `Mint` says; returns the URI with its query untouched and the token parameters in the fragment, and never a code |
| Scenarios.NewRequest | fulmine/models.py:202-241 | a code or token request with a client_id passes validation with no errors |
| Scenarios.GrantedRequest | fulmine/models.py:263-273 | granting that request in an empty store creates one grant, with the requested scope, and remembers it |
| Scenarios.IssueCode | fulmine/models.py:263-299 | a valid code request leaves one grant and one code, and redirects with code and state added to the query |
| Scenarios.ExchangeCode | fulmine/models.py:105-155 | the code is authorized before its expiry and not at it; the exchange consumes it and creates one session with the grant's whole scope and one refresh token with no scope |
| Scenarios.ImplicitGrant | fulmine/models.py:301-320 | the implicit grant stores a session and no code |
| Scenarios.ReplayCode | fulmine/models.py:131-155 | exchanging a code a second time raises the consumed-grant error |
| Scenarios.RotateRefreshToken | fulmine/models.py:178-198 | the corrected rotation returns the new access and refresh token texts; using the old token again then raises the revoked-token error |
| Scenarios.RotateRefreshTokenAsWritten | fulmine/models.py:178-198 | the rotation as written ends in the grant-type error |
| Scenarios.WiderRequest | fulmine/models.py:263-277 | a second request of the same client and user for a wider scope gets the existing grant, scope unchanged |
| Scenarios.WiderImplicitGrant | fulmine/models.py:263-320 | that request's redirect succeeds, and its fragment carries the requested scope; a second redirect reusing the session key raises, because the key is in use |

## Left out

- Django's ORM is replaced by the maps of `AuthStore`. This covers `save()`, `unique_together` (the map key and `Valid` stand in for it), the
  NOT NULL columns other than client_id, and field length limits.
- `get_django_session` and the session engine (fulmine/models.py:323-325) are left out.
  The session store is a map, and `save(must_create=True)` is create-if-absent.
  `session.clear()` and `set_expiry` become the stored `expiresIn` of a fresh entry.
- Random generation and `fulmine/tokens.py` (`new_auth_code`, `new_access_token`,
  `Token`, `random_b64`, `parse_bearer`) are not part of this model: codes,
  token texts and the bearer split are parameters.
- `utcnow`, `timedelta` and `auth_code_expires` (fulmine/models.py:30-33) become an integer clock and a TTL in seconds.
- `SeparatedValuesField.value_to_string` (fulmine/models.py:54-56) reads the field through Django internals.
- `as_hidden_fields` (fulmine/models.py:247-261) builds HTML with an escaping library.
- `urlparse`, `parse_qs`, `urlencode` and `urlunparse` are left out.
  The URI is a record whose query and fragment are maps, and the order of Python 2 dict entries does not appear.
- The request's redirect check is a field set to the stub `validate_redirect_uri`, which accepts every URI.
- `update_scope` (fulmine/models.py:275-277) does nothing, so repeat grants leave the stored scope as it was.
- Store.AuthStore.GetOrCreateGrant: stores the scope as it reads back from the column, which is what `self.grant` sees at fulmine/models.py:142 and :182. `token_redirect` right after `grant()` created the grant uses the instance get_or_create returned, whose scope is the assigned list. The model gives that call the read-back scope too. The two differ only on lists with an empty token or a token holding a space, e.g. `["read write"]` (`Scope.ReloadChanges`). They agree on every non-empty scope `parse_scope` accepts, as written or corrected (`Scope.ReloadValidScope`).
- Requests whose redirect_uri or state is None are not modelled; both are strings.
- Request.TokenFragment: the lifetime is a `nat`, so negative values of `expires_in` in the implicit redirect (where `str(-5)` writes `-5`) are not modelled.
- Only single-character scope separators are modelled (every field in the models uses the default space).
- Concurrency and atomicity of the check-then-set steps (fulmine/models.py:136-140, 179-188) are left out; calls are sequential.
- Scope.Intersect: fixes one order of the `list(set(...))` result, which Python leaves open. The related contracts state only the elements and that none repeats.

## Findings

| source | as written | input that shows it | evidently intended | confidence | as-written member | corrected member |
|---|---|---|---|---|---|---|
| fulmine/models.py:327 | `^[!#-[\]-~]+$` with `re.match`: `$` also matches just before a final newline | `parse_scope(["read\n"])` returns the list instead of raising | only RFC 6749 scope-tokens pass (anchor at the true end, e.g. `\Z`) | not executed | Scope.ParseScopeAsWritten (shown by Scope.TrailingNewlinePassesAsWritten) | Scope.ParseScope |
| fulmine/models.py:190 | `refresh_token.grant = self` assigns a RefreshToken to a ForeignKey to AuthorizationGrant | `emit_token(expires_in, emit_refresh=True)` on an unrevoked refresh token raises after the old token was revoked and saved and a session was created | the successor belongs to the token's grant (`self.grant`) and the two token texts are returned | not executed | Store.AuthStore.EmitRefreshTokenAsWritten | Store.AuthStore.EmitRefreshToken |
