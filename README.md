# Social Auth Discord — a Dafny model of the login glue

`social_auth_discord` is a Drupal module that lets users log in with Discord
through the OAuth2 authorization-code grant (RFC 6749, sections 4.1.1 to
4.1.2.1; the state check is the CSRF defence of section 10.12). Everything it
does beyond a handful of decision rules is a call into Drupal or into the
Wohali Discord OAuth2 client library. This project models those rules and
proves what they promise:

- **Controller** (`controller.dfy`): `DiscordAuthController` keeps the data
  handler's session as a `map`, plus the user manager's saved destination,
  the Discord manager's client and access token, and a log of the endpoints
  passed to `getExtraDetails`. `RedirectToDiscord` and `Callback` update
  these fields and return a `Response`: a redirect to the login page (with
  the reason, standing for the message shown), a trusted redirect to Discord,
  or the arguments handed to `authenticateUser`. The callback's decision is
  also given as a function, `CallbackResponse`, which the lemmas are about.
- **Form** (`form.dfy`): scope validation splits the text at single spaces
  and checks each token strictly against the fixed allow-list (a `for` loop
  proved against the `TokensAllowed` predicate). Submission stores the
  trimmed credentials and the other two fields as entered. The editable
  config names are the parent's names plus this module's settings object.
- **Network plugin** (`network.dfy`): `ValidateConfig` accepts exactly when
  both credentials are truthy. `InitSdk` fails on a missing library before
  reading any setting, yields FALSE on incomplete credentials, and otherwise
  builds the option map. A configured proxy replaces that whole map, so the
  credentials are dropped; the model keeps this behaviour as written.
- **Settings** (`settings.dfy`): `GetClientId` and `GetClientSecret`
  memoise. The field is refreshed from config only while it is falsy. The
  pure `Memo`/`CacheAfter` functions describe a series of calls: the first
  truthy value read is kept for good, and falsy values are read again on
  every call.
- **PHP** (`php.dfy`): the PHP semantics the rules rely on. Values are
  string-or-NULL, with PHP's truthiness (`NULL`, `""`, `"0"` are false).
  `explode` with a one-character separator is proved inverse to `implode`,
  and the default `trim` is proved idempotent.

Collaborators become inputs. `getSdk()` arrives as an `Option<Sdk>`. What
the Discord manager and its client give during one request (login URL,
state, exchanged token, profile, the api_calls text read from the module's
configuration, the result of each extra call) is a `Provider` value. The user manager's `checkIfUserExists` is a function `string -> bool`.
The assumptions this makes about code outside the module are listed under
"## Left out".

## Model

| member | source | states |
|---|---|---|
| `Controller.DiscordAuthController.constructor` | src/Controller/DiscordAuthController.php:69-86 | the keys nullified on a failed login are `access_token` and `oauth2state` |
| `Controller.DiscordAuthController.NullifySessionKeys` | src/Controller/DiscordAuthController.php:165 | the registered session keys are set to NULL and nothing else changes |
| `Controller.NullifiedEntries` | src/Controller/DiscordAuthController.php:85 | nullifying sets exactly the listed keys to NULL and keeps every other session entry |
| `Controller.DiscordAuthController.RedirectToDiscord` | src/Controller/DiscordAuthController.php:106-136 | no client: login redirect and no state change. Otherwise: a truthy destination is saved, the client's state is stored under `oauth2state`, and the response redirects to the manager's login URL |
| `Controller.DiscordAuthController.Callback` | src/Controller/DiscordAuthController.php:143-197 | returns `CallbackResponse` for the state stored on entry. Denial or no client: nothing changes. State mismatch: `oauth2state` and `access_token` are present and NULL, and every other entry is unchanged. Otherwise the pre-authenticate token is saved, the client is set, the token is exchanged, and extra endpoints are queried only for a new account, once per line, in order |
| `Controller.DiscordAuthController.CollectExtraData` | src/Controller/DiscordAuthController.php:186-193 | the loop returns `ExtraData` of the endpoints and logs exactly those endpoints, in order |
| `Controller.ExtraDataAppend` | src/Controller/DiscordAuthController.php:191-192 | pushing the result of one more call appends exactly that result |
| `Controller.ExtraDataInOrder` | src/Controller/DiscordAuthController.php:189-193 | there is one result per endpoint, and the k-th result is the call for the k-th endpoint |
| `Controller.EmptyStoredStateNeverMatches` | src/Controller/DiscordAuthController.php:160-164 | an empty or missing stored state matches no received state |
| `Controller.DenialShortCircuits` | src/Controller/DiscordAuthController.php:145-149 | `error=access_denied` redirects to login whatever the client, state or provider |
| `Controller.HandoffConditions` | src/Controller/DiscordAuthController.php:143-196 | `authenticateUser` is reached if and only if: there was no denial, a client exists, the stored state is truthy and identical to the received one, and a profile was fetched |
| `Controller.HandoffData` | src/Controller/DiscordAuthController.php:183-196 | the hand-off carries the profile's fields and the exchanged token. Its data is empty for an existing account; otherwise it has one result per api_calls line (line count = separators + 1), in line order |
| `Controller.EmptyApiCallsMakeOneCall` | src/Controller/DiscordAuthController.php:186 | an empty api_calls text gives one endpoint, `""`, and so exactly one call |
| `Controller.LoginRoundTrip` | src/Controller/DiscordAuthController.php:129-179 | on a fresh session, the callback after initiate reaches the user manager if and only if the relayed state is accepted against the issued one and a profile comes back. If the relayed state is not accepted it ends at the state-mismatch redirect; if it is accepted but no profile comes back it ends at the missing-profile redirect (lines 176-179) |
| `Form.EditableConfigNames` | src/Form/DiscordAuthSettingsForm.php:66-71 | the parent's names are kept in order, followed by `social_auth_discord.settings` |
| `Form.FindInvalidScope` | src/Form/DiscordAuthSettingsForm.php:139-143 | the flag is raised if and only if some token is off the allow-list |
| `Form.ValidateForm` | src/Form/DiscordAuthSettingsForm.php:130-147 | exactly one error, under `scope`, is recorded if and only if the scopes text (NULL read as "") fails. Otherwise the errors are unchanged |
| `Form.SubmitForm` | src/Form/DiscordAuthSettingsForm.php:152-159 | `client_id` and `client_secret` are stored trimmed, `scopes` and `api_calls` as entered, and other entries are kept |
| `Form.EmptyScopesValid` | src/Form/DiscordAuthSettingsForm.php:133-136 | an empty scopes text is the single token `""`, which is allowed |
| `Form.SpaceJoinedScopes` | src/Form/DiscordAuthSettingsForm.php:133-143 | two texts joined by a space pass if and only if both pass |
| `Form.StraySpacesAccepted` | src/Form/DiscordAuthSettingsForm.php:133 | a leading or a trailing space changes nothing, and neither does a doubled space between two copies of a text |
| `Form.DoubledSpaceAccepted` | src/Form/DiscordAuthSettingsForm.php:133 | for any two texts, joining them with two spaces passes exactly when joining them with one does |
| `Form.ScopeOrderIrrelevant` | src/Form/DiscordAuthSettingsForm.php:139-146 | swapping two space-joined parts does not change validity |
| `Form.TokensAllowedPermutation` | src/Form/DiscordAuthSettingsForm.php:139-143 | any reordering of the tokens has the same verdict |
| `Form.CaseSensitive` | src/Form/DiscordAuthSettingsForm.php:136-140 | `Bot` is rejected: the comparison is strict |
| `Form.DefaultScopeRefused` | src/Form/DiscordAuthSettingsForm.php:135-136 | the default scope `identify` is rejected |
| `Form.NewlineRejected` | src/Form/DiscordAuthSettingsForm.php:133-140 | every scopes text that contains a newline is rejected: a newline does not separate tokens, and no allowed scope contains one |
| `Network.DirectSettings` | src/Plugin/Network/DiscordAuth.php:137-143 | without a proxy the options are exactly: the credentials, `redirectUri` = base URL + `/user/login/discord/callback`, `accessType` = `offline`, `verify` = FALSE |
| `Network.ProxyDropsCredentials` | src/Plugin/Network/DiscordAuth.php:146-151 | with a truthy proxy the options hold only `proxy`; the credentials and redirect URI are gone |
| `Network.DiscordAuth.ValidateConfig` | src/Plugin/Network/DiscordAuth.php:168-179 | both credentials are read through the memoising getters, and the result is true if and only if both are truthy |
| `Network.DiscordAuth.InitSdk` | src/Plugin/Network/DiscordAuth.php:126-156 | a missing library raises before any setting is read. Incomplete credentials give FALSE. Otherwise the client is built from the cached credentials and `LeagueSettings` |
| `Settings.DiscordAuthSettings.GetClientId` | src/Settings/DiscordAuthSettings.php:29-34 | returns and keeps the cached id while it is truthy, else re-reads `client_id`. `clientSecret` is unchanged |
| `Settings.DiscordAuthSettings.GetClientSecret` | src/Settings/DiscordAuthSettings.php:39-44 | the same for `clientSecret`/`client_secret`. `clientId` is unchanged |
| `Settings.MemoReadsOnlyWhenFalsy` | src/Settings/DiscordAuthSettings.php:30-31 | config is consulted exactly when the cached value is falsy |
| `Settings.CacheSticks` | src/Settings/DiscordAuthSettings.php:30-33 | once the cache is truthy, no later call changes it, whatever config holds |
| `Settings.CacheKeepsFirstTruthy` | src/Settings/DiscordAuthSettings.php:29-33 | from a falsy cache, the value kept is the first truthy one config held at a call |
| `Settings.FalsyIsReread` | src/Settings/DiscordAuthSettings.php:30-31 | falsy config values are never cached: each call re-reads, and the cache is the last value seen |
| `Php.Explode` | src/Form/DiscordAuthSettingsForm.php:133 | `explode` yields one piece more than there are separators |
| `Php.ExplodePiecesFree` | src/Controller/DiscordAuthController.php:186 | no piece of `explode` contains the separator |
| `Php.ExplodeWithoutSeparator` | src/Form/DiscordAuthSettingsForm.php:133 | a text without the separator explodes to itself alone |
| `Php.ExplodeConcat` | src/Form/DiscordAuthSettingsForm.php:133 | a separator between two texts splits exactly there |
| `Php.ImplodeExplode` | src/Controller/DiscordAuthController.php:186 | `implode` undoes `explode`: the pieces lose nothing |
| `Php.ImplodeWithout` | src/Form/DiscordAuthSettingsForm.php:133 | a non-separator character absent from every piece is absent from the joined text |
| `Php.ExplodeImplode` | src/Controller/DiscordAuthController.php:186 | `explode` undoes `implode` for separator-free pieces |
| `Php.LeadingTrimmed` | src/Form/DiscordAuthSettingsForm.php:155 | the count is exactly the run of whitespace/NUL characters that `trim` strips at the start |
| `Php.KeptBeforeTrailing` | src/Form/DiscordAuthSettingsForm.php:155 | the length kept is everything before the run of whitespace/NUL characters at the end |
| `Php.TrimInfix` | src/Form/DiscordAuthSettingsForm.php:155-156 | `trim(s)` is the infix of `s` between stripped runs, and it neither starts nor ends with a stripped character |
| `Php.TrimIdempotent` | src/Form/DiscordAuthSettingsForm.php:155-156 | trimming twice is trimming once |

## Left out

- Assumption about `DiscordAuthManager`, which is not part of this model: `getAccessToken()` reads a field that `authenticate()` overwrites. Under this assumption the token stored under `access_token` (controller line 171) is the value held before `authenticate()` runs at line 173. The token handed to `authenticateUser` (line 196) is the exchanged one.
- Assumption about `SocialAuthUserManager` and `SocialAuthDataHandler`, which are not part of this model: `nullifySessionKeys()` sets to NULL the same session entries that the data handler reads and writes. The model keeps one session map for both objects.
- Exceptions thrown by `authenticate()` or `getUserInfo()` (controller lines 173 and 176) are not modelled. `Provider` has no failure path, and the controller does not catch such exceptions; a failed profile fetch is represented only by a falsy profile.

- The Discord client library and `DiscordAuthManager` are abstracted: login URL generation, random state, token exchange, profile fetch and `getExtraDetails`. Their answers are the fields of a `Provider` value, and a failing extra call is whatever value that field gives.
- `extraDetails` is a function, so two identical api_calls lines get identical results. In the source each line is a separate network call (controller lines 189-193), and two such calls may answer differently.
- PHP strings are byte strings; here they are sequences of Unicode characters. Every separator and every character `trim` strips is ASCII, so no stated property depends on the difference, but multi-byte text is not modelled byte by byte.
- `authenticateUser`, `checkIfUserExists` and `setDestination` are abstracted too. The first is represented by its arguments, the second is a function input, and the third is a field write. `setPluginId` is not modelled.
- `json_encode($data)` is represented by the data sequence itself, an injective stand-in.
- The `drupal_set_message` texts are represented by the `Failure` reason of the login redirect. Route names and `TrustedRedirectResponse` are represented by the `Response` constructors.
- The `create()` factories and constructor dependency injection are not modelled. The logger call in `validateConfig` is not modelled either.
- How `getSdk()` in the Social API base class turns `initSdk()`'s result into what the controller sees is not part of this model. The controller takes the client as an input.
- `buildForm()`, `getFormId()` and `$GLOBALS['base_url']` are not modelled: they only build the form UI.
- `parent::submitForm` is not modelled, and `parent::getEditableConfigNames` is a parameter. Drupal's own `setErrorByName` rules are reduced to a map write, and config `save()` to the map update.
- `PHP_EOL` is taken to be `"\n"`; the Windows `"\r\n"` is not modelled. `explode` is modelled for one-character separators only, which covers both uses here.
- Query parameters that arrive as arrays, and other non-string PHP values, are not modelled. For string-or-NULL values, the loose `== 'access_denied'` is string equality.
- Concurrent callbacks for one session are not modelled, and neither is persistence across requests beyond the session map.
- src/Settings/DiscordAuthSettingsInterface.php is not modelled: it only declares the two getters.
- tests/src/Functional/SocialAuthDiscordSettingsFormTest.php is not modelled: it drives a browser through a base class that is not part of this model.
