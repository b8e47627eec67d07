/**
 * DiscordAuthController: the two routes of the OAuth2 authorization-code grant
 * (RFC 6749, sections 4.1.1 and 4.1.2). `RedirectToDiscord` stores the state
 * token the client produced and sends the browser to Discord; `Callback`
 * checks that the returned state matches the stored one (the CSRF defence of
 * section 10.12), exchanges the code, fetches the profile, collects extra data
 * for first-time users and hands everything to the user manager.
 *
 * The collaborators are abstract: the network plugin's client arrives as an
 * `Option<Network.Sdk>`, what Discord answers as a `Provider` value, and the user
 * manager's account lookup as a function.
 */
module Controller {
  import opened Wrappers
  import opened Php
  import Network

  /** The `error` value Discord sends when the user declines consent. */
  const AccessDenied: string := "access_denied"
  /** Session key of the state token. */
  const StateKey: string := "oauth2state"
  /** Session key of the access token. */
  const TokenKey: string := "access_token"
  /** `PHP_EOL` on the server, taken to be a Unix line feed. */
  const PhpEol: char := '\n'

  /** The Discord profile the manager returns. */
  datatype Profile = Profile(id: string, name: string, email: Value, avatarHash: Value)

  /**
   * What the Discord manager and its client answer during one request: the
   * login URL and the state it embeds, the token `authenticate()` obtains, the
   * profile (None when `getUserInfo()` is falsy), the configured api_calls text
   * and the result of `getExtraDetails` for each endpoint.
   */
  datatype Provider = Provider(
    loginUrl: string,
    state: Value,
    exchangedToken: Value,
    profile: Option<Profile>,
    apiCalls: string,
    extraDetails: string -> Value)

  /** Why the browser is sent back to `user.login`; each reason has its own message. */
  datatype Failure = Cancelled | NotConfigured | InvalidState | NoProfile

  /**
   * What a route returns: a redirect to the login page, a trusted redirect to
   * Discord, or the response of `authenticateUser` for these arguments (the
   * extra data standing for its injective JSON encoding).
   */
  datatype Response =
    | LoginRedirect(reason: Failure)
    | TrustedRedirect(url: string)
    | AuthenticateUser(name: string, email: Value, id: string, accessToken: Value, avatarHash: Value, data: seq<Value>)

  /** The state check: the received state is non-empty in PHP's sense and identical to the stored one. */
  predicate StateAccepted(received: Value, stored: Value) {
    Truthy(received) && received == stored
  }

  /** `explode(PHP_EOL, api_calls)`: one endpoint per line. */
  function ApiCallLines(apiCalls: string): seq<string> {
    Explode(PhpEol, apiCalls)
  }

  /** The results of `getExtraDetails` for each endpoint, in order. */
  function ExtraData(endpoints: seq<string>, details: string -> Value): seq<Value> {
    if endpoints == [] then [] else [details(endpoints[0])] + ExtraData(endpoints[1..], details)
  }

  /** Endpoints queried for the account `id`: none when it already exists, else every configured line. */
  function ExtraCalls(id: string, p: Provider, userExists: string -> bool): seq<string> {
    if userExists(id) then [] else ApiCallLines(p.apiCalls)
  }

  /** `session` with every key in `keys` set to NULL. */
  function Nullified(session: map<string, Value>, keys: seq<string>): map<string, Value>
    decreases |keys|
  {
    if keys == [] then session else Nullified(session[keys[0] := Null], keys[1..])
  }

  /**
   * The callback's decision, from the `error` and `state` query values, whether
   * a client could be built, the state stored in the session, the provider's
   * answers and the account lookup.
   */
  function CallbackResponse(error: Value, received: Value, sdkAvailable: bool, stored: Value,
                            p: Provider, userExists: string -> bool): Response
  {
    if error == Str(AccessDenied) then LoginRedirect(Cancelled)
    else if !sdkAvailable then LoginRedirect(NotConfigured)
    else if !StateAccepted(received, stored) then LoginRedirect(InvalidState)
    else match p.profile
      case None => LoginRedirect(NoProfile)
      case Some(profile) =>
        AuthenticateUser(profile.name, profile.email, profile.id, p.exchangedToken, profile.avatarHash,
                         ExtraData(ExtraCalls(profile.id, p, userExists), p.extraDetails))
  }

  /** Appending one endpoint appends its result. */
  lemma {:induction false} ExtraDataAppend(endpoints: seq<string>, endpoint: string, details: string -> Value)
    ensures ExtraData(endpoints + [endpoint], details) == ExtraData(endpoints, details) + [details(endpoint)]
  {
    if endpoints != [] {
      assert (endpoints + [endpoint])[1..] == endpoints[1..] + [endpoint];
      ExtraDataAppend(endpoints[1..], endpoint, details);
    }
  }

  /** One result per endpoint, the k-th being the result for the k-th endpoint. */
  lemma {:induction false} ExtraDataInOrder(endpoints: seq<string>, details: string -> Value)
    ensures |ExtraData(endpoints, details)| == |endpoints|
    ensures forall k :: 0 <= k < |endpoints| ==> ExtraData(endpoints, details)[k] == details(endpoints[k])
  {
    if endpoints != [] {
      ExtraDataInOrder(endpoints[1..], details);
    }
  }

  /** Nullifying sets exactly the listed keys to NULL and leaves every other entry as it was. */
  lemma {:induction false} NullifiedEntries(session: map<string, Value>, keys: seq<string>)
    ensures Nullified(session, keys).Keys == session.Keys + set k | k in keys
    ensures forall k :: k in keys ==> Nullified(session, keys)[k] == Null
    ensures forall k :: k in session && k !in keys ==> Nullified(session, keys)[k] == session[k]
    decreases |keys|
  {
    if keys != [] {
      NullifiedEntries(session[keys[0] := Null], keys[1..]);
    }
  }

  /** An empty or missing stored state never matches, so the check cannot pass empty-against-empty. */
  lemma EmptyStoredStateNeverMatches(received: Value, stored: Value)
    requires !Truthy(stored)
    ensures !StateAccepted(received, stored)
  {
  }

  /** A user who declines consent is sent to the login page before anything else is looked at. */
  lemma DenialShortCircuits(received: Value, sdkAvailable: bool, stored: Value, p: Provider, userExists: string -> bool)
    ensures CallbackResponse(Str(AccessDenied), received, sdkAvailable, stored, p, userExists) == LoginRedirect(Cancelled)
  {
  }

  /**
   * The user manager is reached exactly when consent was not declined, a client
   * exists, the state matches and a profile was fetched.
   */
  lemma HandoffConditions(error: Value, received: Value, sdkAvailable: bool, stored: Value,
                          p: Provider, userExists: string -> bool)
    ensures CallbackResponse(error, received, sdkAvailable, stored, p, userExists).AuthenticateUser?
      <==> error != Str(AccessDenied) && sdkAvailable && Truthy(stored) && received == stored && p.profile.Some?
  {
  }

  /**
   * The hand-off carries the profile's fields, the exchanged token, and extra
   * data that is empty for an existing account and otherwise holds one result
   * per api_calls line, in line order.
   */
  lemma HandoffData(error: Value, received: Value, sdkAvailable: bool, stored: Value,
                    p: Provider, userExists: string -> bool)
    requires CallbackResponse(error, received, sdkAvailable, stored, p, userExists).AuthenticateUser?
    ensures var r := CallbackResponse(error, received, sdkAvailable, stored, p, userExists);
      && p.profile == Some(Profile(r.id, r.name, r.email, r.avatarHash))
      && r.accessToken == p.exchangedToken
      && (userExists(r.id) ==> r.data == [])
      && (!userExists(r.id) ==> |r.data| == Occurrences(PhpEol, p.apiCalls) + 1)
      && (!userExists(r.id) ==> forall k :: 0 <= k < |r.data| ==> r.data[k] == p.extraDetails(ApiCallLines(p.apiCalls)[k]))
  {
    var r := CallbackResponse(error, received, sdkAvailable, stored, p, userExists);
    ExtraDataInOrder(ApiCallLines(p.apiCalls), p.extraDetails);
  }

  /** An empty api_calls text still yields exactly one call, for the endpoint "". */
  lemma EmptyApiCallsMakeOneCall(details: string -> Value)
    ensures ApiCallLines("") == [""]
    ensures ExtraData(ApiCallLines(""), details) == [details("")]
  {
  }

  class DiscordAuthController {
    /** The data handler's session entries. */
    var session: map<string, Value>
    /** The post-login destination the user manager keeps. */
    var destination: Value
    /** The client the Discord manager holds. */
    var client: Option<Network.Sdk>
    /** What the Discord manager's `getAccessToken()` returns; `authenticate()` replaces it. */
    var managerToken: Value
    /** The endpoints passed to `getExtraDetails`, in call order. */
    var extraCalls: seq<string>
    /** The session keys the user manager nullifies when login fails. */
    const sessionKeysToNullify: seq<string> := [TokenKey, StateKey]

    /** Registers `access_token` and `oauth2state` as the keys to nullify. */
    constructor (session: map<string, Value>, managerToken: Value)
      ensures this.session == session && this.managerToken == managerToken
      ensures destination == Null && client == None && extraCalls == []
      ensures sessionKeysToNullify == [TokenKey, StateKey]
    {
      this.session := session;
      this.managerToken := managerToken;
      destination := Null;
      client := None;
      extraCalls := [];
    }

    /** `nullifySessionKeys()`: the registered keys set to NULL. */
    method NullifySessionKeys()
      modifies this`session
      ensures session == Nullified(old(session), sessionKeysToNullify)
    {
      session := Nullified(session, sessionKeysToNullify);
    }

    /**
     * `redirectToDiscord()`: without a client, back to the login page with
     * nothing stored; otherwise remember a non-empty destination, store the
     * client's state under `oauth2state` and redirect to the login URL.
     */
    method RedirectToDiscord(destinationParam: Value, sdk: Option<Network.Sdk>, p: Provider) returns (r: Response)
      modifies this`session, this`destination, this`client
      ensures sdk.None? ==> r == LoginRedirect(NotConfigured)
      ensures sdk.None? ==> session == old(session) && destination == old(destination) && client == old(client)
      ensures sdk.Some? ==> r == TrustedRedirect(p.loginUrl) && session == old(session)[StateKey := p.state]
      ensures sdk.Some? ==> client == sdk
      ensures sdk.Some? ==> destination == if Truthy(destinationParam) then destinationParam else old(destination)
    {
      if sdk.None? {
        return LoginRedirect(NotConfigured);
      }
      if Truthy(destinationParam) {
        destination := destinationParam;
      }
      client := sdk;
      session := session[StateKey := p.state];
      return TrustedRedirect(p.loginUrl);
    }

    /**
     * The `foreach` of `callback()`: one `getExtraDetails` call per endpoint, in
     * order, each result pushed onto the data.
     */
    method CollectExtraData(endpoints: seq<string>, details: string -> Value) returns (data: seq<Value>)
      modifies this`extraCalls
      ensures data == ExtraData(endpoints, details)
      ensures extraCalls == old(extraCalls) + endpoints
    {
      data := [];
      for i := 0 to |endpoints|
        invariant data == ExtraData(endpoints[..i], details)
        invariant extraCalls == old(extraCalls) + endpoints[..i]
      {
        var call := details(endpoints[i]);
        ExtraDataAppend(endpoints[..i], endpoints[i], details);
        assert endpoints[..i + 1] == endpoints[..i] + [endpoints[i]];
        data := data + [call];
        extraCalls := extraCalls + [endpoints[i]];
      }
      assert endpoints[..|endpoints|] == endpoints;
    }

    /**
     * `callback()`: returns `CallbackResponse` for the state stored on entry.
     * Nothing changes on a denial or a missing client; a state mismatch only
     * nullifies the registered session keys; past the check the token the
     * manager held before `authenticate()` is saved under `access_token`, and
     * for a new account each api_calls line is queried once, in order.
     */
    method Callback(error: Value, receivedState: Value, sdk: Option<Network.Sdk>, p: Provider, userExists: string -> bool)
      returns (r: Response)
      modifies this`session, this`client, this`managerToken, this`extraCalls
      ensures r == CallbackResponse(error, receivedState, sdk.Some?, old(Lookup(session, StateKey)), p, userExists)
      ensures r == LoginRedirect(Cancelled) || r == LoginRedirect(NotConfigured) ==>
        session == old(session) && client == old(client) && managerToken == old(managerToken)
      ensures r == LoginRedirect(InvalidState) ==>
        session == Nullified(old(session), sessionKeysToNullify)
        && client == old(client) && managerToken == old(managerToken)
      ensures r == LoginRedirect(InvalidState) ==>
        StateKey in session && session[StateKey] == Null && TokenKey in session && session[TokenKey] == Null
        && forall k :: k !in sessionKeysToNullify ==> Lookup(session, k) == Lookup(old(session), k)
      ensures r == LoginRedirect(NoProfile) || r.AuthenticateUser? ==>
        session == old(session)[TokenKey := old(managerToken)] && client == sdk && managerToken == p.exchangedToken
      ensures extraCalls == old(extraCalls) + if r.AuthenticateUser? then ExtraCalls(r.id, p, userExists) else []
    {
      if error == Str(AccessDenied) {
        return LoginRedirect(Cancelled);
      }
      if sdk.None? {
        return LoginRedirect(NotConfigured);
      }
      var state := Lookup(session, StateKey);
      if !Truthy(receivedState) || receivedState != state {
        NullifiedEntries(session, sessionKeysToNullify);
        NullifySessionKeys();
        return LoginRedirect(InvalidState);
      }
      session := session[TokenKey := managerToken];
      client := sdk;
      managerToken := p.exchangedToken;
      if p.profile.None? {
        return LoginRedirect(NoProfile);
      }
      var profile := p.profile.value;
      var data: seq<Value> := [];
      if !userExists(profile.id) {
        data := CollectExtraData(ApiCallLines(p.apiCalls), p.extraDetails);
      }
      return AuthenticateUser(profile.name, profile.email, profile.id, managerToken, profile.avatarHash, data);
    }
  }

  /**
   * A login on a fresh session: initiate stores the client's state, and the
   * callback that follows reaches the user manager exactly when the state the
   * browser relays is accepted against it and a profile comes back. A forged or
   * missing state, or an empty one issued by the client, always ends at the
   * state-mismatch redirect; an accepted state without a profile ends at the
   * missing-profile redirect.
   */
  method LoginRoundTrip(sdk: Network.Sdk, initiate: Provider, relayed: Value, back: Provider, userExists: string -> bool)
    returns (r: Response)
    ensures r.AuthenticateUser? <==> StateAccepted(relayed, initiate.state) && back.profile.Some?
    ensures !StateAccepted(relayed, initiate.state) ==> r == LoginRedirect(InvalidState)
    ensures StateAccepted(relayed, initiate.state) && back.profile.None? ==> r == LoginRedirect(NoProfile)
  {
    var controller := new DiscordAuthController(map[], Null);
    var redirect := controller.RedirectToDiscord(Null, Some(sdk), initiate);
    assert Lookup(controller.session, StateKey) == initiate.state;
    r := controller.Callback(Null, relayed, Some(sdk), back, userExists);
  }
}
