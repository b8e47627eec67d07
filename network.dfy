/**
 * DiscordAuth: the network plugin that builds the Discord OAuth2 client. It
 * checks that both credentials are configured and assembles the option map
 * handed to the client library.
 */
module Network {
  import opened Php
  import opened Settings

  /** An entry of the client library's option map: a string or a boolean. */
  datatype Setting = Text(text: string) | Flag(flag: bool)

  /** The client library instance, known here only by the options it was built with. */
  datatype Sdk = Discord(options: map<string, Setting>)

  /**
   * What `initSdk()` produces: the SocialApiException raised when the library
   * class is missing, FALSE when the credentials are incomplete, or a client.
   */
  datatype SdkResult = LibraryMissing | NotConfigured | Client(sdk: Sdk)

  /** The path Discord redirects back to, appended to the site's base URL. */
  const CallbackPath: string := "/user/login/discord/callback"

  /** `validateConfig()`'s verdict on the two values the getters return. */
  predicate ConfigComplete(clientId: Value, clientSecret: Value) {
    Truthy(clientId) && Truthy(clientSecret)
  }

  /**
   * `$league_settings`: the five mandatory options, replaced wholesale by a map
   * holding only `proxy` when an outward proxy URL is configured.
   */
  function LeagueSettings(clientId: string, clientSecret: string, baseUrl: string, proxyUrl: Value): map<string, Setting> {
    var direct := map[
      "clientId" := Text(clientId),
      "clientSecret" := Text(clientSecret),
      "redirectUri" := Text(baseUrl + CallbackPath),
      "accessType" := Text("offline"),
      "verify" := Flag(false)];
    if Truthy(proxyUrl) then map["proxy" := Text(proxyUrl.s)] else direct
  }

  /** Without a proxy the client gets the credentials, the callback URI, offline access and no TLS verification. */
  lemma DirectSettings(clientId: string, clientSecret: string, baseUrl: string, proxyUrl: Value)
    requires !Truthy(proxyUrl)
    ensures var m := LeagueSettings(clientId, clientSecret, baseUrl, proxyUrl);
      && m.Keys == {"clientId", "clientSecret", "redirectUri", "accessType", "verify"}
      && m["clientId"] == Text(clientId) && m["clientSecret"] == Text(clientSecret)
      && m["redirectUri"] == Text(baseUrl + CallbackPath)
      && m["accessType"] == Text("offline") && m["verify"] == Flag(false)
  {
  }

  /** With a proxy the map holds the proxy alone: the credentials and redirect URI are dropped. */
  lemma ProxyDropsCredentials(clientId: string, clientSecret: string, baseUrl: string, proxyUrl: Value)
    requires Truthy(proxyUrl)
    ensures var m := LeagueSettings(clientId, clientSecret, baseUrl, proxyUrl);
      && m.Keys == {"proxy"} && m["proxy"] == Text(proxyUrl.s)
      && "clientId" !in m && "clientSecret" !in m && "redirectUri" !in m
  {
  }

  class DiscordAuth {
    const settings: DiscordAuthSettings
    /** `requestContext->getCompleteBaseUrl()`. */
    const baseUrl: string
    /** The site setting `http_client_config.proxy.http`. */
    const proxyUrl: Value
    /** Whether `\Wohali\OAuth2\Client\Provider\Discord` can be loaded. */
    const libraryPresent: bool

    constructor (settings: DiscordAuthSettings, baseUrl: string, proxyUrl: Value, libraryPresent: bool)
      ensures this.settings == settings && this.baseUrl == baseUrl
      ensures this.proxyUrl == proxyUrl && this.libraryPresent == libraryPresent
    {
      this.settings := settings;
      this.baseUrl := baseUrl;
      this.proxyUrl := proxyUrl;
      this.libraryPresent := libraryPresent;
    }

    /**
     * `validateConfig()`: reads both credentials through the memoising getters
     * and accepts exactly when both are truthy.
     */
    method ValidateConfig() returns (ok: bool)
      modifies settings`clientId, settings`clientSecret
      ensures settings.clientId == Memo(old(settings.clientId), settings.config.Get("client_id"))
      ensures settings.clientSecret == Memo(old(settings.clientSecret), settings.config.Get("client_secret"))
      ensures ok <==> ConfigComplete(settings.clientId, settings.clientSecret)
    {
      var clientId := settings.GetClientId();
      var clientSecret := settings.GetClientSecret();
      if !Truthy(clientId) || !Truthy(clientSecret) {
        return false;
      }
      return true;
    }

    /**
     * `initSdk()`: fails before touching the settings when the library is
     * missing, yields FALSE on incomplete credentials, and otherwise builds the
     * client from the cached credentials and `LeagueSettings`.
     */
    method InitSdk() returns (r: SdkResult)
      modifies settings`clientId, settings`clientSecret
      ensures !libraryPresent ==> r == LibraryMissing
      ensures !libraryPresent ==> settings.clientId == old(settings.clientId) && settings.clientSecret == old(settings.clientSecret)
      ensures libraryPresent ==> settings.clientId == Memo(old(settings.clientId), settings.config.Get("client_id"))
      ensures libraryPresent ==> settings.clientSecret == Memo(old(settings.clientSecret), settings.config.Get("client_secret"))
      ensures libraryPresent && !ConfigComplete(settings.clientId, settings.clientSecret) ==> r == NotConfigured
      ensures libraryPresent && ConfigComplete(settings.clientId, settings.clientSecret) ==>
        r == Client(Discord(LeagueSettings(settings.clientId.s, settings.clientSecret.s, baseUrl, proxyUrl)))
    {
      if !libraryPresent {
        return LibraryMissing;
      }
      var valid := ValidateConfig();
      if valid {
        var clientId := settings.GetClientId();
        var clientSecret := settings.GetClientSecret();
        return Client(Discord(LeagueSettings(clientId.s, clientSecret.s, baseUrl, proxyUrl)));
      }
      return NotConfigured;
    }
  }
}
