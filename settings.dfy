/**
 * DiscordAuthSettings: the plugin's settings handler. Its two getters read the
 * `client_id` / `client_secret` configuration entries lazily and keep the value
 * they read in a field, re-reading only while that field is falsy.
 */
module Settings {
  import opened Php

  /** A configuration object (`social_auth_discord.settings`): entries by name. */
  class Config {
    var data: map<string, Value>

    constructor (data: map<string, Value>)
      ensures this.data == data
    {
      this.data := data;
    }

    /** `$config->get(key)`: the stored entry, NULL when there is none. */
    function Get(key: string): Value
      reads this
    {
      Lookup(data, key)
    }

    /** `$config->set(key, v)`; saving is not modelled separately. */
    method Set(key: string, v: Value)
      modifies this
      ensures data == old(data)[key := v]
    {
      data := data[key := v];
    }
  }

  /** What a memoising getter returns and keeps: the cached value while it is truthy, else what config holds now. */
  function Memo(cached: Value, stored: Value): Value {
    if Truthy(cached) then cached else stored
  }

  /** The cached field after one getter call per entry of `stored`, each entry being what config held at that call. */
  function CacheAfter(cached: Value, stored: seq<Value>): Value
    decreases |stored|
  {
    if stored == [] then cached else CacheAfter(Memo(cached, stored[0]), stored[1..])
  }

  /** A single call reads config exactly when the cache is falsy. */
  lemma MemoReadsOnlyWhenFalsy(cached: Value, stored: Value)
    ensures Truthy(cached) ==> Memo(cached, stored) == cached
    ensures !Truthy(cached) ==> Memo(cached, stored) == stored
  {
  }

  /** Once the cache holds a truthy value, no later call changes it, whatever config then holds. */
  lemma {:induction false} CacheSticks(cached: Value, stored: seq<Value>)
    requires Truthy(cached)
    ensures CacheAfter(cached, stored) == cached
  {
    if stored != [] {
      CacheSticks(cached, stored[1..]);
    }
  }

  /**
   * Starting from a falsy cache, the value kept for good is the first truthy one
   * config held at a call; later config changes are never seen.
   */
  lemma {:induction false} CacheKeepsFirstTruthy(cached: Value, stored: seq<Value>, k: nat)
    requires !Truthy(cached)
    requires k < |stored| && Truthy(stored[k])
    requires forall j :: 0 <= j < k ==> !Truthy(stored[j])
    ensures CacheAfter(cached, stored) == stored[k]
    decreases k
  {
    if k == 0 {
      CacheSticks(stored[0], stored[1..]);
    } else {
      CacheKeepsFirstTruthy(stored[0], stored[1..], k - 1);
    }
  }

  /** While config only ever holds falsy values, every call re-reads it: the cache is what the last call saw. */
  lemma {:induction false} FalsyIsReread(cached: Value, stored: seq<Value>)
    requires !Truthy(cached) && |stored| > 0
    requires forall j :: 0 <= j < |stored| ==> !Truthy(stored[j])
    ensures CacheAfter(cached, stored) == stored[|stored| - 1]
    decreases |stored|
  {
    if |stored| > 1 {
      FalsyIsReread(stored[0], stored[1..]);
    }
  }

  class DiscordAuthSettings {
    const config: Config
    var clientId: Value
    var clientSecret: Value

    /** A fresh handler: both cached fields start as NULL. */
    constructor (config: Config)
      ensures this.config == config && clientId == Null && clientSecret == Null
    {
      this.config := config;
      clientId := Null;
      clientSecret := Null;
    }

    /** `getClientId()`: refreshes `clientId` from `client_id` when it is falsy, then returns it. */
    method GetClientId() returns (id: Value)
      modifies this`clientId
      ensures id == clientId == Memo(old(clientId), config.Get("client_id"))
      ensures clientSecret == old(clientSecret)
    {
      if !Truthy(clientId) {
        clientId := config.Get("client_id");
      }
      id := clientId;
    }

    /** `getClientSecret()`: the same rule for `clientSecret` and `client_secret`. */
    method GetClientSecret() returns (secret: Value)
      modifies this`clientSecret
      ensures secret == clientSecret == Memo(old(clientSecret), config.Get("client_secret"))
      ensures clientId == old(clientId)
    {
      if !Truthy(clientSecret) {
        clientSecret := config.Get("client_secret");
      }
      secret := clientSecret;
    }
  }
}
