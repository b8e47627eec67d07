/**
 * DiscordAuthSettingsForm: the administration form. Validation splits the
 * scopes text at single spaces and rejects it when any piece is not on a fixed
 * allow-list; submission stores the trimmed credentials and the free-text
 * fields as entered.
 */
module Form {
  import opened Php
  import opened Settings

  /** The configuration object this form edits. */
  const SettingsName: string := "social_auth_discord.settings"

  /** The extra scopes an administrator may request; Discord's default scopes are deliberately absent. */
  const ValidScopes: seq<string> :=
    ["", "bot", "gdm.join", "messages.read", "rpc", "rpc.api", "rpc.notifications.read", "webhook.incoming"]

  /** The message recorded against `scope` when validation fails. */
  const ScopeError: string :=
    "You have entered an invalid scope, or the scope entered may already have been set by default. "
    + "Please check and try again, or read the Social Auth Discord docs."

  /** `explode(" ", scopes)`: only a single space separates tokens. */
  function ScopeTokens(scopes: string): seq<string> {
    Explode(' ', scopes)
  }

  /** Every token is on the allow-list, compared strictly and case-sensitively. */
  predicate TokensAllowed(tokens: seq<string>) {
    forall t :: t in tokens ==> t in ValidScopes
  }

  /** The scopes text passes validation. */
  predicate ScopesValid(scopes: string) {
    TokensAllowed(ScopeTokens(scopes))
  }

  /** The form's submitted values and the errors recorded against element names. */
  class FormState {
    var values: map<string, Value>
    var errors: map<string, string>

    constructor (values: map<string, Value>)
      ensures this.values == values && errors == map[]
    {
      this.values := values;
      errors := map[];
    }
  }

  /** `getEditableConfigNames()`: the parent form's names followed by this module's settings object. */
  function EditableConfigNames(parentNames: seq<string>): (names: seq<string>)
    ensures |names| == |parentNames| + 1 && names[|parentNames|] == SettingsName
    ensures forall i :: 0 <= i < |parentNames| ==> names[i] == parentNames[i]
  {
    parentNames + [SettingsName]
  }

  /** The loop of `validateForm()`: raises the flag when some token is off the allow-list. */
  method FindInvalidScope(tokens: seq<string>) returns (containsInvalid: bool)
    ensures containsInvalid <==> !TokensAllowed(tokens)
  {
    containsInvalid := false;
    for i := 0 to |tokens|
      invariant containsInvalid <==> exists j :: 0 <= j < i && tokens[j] !in ValidScopes
    {
      if tokens[i] !in ValidScopes {
        containsInvalid := true;
      }
    }
  }

  /**
   * `validateForm()`: records one error, under `scope`, exactly when the scopes
   * text (NULL read as "") does not pass; no other entry changes.
   */
  method ValidateForm(formState: FormState)
    modifies formState`errors
    ensures formState.errors ==
      if ScopesValid(AsString(Lookup(formState.values, "scopes"))) then old(formState.errors)
      else old(formState.errors)["scope" := ScopeError]
  {
    var scopes := ScopeTokens(AsString(Lookup(formState.values, "scopes")));
    var containsInvalid := FindInvalidScope(scopes);
    if containsInvalid {
      formState.errors := formState.errors["scope" := ScopeError];
    }
  }

  /**
   * `submitForm()`: stores `client_id` and `client_secret` trimmed and `scopes`
   * and `api_calls` as entered; other configuration entries are kept.
   */
  method SubmitForm(formState: FormState, config: Config)
    modifies config
    ensures config.data == old(config.data)
      ["client_id" := Str(Trim(AsString(Lookup(formState.values, "client_id"))))]
      ["client_secret" := Str(Trim(AsString(Lookup(formState.values, "client_secret"))))]
      ["scopes" := Lookup(formState.values, "scopes")]
      ["api_calls" := Lookup(formState.values, "api_calls")]
  {
    var values := formState.values;
    var clientId := Str(Trim(AsString(Lookup(values, "client_id"))));
    var clientSecret := Str(Trim(AsString(Lookup(values, "client_secret"))));
    var scopes := Lookup(values, "scopes");
    var apiCalls := Lookup(values, "api_calls");
    ghost var before := config.data;
    config.Set("client_id", clientId);
    assert config.data == before["client_id" := clientId];
    config.Set("client_secret", clientSecret);
    assert config.data == before["client_id" := clientId]["client_secret" := clientSecret];
    config.Set("scopes", scopes);
    config.Set("api_calls", apiCalls);
  }

  /** An empty scopes text is valid: it is the single token "", which is allowed. */
  lemma EmptyScopesValid()
    ensures ScopeTokens("") == [""]
    ensures ScopesValid("")
  {
  }

  /** Joining two texts with a space passes exactly when both pass. */
  lemma {:induction false} SpaceJoinedScopes(a: string, b: string)
    ensures ScopesValid(a + " " + b) <==> ScopesValid(a) && ScopesValid(b)
  {
    ExplodeConcat(' ', a, b);
    var ta, tb := ScopeTokens(a), ScopeTokens(b);
    assert ScopeTokens(a + " " + b) == ta + tb;
    assert forall t :: t in ta + tb <==> t in ta || t in tb;
  }

  /** Leading, trailing and doubled spaces are accepted around a valid text. */
  lemma StraySpacesAccepted(s: string)
    ensures ScopesValid(" " + s) <==> ScopesValid(s)
    ensures ScopesValid(s + " ") <==> ScopesValid(s)
    ensures ScopesValid(s + "  " + s) <==> ScopesValid(s)
  {
    EmptyScopesValid();
    SpaceJoinedScopes("", s);
    assert "" + " " + s == " " + s;
    SpaceJoinedScopes(s, "");
    assert s + " " + "" == s + " ";
    SpaceJoinedScopes(s, " " + s);
    assert s + " " + (" " + s) == s + "  " + s;
  }

  /** A doubled space between two texts is accepted exactly when a single one is. */
  lemma DoubledSpaceAccepted(a: string, b: string)
    ensures ScopesValid(a + "  " + b) <==> ScopesValid(a + " " + b)
  {
    SpaceJoinedScopes(a, " " + b);
    StraySpacesAccepted(b);
    SpaceJoinedScopes(a, b);
    assert a + " " + (" " + b) == a + "  " + b;
  }

  /** Validity does not depend on the order of the tokens. */
  lemma ScopeOrderIrrelevant(a: string, b: string)
    ensures ScopesValid(a + " " + b) <==> ScopesValid(b + " " + a)
  {
    SpaceJoinedScopes(a, b);
    SpaceJoinedScopes(b, a);
  }

  /** A token list passes or fails independently of its order. */
  lemma TokensAllowedPermutation(tokens: seq<string>, reordered: seq<string>)
    requires multiset(tokens) == multiset(reordered)
    ensures TokensAllowed(tokens) <==> TokensAllowed(reordered)
  {
    assert forall t :: t in tokens <==> t in multiset(tokens);
    assert forall t :: t in reordered <==> t in multiset(reordered);
  }

  /** Matching is case-sensitive: "Bot" is not "bot". */
  lemma CaseSensitive()
    ensures !ScopesValid("Bot")
  {
    ExplodeWithoutSeparator(' ', "Bot");
    assert "Bot"[0] != "bot"[0] && "Bot"[0] != "rpc"[0];
    assert "Bot" in ScopeTokens("Bot");
  }

  /** A default scope such as "identify" is refused. */
  lemma DefaultScopeRefused()
    ensures !ScopesValid("identify")
  {
    ExplodeWithoutSeparator(' ', "identify");
    assert "identify"[0] != "gdm.join"[0];
    assert "identify" in ScopeTokens("identify");
  }

  /**
   * A newline does not separate tokens: every text containing one is rejected,
   * since no allowed scope contains a newline and the tokens rebuild the text.
   */
  lemma NewlineRejected(s: string)
    requires '\n' in s
    ensures !ScopesValid(s)
  {
    var tokens := ScopeTokens(s);
    if ScopesValid(s) {
      assert forall t :: t in ValidScopes ==> '\n' !in t;
      assert forall i :: 0 <= i < |tokens| ==> '\n' !in tokens[i] by {
        forall i | 0 <= i < |tokens| ensures '\n' !in tokens[i] {
          assert tokens[i] in tokens;
        }
      }
      ImplodeWithout(' ', '\n', tokens);
      ImplodeExplode(' ', s);
      assert false;
    }
  }
}
