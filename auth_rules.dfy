/**
 * The pure rules of the login server: the e-mail whitelist, and the three requests of the OAuth 2.0
 * authorization-code flow it takes part in with Google: the authorization request (section 4.1.1 of
 * RFC 6749), the access-token request (section 4.1.3 of RFC 6749) and the Bearer-authenticated
 * profile request (section 2.1 of RFC 6750).
 *
 * Query strings and form bodies are kept as ordered lists of name/value pairs; their
 * percent-encoding (`URLSearchParams.toString()`) is the parameter `encode`.
 */
module AuthRules {
  import opened Common
  import opened JsText

  const DefaultAppUrl := "http://localhost:3000"
  const CallbackPath := "/auth/google/callback"
  const AuthEndpoint := "https://accounts.google.com/o/oauth2/v2/auth"
  const TokenEndpoint := "https://oauth2.googleapis.com/token"
  const UserInfoEndpoint := "https://www.googleapis.com/oauth2/v2/userinfo"
  const ScopeBase := "https://www.googleapis.com/auth/"
  const ProfileScope := ScopeBase + "userinfo.profile"
  const EmailScope := ScopeBase + "userinfo.email"

  type Params = seq<(string, string)>

  /** `process.env.NAME || fallback`: an unset or empty variable reads as the fallback. */
  function EnvOr(v: Option<string>, fallback: string): (r: string)
    ensures v.Some? && v.value != "" ==> r == v.value
    ensures v.None? || v.value == "" ==> r == fallback
  {
    if v.Some? && v.value != "" then v.value else fallback
  }

  /** A variable read with `!` and then stringified: an unset one becomes the text "undefined". */
  function EnvText(v: Option<string>): string {
    if v.Some? then v.value else "undefined"
  }

  /** The whitelist: `AUTH_WHITELIST` split on ",", each entry trimmed and lower-cased. */
  function Whitelist(env: Option<string>): (w: seq<string>)
    ensures |w| == |Split(EnvOr(env, ""), ',')|
    ensures forall i :: 0 <= i < |w| ==> w[i] == ToLower(Trim(Split(EnvOr(env, ""), ',')[i]))
  {
    var entries := Split(EnvOr(env, ""), ',');
    seq(|entries|, i requires 0 <= i < |entries| => ToLower(Trim(entries[i])))
  }

  /**
   * `isWhitelisted(email)`: the lower-cased e-mail (not trimmed) is one of the whitelist's entries,
   * that is, some comma-separated piece of `AUTH_WHITELIST` matches it once trimmed and lower-cased.
   */
  predicate IsWhitelisted(env: Option<string>, email: string): (b: bool)
    ensures var pieces := Split(EnvOr(env, ""), ',');
      b <==> exists i :: 0 <= i < |pieces| && ToLower(Trim(pieces[i])) == ToLower(email)
  {
    WhitelistMember(env, Split(EnvOr(env, ""), ','), ToLower(email));
    ToLower(email) in Whitelist(env)
  }

  /** An entry of the whitelist is some piece of `AUTH_WHITELIST`, trimmed and lower-cased. */
  lemma WhitelistMember(env: Option<string>, pieces: seq<string>, x: string)
    requires pieces == Split(EnvOr(env, ""), ',')
    ensures x in Whitelist(env) <==> exists i :: 0 <= i < |pieces| && ToLower(Trim(pieces[i])) == x
  {
    EntryOfPieces(Whitelist(env), pieces, x);
  }

  /** A list built piece by piece holds `x` exactly when some piece maps to `x`. */
  lemma EntryOfPieces(w: seq<string>, pieces: seq<string>, x: string)
    requires |w| == |pieces|
    requires forall i :: 0 <= i < |w| ==> w[i] == ToLower(Trim(pieces[i]))
    ensures x in w <==> exists i :: 0 <= i < |pieces| && ToLower(Trim(pieces[i])) == x
  {
    if x in w {
      var i :| 0 <= i < |w| && w[i] == x;
      assert ToLower(Trim(pieces[i])) == x;
    }
  }

  /**
   * Whitelisting is case-insensitive in the e-mail: two addresses that differ only in the case of
   * ASCII letters are both accepted or both refused.
   */
  lemma WhitelistIgnoresCase(env: Option<string>, a: string, b: string)
    requires ToLower(a) == ToLower(b)
    ensures IsWhitelisted(env, a) <==> IsWhitelisted(env, b)
  {
  }

  /**
   * For a whitelist written as comma-separated entries (each entry free of commas, with any
   * surrounding whitespace and any letter case), an address is accepted exactly when it matches one
   * of the entries after trimming the entry and lower-casing both.
   */
  lemma WhitelistedIff(entries: seq<string>, email: string)
    requires |entries| >= 1
    requires forall i :: 0 <= i < |entries| ==> ',' !in entries[i]
    ensures IsWhitelisted(Some(Join(entries, ',')), email)
            <==> exists i :: 0 <= i < |entries| && ToLower(Trim(entries[i])) == ToLower(email)
  {
    SplitJoin(entries, ',');
    assert EnvOr(Some(Join(entries, ',')), "") == Join(entries, ',');
    var w := Whitelist(Some(Join(entries, ',')));
    if IsWhitelisted(Some(Join(entries, ',')), email) {
      var i :| 0 <= i < |w| && w[i] == ToLower(email);
      assert ToLower(Trim(entries[i])) == ToLower(email);
    }
    if exists i :: 0 <= i < |entries| && ToLower(Trim(entries[i])) == ToLower(email) {
      var i :| 0 <= i < |entries| && ToLower(Trim(entries[i])) == ToLower(email);
      assert w[i] == ToLower(email);
    }
  }

  /** With `AUTH_WHITELIST` unset (or empty) the list is `[""]`: only the empty address gets in. */
  lemma UnsetWhitelistAcceptsOnlyEmpty(env: Option<string>, email: string)
    requires env.None? || env.value == ""
    ensures IsWhitelisted(env, email) <==> email == ""
  {
    assert Whitelist(env) == [""];
  }

  /**
   * Entries are trimmed but the address is not: an address that starts with whitespace is refused,
   * whatever the whitelist holds.
   */
  lemma PaddedAddressRefused(env: Option<string>, email: string)
    requires |email| > 0 && IsWhitespace(email[0])
    ensures !IsWhitelisted(env, email)
  {
    var w := Whitelist(env);
    var entries := Split(EnvOr(env, ""), ',');
    forall i | 0 <= i < |w|
      ensures w[i] != ToLower(email)
    {
      var t := Trim(entries[i]);
      if |t| > 0 {
        assert t[0] == TrimStart(entries[i])[0];
        assert w[i][0] == LowerChar(t[0]);
      }
      assert ToLower(email)[0] == email[0];
    }
  }

  /** The redirect URI: `APP_URL` (default http://localhost:3000) followed by the callback path. */
  function RedirectUri(appUrl: Option<string>): (u: string)
    ensures |CallbackPath| <= |u| && u[|u| - |CallbackPath|..] == CallbackPath
    ensures appUrl.Some? && appUrl.value != "" ==> |appUrl.value| <= |u| && u[..|appUrl.value|] == appUrl.value
    ensures appUrl.None? || appUrl.value == "" ==> u == DefaultAppUrl + CallbackPath
  {
    EnvOr(appUrl, DefaultAppUrl) + CallbackPath
  }

  /** The value of the first parameter with this name. */
  function ParamValue(ps: Params, name: string): Option<string>
    decreases |ps|
  {
    if ps == [] then None
    else if ps[0].0 == name then Some(ps[0].1)
    else ParamValue(ps[1..], name)
  }

  /** A parameter whose name does not occur earlier in the list is found, with its own value. */
  lemma {:induction false} ParamValueAt(ps: Params, k: nat)
    requires k < |ps|
    requires forall j :: 0 <= j < k ==> ps[j].0 != ps[k].0
    ensures ParamValue(ps, ps[k].0) == Some(ps[k].1)
    decreases k
  {
    if k > 0 {
      ParamValueAt(ps[1..], k - 1);
    }
  }

  /** The parameter names, in order. */
  function ParamNames(ps: Params): (names: seq<string>)
    ensures |names| == |ps| && forall i :: 0 <= i < |ps| ==> names[i] == ps[i].0
  {
    seq(|ps|, i requires 0 <= i < |ps| => ps[i].0)
  }

  /** The query parameters of the authorization request, in the order the server writes them. */
  function AuthorizationParams(appUrl: Option<string>, clientId: Option<string>): (ps: Params)
    ensures ParamNames(ps) == ["redirect_uri", "client_id", "access_type", "response_type", "prompt", "scope"]
    ensures Split(ps[5].1, ' ') == [ProfileScope, EmailScope]
  {
    assert ' ' !in ProfileScope && ' ' !in EmailScope by {
      assert forall i :: 0 <= i < |ScopeBase| ==> ScopeBase[i] != ' ';
    }
    SplitJoin([ProfileScope, EmailScope], ' ');
    [ ("redirect_uri", RedirectUri(appUrl)),
      ("client_id", EnvText(clientId)),
      ("access_type", "offline"),
      ("response_type", "code"),
      ("prompt", "consent"),
      ("scope", Join([ProfileScope, EmailScope], ' ')) ]
  }

  /** The URL the login button opens: the Google endpoint, "?", and the encoded query. */
  function AuthorizationUrl(appUrl: Option<string>, clientId: Option<string>, encode: Params -> string): (url: string)
    ensures |url| > |AuthEndpoint| && url[..|AuthEndpoint| + 1] == AuthEndpoint + "?"
    ensures url[|AuthEndpoint| + 1..] == encode(AuthorizationParams(appUrl, clientId))
  {
    AuthEndpoint + "?" + encode(AuthorizationParams(appUrl, clientId))
  }

  /** The form body of the access-token request made with an authorization code. */
  function TokenParams(code: string, appUrl: Option<string>, clientId: Option<string>,
                       clientSecret: Option<string>): (tp: Params)
    ensures ParamNames(tp) == ["code", "client_id", "client_secret", "redirect_uri", "grant_type"]
    ensures tp[3].1 == AuthorizationParams(appUrl, clientId)[0].1
    ensures tp[0].1 == code && tp[4].1 == "authorization_code"
    ensures tp[1].1 == AuthorizationParams(appUrl, clientId)[1].1
  {
    [ ("code", code),
      ("client_id", EnvText(clientId)),
      ("client_secret", EnvText(clientSecret)),
      ("redirect_uri", RedirectUri(appUrl)),
      ("grant_type", "authorization_code") ]
  }

  /** The `Authorization` header of the profile request; a missing token is written as "undefined". */
  function BearerHeader(accessToken: Option<string>): (h: string)
    ensures |h| >= 7 && h[..7] == "Bearer " && h[7..] == EnvText(accessToken)
  {
    "Bearer " + EnvText(accessToken)
  }

  /**
   * The authorization request asks for an authorization code (`response_type=code`) on behalf of the
   * configured client, names every parameter once, and its scope is the space-separated list of the
   * two userinfo scopes.
   */
  lemma AuthorizationRequestConforms(appUrl: Option<string>, clientId: Option<string>)
    ensures var ps := AuthorizationParams(appUrl, clientId);
      ParamNames(ps) == ["redirect_uri", "client_id", "access_type", "response_type", "prompt", "scope"]
      && ParamValue(ps, "response_type") == Some("code")
      && ParamValue(ps, "client_id") == Some(EnvText(clientId))
      && ParamValue(ps, "access_type") == Some("offline")
      && ParamValue(ps, "prompt") == Some("consent")
      && ParamValue(ps, "scope").Some? && Split(ParamValue(ps, "scope").value, ' ') == [ProfileScope, EmailScope]
  {
    var ps := AuthorizationParams(appUrl, clientId);
    ParamValueAt(ps, 1);
    ParamValueAt(ps, 2);
    ParamValueAt(ps, 3);
    ParamValueAt(ps, 4);
    ParamValueAt(ps, 5);
  }

  /**
   * The token request exchanges the code with `grant_type=authorization_code`, and carries the same
   * `redirect_uri` as the authorization request, as section 4.1.3 of RFC 6749 requires.
   */
  lemma TokenRequestConforms(code: string, appUrl: Option<string>, clientId: Option<string>,
                             clientSecret: Option<string>)
    ensures var tp := TokenParams(code, appUrl, clientId, clientSecret);
      ParamValue(tp, "grant_type") == Some("authorization_code")
      && ParamValue(tp, "code") == Some(code)
      && ParamValue(tp, "client_id") == ParamValue(AuthorizationParams(appUrl, clientId), "client_id")
      && ParamValue(tp, "redirect_uri") == ParamValue(AuthorizationParams(appUrl, clientId), "redirect_uri")
      && ParamValue(tp, "redirect_uri") == Some(EnvOr(appUrl, DefaultAppUrl) + CallbackPath)
  {
    var tp := TokenParams(code, appUrl, clientId, clientSecret);
    ParamValueAt(tp, 1);
    ParamValueAt(tp, 3);
    ParamValueAt(tp, 4);
    var ps := AuthorizationParams(appUrl, clientId);
    ParamValueAt(ps, 0);
    ParamValueAt(ps, 1);
  }
}
