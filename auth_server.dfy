/**
 * The login server's session handling: the signed cookie session holds at most one user, and the
 * routes `/api/auth/user`, `/api/auth/logout`, `/api/auth/google/url` and `/auth/google/callback`
 * read or replace it.
 *
 * The two network calls of the callback (the token exchange and the profile request) are inputs:
 * each either fails (a network error or a body that is not JSON, both of which throw) or yields
 * what the server reads from its JSON body. The environment variables are fixed when the gateway
 * is built.
 */
module AuthServer {
  import opened Common
  import opened JsText
  import opened AuthRules

  /** The user kept in the session: exactly these four profile fields, an absent one stays absent. */
  datatype Identity = Identity(id: Option<string>, email: string, name: Option<string>, picture: Option<string>)

  /** The body of the profile response; fields other than these four are never read. */
  datatype GoogleProfile = GoogleProfile(
    id: Option<string>,
    email: Option<string>,
    name: Option<string>,
    picture: Option<string>,
    otherFields: map<string, string>)

  /** The token response: a failure, or a JSON body whose `access_token` may be missing. */
  datatype TokenOutcome = TokenFailed | Tokens(accessToken: Option<string>)

  /** The profile response: a failure, or its JSON body. */
  datatype ProfileOutcome = ProfileFailed | Profile(profile: GoogleProfile)

  /** The replies of the auth routes. */
  datatype Reply =
    | UserJson(user: Identity)   // 200 `{ user }`
    | NotAuthenticated           // 401 `{ error: "Not authenticated" }`
    | LoggedOut                  // 200 `{ success: true }`
    | AuthUrlJson(url: string)   // 200 `{ url }`
    | AuthErrorPage           // 200 page posting OAUTH_AUTH_ERROR to the opener
    | SuccessPage                // 200 page posting OAUTH_AUTH_SUCCESS to the opener
    | AuthFailed                 // 500 "Authentication failed"

  /** The HTTP status of a reply: only the missing user and a failed callback are not 200. */
  function Status(r: Reply): (code: nat)
    ensures code == 401 <==> r.NotAuthenticated?
    ensures code == 500 <==> r.AuthFailed?
    ensures code != 401 && code != 500 ==> code == 200
  {
    match r
    case NotAuthenticated => 401
    case AuthFailed => 500
    case _ => 200
  }

  /** How a callback ends, decided from the whitelist and the two network outcomes. */
  datatype CallbackOutcome = Failed | Denied | Accepted(user: Identity)

  /**
   * The callback's decision. Any failed call throws, and so does a profile without an e-mail
   * (`isWhitelisted` lower-cases it); those end in `Failed`. A whitelisted e-mail is accepted with
   * the profile's four fields, any other is denied.
   */
  function Decide(whitelistEnv: Option<string>, tokens: TokenOutcome, profile: ProfileOutcome): (o: CallbackOutcome)
    ensures o.Failed? <==> tokens.TokenFailed? || profile.ProfileFailed? || profile.profile.email.None?
    ensures o.Accepted? <==>
              tokens.Tokens? && profile.Profile? && profile.profile.email.Some?
              && IsWhitelisted(whitelistEnv, profile.profile.email.value)
    ensures o.Accepted? ==>
              var p := profile.profile;
              o.user == Identity(p.id, p.email.value, p.name, p.picture)
  {
    if tokens.TokenFailed? || profile.ProfileFailed? then Failed
    else
      var p := profile.profile;
      if p.email.None? then Failed
      else if !IsWhitelisted(whitelistEnv, p.email.value) then Denied
      else Accepted(Identity(p.id, p.email.value, p.name, p.picture))
  }

  /** The page or error a callback outcome is answered with. */
  function CallbackReply(o: CallbackOutcome): (r: Reply)
    ensures o.Failed? <==> Status(r) == 500
    ensures r == SuccessPage <==> o.Accepted?
    ensures r == AuthErrorPage <==> o.Denied?
  {
    match o
    case Failed => AuthFailed
    case Denied => AuthErrorPage
    case Accepted(_) => SuccessPage
  }

  /**
   * With `AUTH_WHITELIST` unset or empty nobody with a real address can log in: every callback with
   * a non-empty e-mail is denied or fails.
   */
  lemma UnsetWhitelistLocksOut(whitelistEnv: Option<string>, tokens: TokenOutcome, profile: ProfileOutcome)
    requires whitelistEnv.None? || whitelistEnv.value == ""
    requires profile.Profile? && profile.profile.email.Some? && profile.profile.email.value != ""
    ensures !Decide(whitelistEnv, tokens, profile).Accepted?
  {
    UnsetWhitelistAcceptsOnlyEmpty(whitelistEnv, profile.profile.email.value);
  }

  /** A profile whose address starts with whitespace is never accepted, whatever the whitelist. */
  lemma PaddedProfileRefused(whitelistEnv: Option<string>, tokens: TokenOutcome, profile: ProfileOutcome)
    requires profile.Profile? && profile.profile.email.Some?
    requires var e := profile.profile.email.value; |e| > 0 && IsWhitespace(e[0])
    ensures !Decide(whitelistEnv, tokens, profile).Accepted?
  {
    PaddedAddressRefused(whitelistEnv, profile.profile.email.value);
  }

  /** The server with its environment and the one cookie session it serves. */
  class AuthGateway {
    const whitelistEnv: Option<string>
    const appUrl: Option<string>
    const clientId: Option<string>
    const clientSecret: Option<string>
    var user: Option<Identity>

    /** A visitor without a session cookie. */
    constructor (whitelistEnv: Option<string>, appUrl: Option<string>, clientId: Option<string>,
                 clientSecret: Option<string>)
      ensures this.whitelistEnv == whitelistEnv && this.appUrl == appUrl
      ensures this.clientId == clientId && this.clientSecret == clientSecret
      ensures user.None?
    {
      this.whitelistEnv := whitelistEnv;
      this.appUrl := appUrl;
      this.clientId := clientId;
      this.clientSecret := clientSecret;
      user := None;
    }

    /** `GET /api/auth/user`: the stored user when there is one, 401 otherwise. */
    method GetUser() returns (r: Reply)
      ensures r.UserJson? <==> user.Some?
      ensures user.Some? ==> r.user == user.value
      ensures user.None? ==> r == NotAuthenticated && Status(r) == 401
    {
      if user.Some? {
        r := UserJson(user.value);
      } else {
        r := NotAuthenticated;
      }
    }

    /** `GET /api/auth/logout`: the session is dropped whatever it held. */
    method Logout() returns (r: Reply)
      modifies this
      ensures user.None? && r == LoggedOut
    {
      user := None;
      r := LoggedOut;
    }

    /** `GET /api/auth/google/url`: the authorization request's URL; the session is not touched. */
    method GoogleAuthUrl(encode: Params -> string) returns (r: Reply)
      ensures r.AuthUrlJson? && r.url == AuthorizationUrl(appUrl, clientId, encode)
      ensures Status(r) == 200
    {
      r := AuthUrlJson(AuthorizationUrl(appUrl, clientId, encode));
    }

    /**
     * `GET /auth/google/callback?code=…`. The token request is always sent, with the code as given
     * (an absent one reads "undefined"); the profile request follows when it succeeded, with the
     * Bearer header built from `access_token`. An accepted callback replaces the session's user;
     * a denied or failed one leaves the session exactly as it was.
     */
    method Callback(code: Option<string>, tokens: TokenOutcome, profile: ProfileOutcome)
      returns (r: Reply, tokenForm: Params, authorization: Option<string>)
      modifies this
      ensures tokenForm == TokenParams(EnvText(code), appUrl, clientId, clientSecret)
      ensures tokens.TokenFailed? ==> authorization.None?
      ensures tokens.Tokens? ==> authorization == Some(BearerHeader(tokens.accessToken))
      ensures r == CallbackReply(Decide(whitelistEnv, tokens, profile))
      ensures Decide(whitelistEnv, tokens, profile).Accepted? ==>
                user == Some(Decide(whitelistEnv, tokens, profile).user)
      ensures !Decide(whitelistEnv, tokens, profile).Accepted? ==> user == old(user)
    {
      tokenForm := TokenParams(EnvText(code), appUrl, clientId, clientSecret);
      if tokens.TokenFailed? {
        authorization := None;
      } else {
        authorization := Some(BearerHeader(tokens.accessToken));
      }
      var o := Decide(whitelistEnv, tokens, profile);
      if o.Accepted? {
        user := Some(o.user);
      }
      r := CallbackReply(o);
    }
  }

  /**
   * A visitor logs in with a whitelisted account and the user route returns that account; after
   * logging out the same route answers 401.
   */
  method LoginThenLogout(whitelistEnv: Option<string>, code: string, profile: GoogleProfile)
    returns (before: Reply, after: Reply)
    requires profile.email.Some? && IsWhitelisted(whitelistEnv, profile.email.value)
    ensures before == UserJson(Identity(profile.id, profile.email.value, profile.name, profile.picture))
    ensures after == NotAuthenticated
  {
    var g := new AuthGateway(whitelistEnv, None, None, None);
    var page, _, _ := g.Callback(Some(code), Tokens(Some("token")), Profile(profile));
    before := g.GetUser();
    var bye := g.Logout();
    after := g.GetUser();
  }

  /** A denied login by a second account does not log out the user already in the session. */
  method DeniedLoginKeepsUser(whitelistEnv: Option<string>, first: GoogleProfile, second: GoogleProfile)
    returns (page: Reply, current: Reply)
    requires first.email.Some? && IsWhitelisted(whitelistEnv, first.email.value)
    requires second.email.Some? && !IsWhitelisted(whitelistEnv, second.email.value)
    ensures page == AuthErrorPage
    ensures current == UserJson(Identity(first.id, first.email.value, first.name, first.picture))
  {
    var g := new AuthGateway(whitelistEnv, None, None, None);
    var ok, _, _ := g.Callback(Some("c1"), Tokens(Some("t1")), Profile(first));
    var form, header;
    page, form, header := g.Callback(Some("c2"), Tokens(Some("t2")), Profile(second));
    current := g.GetUser();
  }
}
