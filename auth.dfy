/** The authentication provider of lib/auth-context.tsx: the session cookie it writes, and
    the session state (user, tokens, loading, error, local storage, cookie writes) that
    mount, `login`, `register` and `logout` change. The API calls' outcomes are inputs. */
module Auth {
  import opened Common
  import opened ApiClient
  import opened UrlEncoding
  import Proxy

  const TokenCookieName := "tokens"
  const TokenCookieMaxAge: nat := 60 * 60 * 24 * 7

  /** `tokens.refreshToken || tokens.accessToken`. */
  function CookieToken(t: AuthTokens): string {
    if t.refreshToken != "" then t.refreshToken else t.accessToken
  }

  /** The attributes after the value of a token cookie that lives `maxAge` seconds. */
  function CookieAttributes(maxAge: string): (r: string)
    ensures r != [] && r[0] == ';'
  {
    "; path=/; max-age=" + maxAge + "; SameSite=Lax"
  }

  /** The string `writeTokenCookie(tokens)` assigns to `document.cookie`. */
  function TokenCookie(tokens: Option<AuthTokens>): string {
    match tokens
    case None => TokenCookieName + "=" + CookieAttributes("0")
    case Some(t) => TokenCookieName + "=" + ComponentEncode(CookieToken(t)) + CookieAttributes(NatToDecimal(TokenCookieMaxAge))
  }

  // ---------------------------------------------------------------------------
  // Reading the cookie back

  /** The text before the first ';'. */
  function UntilSemicolon(s: string): (r: string)
    ensures |r| <= |s| && r == s[..|r|]
    ensures forall i | 0 <= i < |r| :: r[i] != ';'
    ensures |r| < |s| ==> s[|r|] == ';'
  {
    if s == [] || s[0] == ';' then [] else [s[0]] + UntilSemicolon(s[1..])
  }

  /** The value a cookie parser reads for the "tokens" cookie from a `Set-Cookie` string:
      the text between "tokens=" and the first ';'. */
  function CookieValue(cookie: string): (r: Option<string>)
    ensures r.Some? <==> StartsWith(cookie, TokenCookieName + "=")
  {
    var prefix := TokenCookieName + "=";
    if StartsWith(cookie, prefix) then Some(UntilSemicolon(cookie[|prefix|..])) else None
  }

  lemma {:induction false} UntilSemicolonPrefix(v: string, rest: string)
    requires forall i | 0 <= i < |v| :: v[i] != ';'
    requires rest != [] && rest[0] == ';'
    ensures UntilSemicolon(v + rest) == v
  {
    if v == [] {
      assert v + rest == rest;
    } else {
      assert (v + rest)[1..] == v[1..] + rest;
      UntilSemicolonPrefix(v[1..], rest);
    }
  }

  /** `cookie-octet` of section 4.1.1 of RFC 6265: US-ASCII excluding controls, whitespace,
      DQUOTE, comma, semicolon and backslash. */
  predicate CookieOctet(c: char) {
    var n := c as int;
    n == 0x21 || (0x23 <= n <= 0x2B) || (0x2D <= n <= 0x3A) || (0x3C <= n <= 0x5B) || (0x5D <= n <= 0x7E)
  }

  lemma ComponentAlphabetIsCookieOctets(s: string)
    requires ComponentAlphabet(s)
    ensures forall i | 0 <= i < |s| :: CookieOctet(s[i])
  {
    forall i | 0 <= i < |s| ensures CookieOctet(s[i]) {
      assert ComponentSafe(s[i]) || s[i] == '%';
    }
  }

  lemma MaxAgeIsSevenDays()
    ensures TokenCookieMaxAge == 604800
    ensures NatToDecimal(TokenCookieMaxAge) == "604800"
  {
    assert NatToDecimal(6) == "6";
    assert NatToDecimal(60) == "60";
    assert NatToDecimal(604) == "604";
    assert NatToDecimal(6048) == "6048";
    assert NatToDecimal(60480) == "60480";
  }

  /** A cookie string "tokens=" + v + rest, with no ';' in `v` and `rest` opening the
      attributes, reads back as `v`. */
  lemma CookieValueOf(v: string, rest: string)
    requires forall i | 0 <= i < |v| :: v[i] != ';'
    requires rest != [] && rest[0] == ';'
    ensures CookieValue(TokenCookieName + "=" + v + rest) == Some(v)
  {
    var c := TokenCookieName + "=" + v + rest;
    assert c == "tokens=" + (v + rest);
    assert c[|"tokens="|..] == v + rest;
    UntilSemicolonPrefix(v, rest);
  }

  /** With tokens, the cookie carries the percent-encoded refresh token (or, when that is
      empty, the access token) as a valid RFC 6265 cookie value, which reads back as the
      UTF-8 bytes of that token, for seven days. */
  lemma TokenCookieRoundTrip(t: AuthTokens)
    ensures var v := ComponentEncode(CookieToken(t));
      && TokenCookie(Some(t)) == TokenCookieName + "=" + v + CookieAttributes("604800")
      && (forall i | 0 <= i < |v| :: CookieOctet(v[i]))
      && CookieValue(TokenCookie(Some(t))) == Some(v)
      && PercentDecode(v, false) == Utf8String(CookieToken(t))
  {
    var v := ComponentEncode(CookieToken(t));
    MaxAgeIsSevenDays();
    ComponentEncodeAlphabet(CookieToken(t));
    ComponentAlphabetIsCookieOctets(v);
    ComponentEncodeRoundTrip(CookieToken(t));
    CookieValueOf(v, CookieAttributes("604800"));
  }

  /** The attributes of the clearing cookie, `max-age=0`, spelled out. */
  lemma ExpiredAttributes()
    ensures CookieAttributes("0") == "; path=/; max-age=0; SameSite=Lax"
  {
  }

  /** The cleared cookie reads back as the empty value, which the route guard treats as no
      token. */
  lemma ClearedCookie(pathname: string)
    ensures CookieValue(TokenCookie(None)) == Some("")
    ensures Proxy.Proxy(pathname, CookieValue(TokenCookie(None))) == Proxy.Proxy(pathname, None)
  {
    assert TokenCookie(None) == TokenCookieName + "=" + "" + CookieAttributes("0");
    CookieValueOf("", CookieAttributes("0"));
    Proxy.ProxyTokenTruthiness(pathname, Some(""), None);
  }

  // ---------------------------------------------------------------------------
  // Session state

  /** What `localStorage` holds under a key: a value the provider serialized, or other text
      (whose `JSON.parse` throws). */
  datatype Stored<T> = Serialized(value: T) | Text(text: string)

  /** `if (stored)`: a serialized value is never the empty string. */
  predicate StoredTruthy<T>(s: Option<Stored<T>>) {
    s.Some? && (s.value.Text? ==> s.value.text != "")
  }

  /** The API requests the provider makes, in order. */
  datatype ApiCall =
    | LoginCall(email: string, password: string)
    | RegisterCall(name: string, email: string, password: string, phone: string)
    | LogoutCall(accessToken: string)

  class AuthSession {
    var user: Option<User>
    var tokens: Option<AuthTokens>
    var loading: bool
    var error: Option<string>
    var storedTokens: Option<Stored<AuthTokens>>   // localStorage "tokens"
    var storedUser: Option<Stored<User>>           // localStorage "user"
    var cookies: seq<string>                       // assignments to `document.cookie`
    var calls: seq<ApiCall>
    const hasDocument: bool                        // `typeof document !== "undefined"`

    /** `isAuthenticated: !!user`. */
    predicate IsAuthenticated()
      reads this
    {
      user.Some?
    }

    /** The initial render, over what local storage already holds. */
    constructor(hasDocument: bool, storedTokens: Option<Stored<AuthTokens>>, storedUser: Option<Stored<User>>)
      ensures this.hasDocument == hasDocument
      ensures this.storedTokens == storedTokens && this.storedUser == storedUser
      ensures user == None && tokens == None && loading && error == None
      ensures cookies == [] && calls == []
    {
      this.hasDocument := hasDocument;
      this.storedTokens := storedTokens;
      this.storedUser := storedUser;
      user, tokens, loading, error := None, None, true, None;
      cookies, calls := [], [];
    }

    /** `writeTokenCookie`: one cookie write, or nothing without a document. */
    method WriteTokenCookie(t: Option<AuthTokens>)
      modifies this
      ensures cookies == if hasDocument then old(cookies) + [TokenCookie(t)] else old(cookies)
      ensures user == old(user) && tokens == old(tokens) && loading == old(loading) && error == old(error)
      ensures storedTokens == old(storedTokens) && storedUser == old(storedUser) && calls == old(calls)
    {
      if hasDocument {
        cookies := cookies + [TokenCookie(t)];
      }
    }

    /** The mount effect: stored tokens are restored when they parse, the stored user only
        together with them, and loading ends. */
    method Mount()
      modifies this
      ensures tokens == if StoredTruthy(storedTokens) && storedTokens.value.Serialized?
                        then Some(storedTokens.value.value) else old(tokens)
      ensures user == if StoredTruthy(storedTokens) && storedTokens.value.Serialized? &&
                         StoredTruthy(storedUser) && storedUser.value.Serialized?
                      then Some(storedUser.value.value) else old(user)
      ensures !loading && error == old(error)
      ensures storedTokens == old(storedTokens) && storedUser == old(storedUser)
      ensures cookies == old(cookies) && calls == old(calls)
    {
      if StoredTruthy(storedTokens) {
        match storedTokens.value {
          case Serialized(t) =>
            tokens := Some(t);
            if StoredTruthy(storedUser) {
              match storedUser.value {
                case Serialized(u) => user := Some(u);
                case Text(_) =>
              }
            }
          case Text(_) =>
        }
      }
      loading := false;
    }

    /** `login(email, password)`, where `outcome` is what `loginUser` resolves to or the
        message it rejects with. */
    method Login(email: string, password: string, outcome: Result<(AuthTokens, User)>) returns (r: Result<()>)
      modifies this
      ensures calls == old(calls) + [LoginCall(email, password)]
      ensures !loading
      ensures r.Ok? <==> outcome.Ok?
      ensures outcome.Ok? ==>
        var (t, u) := outcome.value;
        && tokens == Some(t) && user == Some(u) && error == None
        && storedTokens == Some(Serialized(t)) && storedUser == Some(Serialized(u))
        && cookies == (if hasDocument then old(cookies) + [TokenCookie(Some(t))] else old(cookies))
        && IsAuthenticated()
      ensures outcome.Err? ==>
        && r == Err(outcome.message) && error == Some(outcome.message)
        && tokens == old(tokens) && user == old(user)
        && storedTokens == old(storedTokens) && storedUser == old(storedUser) && cookies == old(cookies)
    {
      error := None;
      loading := true;
      calls := calls + [LoginCall(email, password)];
      match outcome {
        case Ok((t, u)) =>
          tokens := Some(t);
          user := Some(u);
          storedTokens := Some(Serialized(t));
          storedUser := Some(Serialized(u));
          WriteTokenCookie(Some(t));
          r := Ok(());
        case Err(m) =>
          error := Some(m);
          r := Err(m);
      }
      loading := false;
    }

    /** `register(...)`: the registration request, then, when it succeeds, `login` with the
        same email and password (whose outcome is `loginOutcome`). */
    method Register(name: string, email: string, password: string, phone: string,
                    registered: Result<()>, loginOutcome: Result<(AuthTokens, User)>) returns (r: Result<()>)
      modifies this
      ensures !loading
      ensures registered.Err? ==>
        && calls == old(calls) + [RegisterCall(name, email, password, phone)]
        && r == Err(registered.message) && error == Some(registered.message)
        && tokens == old(tokens) && user == old(user)
        && storedTokens == old(storedTokens) && storedUser == old(storedUser) && cookies == old(cookies)
      ensures registered.Ok? ==>
        && calls == old(calls) + [RegisterCall(name, email, password, phone), LoginCall(email, password)]
        && (r.Ok? <==> loginOutcome.Ok?)
      ensures registered.Ok? && loginOutcome.Ok? ==>
        var (t, u) := loginOutcome.value;
        && tokens == Some(t) && user == Some(u) && error == None
        && storedTokens == Some(Serialized(t)) && storedUser == Some(Serialized(u))
        && cookies == (if hasDocument then old(cookies) + [TokenCookie(Some(t))] else old(cookies))
      ensures registered.Ok? && loginOutcome.Err? ==>
        && r == Err(loginOutcome.message) && error == Some(loginOutcome.message)
        && tokens == old(tokens) && user == old(user)
        && storedTokens == old(storedTokens) && storedUser == old(storedUser) && cookies == old(cookies)
    {
      error := None;
      loading := true;
      calls := calls + [RegisterCall(name, email, password, phone)];
      if registered.Err? {
        error := Some(registered.message);
        r := Err(registered.message);
      } else {
        r := Login(email, password, loginOutcome);
        if r.Err? {
          error := Some(r.message);
        }
      }
      loading := false;
    }

    /** `logout()`: the logout request when there is an access token (`failure` is the message
        it rejects with, if it does), and in every case the session, both storage keys and
        the cookie are cleared. */
    method Logout(failure: Option<string>) returns (r: Result<()>)
      modifies this
      ensures var requested := old(tokens).Some? && old(tokens).value.accessToken != "";
        && calls == (if requested then old(calls) + [LogoutCall(old(tokens).value.accessToken)] else old(calls))
        && r == (if requested && failure.Some? then Err(failure.value) else Ok(()))
      ensures tokens == None && user == None && !IsAuthenticated()
      ensures storedTokens == None && storedUser == None
      ensures cookies == if hasDocument then old(cookies) + [TokenCookie(None)] else old(cookies)
      ensures loading == old(loading) && error == old(error)
    {
      r := Ok(());
      if tokens.Some? && tokens.value.accessToken != "" {
        calls := calls + [LogoutCall(tokens.value.accessToken)];
        if failure.Some? {
          r := Err(failure.value);
        }
      }
      tokens := None;
      user := None;
      storedTokens := None;
      storedUser := None;
      WriteTokenCookie(None);
    }
  }
}
