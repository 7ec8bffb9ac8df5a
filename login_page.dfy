/**
 * The login form's submit handler: try the hosted sign-in, fall back to
 * the mock sign-in, and on success write the session cookie and go to the
 * admin area. Also the cookie it writes, and how the gate reads it back.
 */
module LoginPage {
  import opened Common
  import opened Strings
  import MockData
  import Middleware

  const AdminPath: string := "/admin"
  const FallbackError: string := "Failed to login"

  /** `sb-access-token=<token>; path=/; max-age=3600`: a site-wide cookie for one hour. */
  function SessionCookie(token: string): (c: string)
    ensures Middleware.TokenCookie + "=" + token + ";" <= c
    ensures c[|Middleware.TokenCookie| + |token| + 2..] == " path=/; max-age=3600"
  {
    assert Middleware.TokenCookie + "=" + token + "; path=/; max-age=3600"
        == (Middleware.TokenCookie + "=" + token + ";") + " path=/; max-age=3600";
    Middleware.TokenCookie + "=" + token + "; path=/; max-age=3600"
  }

  /** The cookie the admin layout's logout writes: an empty token that expires at once. */
  const LogoutCookie: string := "sb-access-token=; path=/; max-age=0"

  /**
   * A cookie assignment as the browser stores it: the name before the first
   * `=` and the value up to the first `;`. Attributes and expiry are not
   * modelled.
   */
  function ApplyCookie(jar: Middleware.CookieJar, assignment: string): Middleware.CookieJar
  {
    var pair := Split(assignment, ';')[0];
    var name := Split(pair, '=')[0];
    jar[name := if |name| < |pair| then pair[|name| + 1..] else ""]
  }

  /** What the hosted `signInWithPassword` did: threw, or returned an error and/or a session. */
  datatype RemoteSignIn =
    | RemoteThrew
    | RemoteReturned(error: Option<string>, session: Option<MockData.Session>)

  /** `!error && data.session`. */
  predicate RemoteSucceeded(r: RemoteSignIn)
  {
    r.RemoteReturned? && r.error.None? && r.session.Some?
  }

  datatype Outcome = SignedIn(token: string) | Failed(message: string)

  /** The outcome of one submit: the hosted session if there is one, else the mock's verdict. */
  function LoginOutcome(remote: RemoteSignIn, email: string, password: string): (o: Outcome)
    ensures RemoteSucceeded(remote) ==> o == SignedIn(remote.session.value.access_token)
    ensures !RemoteSucceeded(remote) ==>
      (o.SignedIn? <==> email == MockData.MockEmail && password == MockData.MockPassword)
    ensures !RemoteSucceeded(remote) && o.SignedIn? ==> o.token == MockData.MockToken
    ensures o.Failed? ==> o.message == MockData.InvalidCredentials
  {
    if RemoteSucceeded(remote) then SignedIn(remote.session.value.access_token)
    else
      var r := MockData.SignInResponse(email, password);
      if r.success && r.session.Some? then SignedIn(r.session.value.access_token)
      else Failed(MockData.InvalidCredentials)
  }

  datatype StateUpdate = Loading(on: bool) | ErrorText(message: string)

  datatype RouterCall = Push(path: string) | Refresh

  class LoginForm {
    var loading: bool
    var error: string
    /** The `setLoading` / `setError` calls, in order. */
    var stateUpdates: seq<StateUpdate>
    /** The assignments to `document.cookie`, in order. */
    var cookieWrites: seq<string>
    /** The `router.push` / `router.refresh` calls, in order. */
    var routerCalls: seq<RouterCall>

    constructor ()
      ensures !loading && error == ""
      ensures stateUpdates == [] && cookieWrites == [] && routerCalls == []
    {
      loading, error := false, "";
      stateUpdates, cookieWrites, routerCalls := [], [], [];
    }

    method SetLoading(on: bool)
      modifies this`loading, this`stateUpdates
      ensures loading == on && stateUpdates == old(stateUpdates) + [Loading(on)]
    {
      loading := on;
      stateUpdates := stateUpdates + [Loading(on)];
    }

    method SetError(message: string)
      modifies this`error, this`stateUpdates
      ensures error == message && stateUpdates == old(stateUpdates) + [ErrorText(message)]
    {
      error := message;
      stateUpdates := stateUpdates + [ErrorText(message)];
    }

    /** Write the session cookie and go to the admin area. */
    method EnterAdmin(token: string)
      modifies this`cookieWrites, this`routerCalls
      ensures cookieWrites == old(cookieWrites) + [SessionCookie(token)]
      ensures routerCalls == old(routerCalls) + [Push(AdminPath), Refresh]
    {
      cookieWrites := cookieWrites + [SessionCookie(token)];
      routerCalls := routerCalls + [Push(AdminPath), Refresh];
    }

    /**
     * `handleLogin`. The mock is asked only when the hosted sign-in gave no
     * session; a failure shows the mock's message, never the hosted one, and
     * every exit turns loading off again.
     */
    method HandleLogin(email: string, password: string, remote: RemoteSignIn, store: MockData.MockStore)
      modifies this, store`authMarker
      ensures !loading
      ensures store.authMarker ==
        if !RemoteSucceeded(remote) && MockData.SignInResponse(email, password).success && store.isBrowser
        then Some(MockData.AuthenticatedMarker) else old(store.authMarker)
      ensures LoginOutcome(remote, email, password).SignedIn? ==>
        var t := LoginOutcome(remote, email, password).token;
        && cookieWrites == old(cookieWrites) + [SessionCookie(t)]
        && routerCalls == old(routerCalls) + [Push(AdminPath), Refresh]
        && stateUpdates == old(stateUpdates) + [Loading(true), ErrorText(""), Loading(false)]
        && error == ""
      ensures LoginOutcome(remote, email, password).Failed? ==>
        var m := LoginOutcome(remote, email, password).message;
        && cookieWrites == old(cookieWrites) && routerCalls == old(routerCalls)
        && stateUpdates == old(stateUpdates) + [Loading(true), ErrorText(""), ErrorText(m), Loading(false)]
        && error == m
    {
      SetLoading(true);
      SetError("");
      if RemoteSucceeded(remote) {
        EnterAdmin(remote.session.value.access_token);
        SetLoading(false);
        return;
      }
      var result := store.SignIn(email, password);
      if result.success && result.session.Some? {
        EnterAdmin(result.session.value.access_token);
      } else {
        // `throw new Error(result.error || 'Invalid credentials')`, caught as `err.message || 'Failed to login'`
        var thrown := if result.error.Some? && result.error.value != "" then result.error.value
                      else MockData.InvalidCredentials;
        SetError(if thrown != "" then thrown else FallbackError);
      }
      SetLoading(false);
    }
  }

  /** A `name=value; attributes` assignment stores `value` under `name`. */
  lemma {:induction false} ApplyCookieStores(jar: Middleware.CookieJar, name: string, value: string, attributes: string)
    requires ';' !in name && '=' !in name && ';' !in value
    ensures ApplyCookie(jar, name + "=" + value + ";" + attributes) == jar[name := value]
  {
    var pair := name + ['='] + value;
    assert name + "=" + value + ";" + attributes == pair + [';'] + attributes;
    SplitConcat(pair, attributes, ';');
    assert ';' !in pair by {
      forall k | 0 <= k < |pair| ensures pair[k] != ';' {
        if k < |name| { assert pair[k] == name[k]; }
        else if k > |name| { assert pair[k] == value[k - |name| - 1]; }
      }
    }
    SplitNoSeparator(pair, ';');
    SplitConcat(name, value, '=');
    SplitNoSeparator(name, '=');
    assert pair[|name| + 1..] == value;
  }

  /** The gate's cookie name has neither `;` nor `=`. */
  lemma TokenCookieIsPlain()
    ensures ';' !in Middleware.TokenCookie && '=' !in Middleware.TokenCookie
  {
  }

  /** The session cookie stores exactly the token under the gate's cookie name. */
  lemma SessionCookieStoresToken(jar: Middleware.CookieJar, token: string)
    requires ';' !in token
    ensures ApplyCookie(jar, SessionCookie(token)) == jar[Middleware.TokenCookie := token]
  {
    TokenCookieIsPlain();
    assert SessionCookie(token) == Middleware.TokenCookie + "=" + token + ";" + " path=/; max-age=3600";
    ApplyCookieStores(jar, Middleware.TokenCookie, token, " path=/; max-age=3600");
  }

  /** A successful login with a non-empty token lets every later admin request through the gate. */
  lemma SignedInPassesGate(jar: Middleware.CookieJar, token: string, pathname: string)
    requires token != "" && ';' !in token
    ensures Middleware.Handle(pathname, ApplyCookie(jar, SessionCookie(token))) == Middleware.Next
  {
    SessionCookieStoresToken(jar, token);
  }

  /** In particular the mock login does. */
  lemma MockLoginPassesGate(jar: Middleware.CookieJar, pathname: string)
    ensures Middleware.Handle(pathname, ApplyCookie(jar, SessionCookie(MockData.MockToken))) == Middleware.Next
  {
    SignedInPassesGate(jar, MockData.MockToken, pathname);
  }

  /** After logout the cookie holds an empty token, so the gate redirects again. */
  lemma LogoutCookieRedirects(jar: Middleware.CookieJar)
    ensures Middleware.Handle(AdminPath, ApplyCookie(jar, LogoutCookie)) == Middleware.Redirect(Middleware.LoginPath)
  {
    TokenCookieIsPlain();
    assert LogoutCookie == Middleware.TokenCookie + "=" + "" + ";" + " path=/; max-age=0";
    ApplyCookieStores(jar, Middleware.TokenCookie, "", " path=/; max-age=0");
  }
}
