/**
 * The Spotify sign-in flow of `src/ui/login.py`: the token file with its legacy location,
 * the one-shot local HTTP server that receives the OAuth redirect, and the login window's
 * buttons, status text and timer. The module globals `access_token`, `authorized`,
 * `server_active` and `httpd` are the fields of `AuthState`. The code exchange that
 * `SpotifyOAuth.get_access_token` performs over the network is a parameter: a map from
 * authorisation code to the token dict Spotify returns, a code it lacks being an exchange
 * that raises. The current time is a parameter, in microseconds.
 */
module Login {
  import opened Wrappers
  import opened Json
  import Strings

  const Second := 1000000

  // ---------------------------------------------------------------- token file

  /** A token file on disk: absent, not parseable as JSON, or holding a JSON value. */
  datatype TokenFile = Absent | Corrupt | Stored(content: Value)

  /**
   * The number `token_info.get('expires_at', 0)` compares as, None when that lookup or
   * the comparison with a float raises (the file holds no dict, or the value is no number).
   */
  function ExpiresAt(token: Value): Option<int>
  {
    if !token.Obj? then None
    else
      match Get(token.fields, "expires_at", Int(0))
      case Int(e) => Some(e)
      case Bool(b) => Some(if b then 1 else 0)
      case _ => None
  }

  /** What `load_token` returns and the two token files after it. */
  datatype LoadOutcome = LoadOutcome(token: Option<Value>, tokenFile: TokenFile, legacyFile: TokenFile)

  /**
   * `load_token`: with no token file the legacy `data/token.json` is moved to the token
   * path and returned without an expiry check; a stored token is returned unless the
   * current time is past `expires_at`; every failure gives None.
   */
  function LoadTokenStep(tokenFile: TokenFile, legacyFile: TokenFile, now: int): LoadOutcome
  {
    if tokenFile.Absent? then
      if legacyFile.Stored? then LoadOutcome(Some(legacyFile.content), Stored(legacyFile.content), Absent)
      else LoadOutcome(None, tokenFile, legacyFile)
    else if tokenFile.Corrupt? then LoadOutcome(None, tokenFile, legacyFile)
    else
      match ExpiresAt(tokenFile.content)
      case None => LoadOutcome(None, tokenFile, legacyFile)
      case Some(e) => LoadOutcome(if now > e * Second then None else Some(tokenFile.content), tokenFile, legacyFile)
  }

  /**
   * With neither file there is no token; a token without `expires_at` counts as expiring
   * at 0; a legacy token is re-saved at the token path, deleted and returned as it is;
   * reading the token path never changes either file; a token comes back only from a
   * file that holds it.
   */
  lemma LoadTokenMeaning(tokenFile: TokenFile, legacyFile: TokenFile, now: int, fields: map<string, Value>)
    ensures LoadTokenStep(Absent, Absent, now) == LoadOutcome(None, Absent, Absent)
    ensures "expires_at" !in fields ==>
      (LoadTokenStep(Stored(Obj(fields)), legacyFile, now).token.Some? <==> now <= 0)
    ensures tokenFile.Absent? && legacyFile.Stored? ==>
      LoadTokenStep(tokenFile, legacyFile, now) == LoadOutcome(Some(legacyFile.content), Stored(legacyFile.content), Absent)
    ensures !tokenFile.Absent? ==>
      LoadTokenStep(tokenFile, legacyFile, now).tokenFile == tokenFile && LoadTokenStep(tokenFile, legacyFile, now).legacyFile == legacyFile
    ensures var r := LoadTokenStep(tokenFile, legacyFile, now).token;
      r.Some? ==> (tokenFile == Stored(r.value) || (tokenFile.Absent? && legacyFile == Stored(r.value)))
  {
  }

  /**
   * A token saved at the token path loads back unchanged exactly while the current time
   * has not passed its `expires_at`, whatever the legacy file holds.
   */
  lemma SaveLoadRoundTrip(fields: map<string, Value>, e: int, legacyFile: TokenFile, now: int)
    requires "expires_at" in fields && fields["expires_at"] == Int(e)
    ensures LoadTokenStep(Stored(Obj(fields)), legacyFile, now).token == (if now <= e * Second then Some(Obj(fields)) else None)
  {
  }

  /** After a legacy token has been moved, a second load reads it from the token path. */
  lemma LegacyMovedOnce(legacy: Value, now: int)
    ensures var first := LoadTokenStep(Absent, Stored(legacy), now);
      var second := LoadTokenStep(first.tokenFile, first.legacyFile, now);
      && first.token == Some(legacy)
      && second.legacyFile == Absent
      && (second.token.Some? ==> second.token == Some(legacy))
  {
  }

  class TokenStore {
    /** The file at `TOKEN_PATH`. */
    var tokenFile: TokenFile
    /** The legacy file `data/token.json`. */
    var legacyFile: TokenFile

    constructor(tokenFile: TokenFile, legacyFile: TokenFile)
      ensures this.tokenFile == tokenFile && this.legacyFile == legacyFile
    {
      this.tokenFile := tokenFile;
      this.legacyFile := legacyFile;
    }

    /** `save_token`. */
    method SaveToken(token: Value)
      modifies this`tokenFile
      ensures tokenFile == Stored(token)
    {
      tokenFile := Stored(token);
    }

    /** `load_token`. */
    method LoadToken(now: int) returns (r: Option<Value>)
      modifies this
      ensures LoadOutcome(r, tokenFile, legacyFile) == LoadTokenStep(old(tokenFile), old(legacyFile), now)
    {
      if tokenFile.Absent? {
        if legacyFile.Stored? {
          var token := legacyFile.content;
          SaveToken(token);
          legacyFile := Absent;
          return Some(token);
        }
        return None;
      }
      if tokenFile.Corrupt? {
        return None;
      }
      var token := tokenFile.content;
      var expiresAt := ExpiresAt(token);
      if expiresAt.None? {
        return None;
      }
      if now > expiresAt.value * Second {
        return None;
      }
      return Some(token);
    }
  }

  // ---------------------------------------------------------------- the redirect

  /** The path Spotify redirects the browser to. */
  const CallbackPath := "/login/oauth2/code/spotify"

  /** `urlparse(path).query` for a request path: after the first '?' and before the first '#'. */
  function QueryOf(path: string): (q: string)
    ensures |q| <= |path|
  {
    var beforeFragment := path[..Strings.IndexOf(path, '#')];
    var k := Strings.IndexOf(beforeFragment, '?');
    if k == |beforeFragment| then "" else beforeFragment[k + 1..]
  }

  /**
   * The values `parse_qs` keeps for the name `code`, in order: a field yields one when it
   * has an '=', its name is `code` and its value is not blank. Percent-decoding is not
   * modelled.
   */
  function CodeValues(fields: seq<string>): (r: seq<string>)
    ensures forall i :: 0 <= i < |r| ==> r[i] != ""
    decreases |fields|
  {
    if |fields| == 0 then []
    else
      var f := fields[0];
      var k := Strings.IndexOf(f, '=');
      var rest := CodeValues(fields[1..]);
      if k < |f| && f[..k] == "code" && k + 1 < |f| then [f[k + 1..]] + rest else rest
  }

  /** `params['code'][0]`, None when `'code' not in params`. */
  function FirstCode(path: string): (r: Option<string>)
    ensures r.Some? ==> r.value != ""
  {
    var codes := CodeValues(Strings.Split(QueryOf(path), '&'));
    if |codes| == 0 then None else Some(codes[0])
  }

  /** The status `do_GET` answers with and the token it saves when the exchange succeeds. */
  datatype Reply = Reply(status: int, token: Option<Value>)

  /**
   * `MyHandler.do_GET`: 200 with the exchanged token for a callback path with a code
   * whose exchange gives a dict holding `access_token`; 404 for anything else, an
   * exchange that raises or a token without `access_token` included.
   */
  function Handle(path: string, exchange: map<string, Value>): (r: Reply)
    ensures r.status == 200 || r.status == 404
    ensures r.status == 200 <==> r.token.Some?
    ensures r.status == 200 ==> Strings.StartsWith(path, CallbackPath) && FirstCode(path).Some?
    ensures r.status == 200 ==> FirstCode(path).value in exchange && r.token == Some(exchange[FirstCode(path).value])
    ensures r.token.Some? ==> r.token.value.Obj? && "access_token" in r.token.value.fields
  {
    if Strings.StartsWith(path, CallbackPath) && FirstCode(path).Some? then
      var code := FirstCode(path).value;
      if code in exchange && exchange[code].Obj? && "access_token" in exchange[code].fields then Reply(200, Some(exchange[code]))
      else Reply(404, None)
    else Reply(404, None)
  }

  /** A path without the callback prefix is refused whatever its query. */
  lemma OtherPathsRefused(path: string, exchange: map<string, Value>)
    requires !Strings.StartsWith(path, CallbackPath)
    ensures Handle(path, exchange) == Reply(404, None)
  {
  }

  /** A string without '&' is the first '&'-separated field of itself followed by a field list. */
  lemma {:induction false} SplitFirst(a: string, rest: string)
    requires '&' !in a
    requires rest == "" || rest[0] == '&'
    ensures Strings.Split(a + rest, '&')[0] == a
  {
    if rest == "" {
      assert a + rest == a;
      assert Strings.IndexOf(a, '&') == |a|;
    } else {
      assert a + rest == a + ['&'] + rest[1..];
      Strings.IndexOfAfter(a, '&', rest[1..]);
      assert (a + rest)[..|a|] == a;
    }
  }

  /** A character absent from `s` is found nowhere, so `IndexOf` runs to the end. */
  lemma NotFound(s: string, c: char)
    requires c !in s
    ensures Strings.IndexOf(s, c) == |s|
  {
  }

  /** The callback path has neither a '?' nor a '#'. */
  lemma CallbackPathPlain()
    ensures '?' !in CallbackPath && '#' !in CallbackPath
  {
  }

  /** The query of a path with no '?' before a '?' and no '#' at all is what follows that '?'. */
  lemma QueryAfterMark(p: string, q: string)
    requires '?' !in p && '#' !in p && '#' !in q
    ensures QueryOf(p + ['?'] + q) == q
  {
    var path := p + ['?'] + q;
    NotFound(path, '#');
    assert path[..|path|] == path;
    Strings.IndexOfAfter(p, '?', q);
    assert path[|p| + 1..] == q;
  }

  /** A query whose first field is `code=` and a non-blank code gives that code first. */
  lemma CodeFirst(code: string, rest: string)
    requires code != "" && '&' !in code
    requires rest == "" || rest[0] == '&'
    ensures var codes := CodeValues(Strings.Split("code=" + code + rest, '&')); |codes| > 0 && codes[0] == code
  {
    var field := "code=" + code;
    assert "code=" + code + rest == field + rest;
    SplitFirst(field, rest);
    assert field == "code" + ['='] + code;
    Strings.IndexOfAfter("code", '=', code);
    assert field[..4] == "code";
    assert field[5..] == code;
  }

  /**
   * The redirect Spotify makes, the callback path with `?code=` and a code followed by
   * any further `&` fields, is answered 200 with the token the code exchanges for when
   * that token holds `access_token`, and 404 when the exchange raises.
   */
  lemma CallbackWithCode(code: string, rest: string, exchange: map<string, Value>)
    requires code != "" && '&' !in code && '#' !in code
    requires rest == "" || rest[0] == '&'
    requires '#' !in rest
    ensures var path := CallbackPath + "?code=" + code + rest;
      && FirstCode(path) == Some(code)
      && (code in exchange && exchange[code].Obj? && "access_token" in exchange[code].fields ==> Handle(path, exchange) == Reply(200, Some(exchange[code])))
      && (code !in exchange ==> Handle(path, exchange) == Reply(404, None))
  {
    var query := "code=" + code + rest;
    var path := CallbackPath + ['?'] + query;
    assert CallbackPath + "?code=" + code + rest == path;
    CallbackPathPlain();
    assert '#' !in query;
    QueryAfterMark(CallbackPath, query);
    CodeFirst(code, rest);
    assert path[..|CallbackPath|] == CallbackPath;
  }

  /** A blank code, `?code=` with nothing after it, is dropped by `parse_qs` and refused. */
  lemma BlankCodeRefused(exchange: map<string, Value>)
    ensures Handle(CallbackPath + "?code=", exchange) == Reply(404, None)
  {
    CallbackPathPlain();
    QueryAfterMark(CallbackPath, "code=");
    assert CallbackPath + "?code=" == CallbackPath + ['?'] + "code=";
    BlankQueryNoCode();
  }

  /** The query `code=` holds no code value. */
  lemma BlankQueryNoCode()
    ensures CodeValues(Strings.Split("code=", '&')) == []
  {
    NotFound("code=", '&');
    assert Strings.Split("code=", '&') == ["code="];
    assert Strings.IndexOf("code=", '=') == 4;
    assert ["code="][1..] == [];
  }

  // ---------------------------------------------------------------- the server and the globals

  class AuthState {
    /** `access_token`. */
    var accessToken: Option<Value>
    /** `authorized`. */
    var authorized: bool
    /** `server_active`. */
    var serverActive: bool
    /** `httpd is not None`. */
    var httpdOpen: bool
    /** The server threads `login_spotify` has started. */
    var serverThreads: nat
    /** The times `login_spotify` opened the authorisation URL in the browser. */
    var browserOpens: nat
    const store: TokenStore

    constructor(store: TokenStore)
      ensures this.store == store
      ensures accessToken.None? && !authorized && !serverActive && !httpdOpen
      ensures serverThreads == 0 && browserOpens == 0
    {
      this.store := store;
      accessToken := None;
      authorized := false;
      serverActive := false;
      httpdOpen := false;
      serverThreads := 0;
      browserOpens := 0;
    }

    /**
     * `MyHandler.do_GET`: a successful exchange sets `access_token`, saves the token and
     * sets `authorized`; nothing changes otherwise.
     */
    method DoGet(path: string, exchange: map<string, Value>) returns (status: int)
      modifies this`accessToken, this`authorized, store`tokenFile
      ensures status == Handle(path, exchange).status
      ensures var reply := Handle(path, exchange);
        if reply.token.Some? then
          && accessToken == Some(reply.token.value.fields["access_token"])
          && store.tokenFile == Stored(reply.token.value)
          && authorized
        else
          accessToken == old(accessToken) && store.tokenFile == old(store.tokenFile) && authorized == old(authorized)
    {
      if Strings.StartsWith(path, CallbackPath) {
        var code := FirstCode(path);
        if code.Some? {
          if code.value in exchange {
            var tokenInfo := exchange[code.value];
            if tokenInfo.Obj? && "access_token" in tokenInfo.fields {
              accessToken := Some(tokenInfo.fields["access_token"]);
              store.SaveToken(tokenInfo);
              authorized := true;
              return 200;
            }
          }
        }
      }
      return 404;
    }

    /**
     * The first part of `start_local_server`, up to `handle_request`: nothing when a
     * server is already active; a failed bind (`bindOk` false) leaves it inactive;
     * otherwise the server is open and active. `serving` says the thread goes on to
     * handle a request.
     */
    method StartLocalServer(bindOk: bool) returns (serving: bool)
      modifies this`serverActive, this`httpdOpen
      ensures old(serverActive) ==> !serving && serverActive && httpdOpen == old(httpdOpen)
      ensures !old(serverActive) ==> serving == bindOk && serverActive == bindOk && httpdOpen == bindOk
    {
      if serverActive {
        return false;
      }
      if !bindOk {
        serverActive := false;
        httpdOpen := false;
        return false;
      }
      httpdOpen := true;
      serverActive := true;
      return true;
    }

    /**
     * The rest of `start_local_server`: `handle_request` answers one request when the
     * server is still open (`request` None means it handles none), and the `finally`
     * block leaves the server inactive and closed.
     */
    method FinishLocalServer(request: Option<string>, exchange: map<string, Value>)
      modifies this`accessToken, this`authorized, this`serverActive, this`httpdOpen, store`tokenFile
      ensures !serverActive && !httpdOpen
      ensures var handled := old(httpdOpen) && request.Some? && Handle(request.value, exchange).token.Some?;
        && authorized == (old(authorized) || handled)
        && (handled ==> store.tokenFile == Stored(Handle(request.value, exchange).token.value))
        && (!handled ==> store.tokenFile == old(store.tokenFile) && accessToken == old(accessToken))
    {
      if httpdOpen && request.Some? {
        var _ := DoGet(request.value, exchange);
      }
      serverActive := false;
      httpdOpen := false;
    }

    /** `login_spotify`: clears `authorized`, starts a server thread unless one is active, opens the browser. */
    method LoginSpotify()
      modifies this`authorized, this`serverThreads, this`browserOpens
      ensures !authorized
      ensures serverThreads == old(serverThreads) + (if serverActive then 0 else 1)
      ensures browserOpens == old(browserOpens) + 1
    {
      authorized := false;
      if !serverActive {
        serverThreads := serverThreads + 1;
      }
      browserOpens := browserOpens + 1;
    }
  }

  // ---------------------------------------------------------------- the window

  class LoginWindow {
    const auth: AuthState
    /** `login_in_progress`. */
    var loginInProgress: bool
    /** Whether the login button is enabled. */
    var loginEnabled: bool
    /** Whether the retry button is visible. */
    var retryVisible: bool
    /** Whether `auth_timer` runs. */
    var timerActive: bool
    /** The translation key of the status label's text. */
    var status: string
    /** The `auth_status_changed` signals emitted. */
    var authSignals: seq<bool>
    /** Whether `open_main_window` has been scheduled. */
    var openScheduled: bool
    /** The access token the main window was created with, once it is. */
    var mainWindow: Option<Value>

    constructor(auth: AuthState)
      ensures this.auth == auth
      ensures !loginInProgress && loginEnabled && !retryVisible && !timerActive
      ensures status == "login.welcome" && authSignals == [] && !openScheduled && mainWindow.None?
    {
      this.auth := auth;
      loginInProgress := false;
      loginEnabled := true;
      retryVisible := false;
      timerActive := false;
      status := "login.welcome";
      authSignals := [];
      openScheduled := false;
      mainWindow := None;
    }

    /** `update_ui_texts`, run again on every language change: the status goes back to the welcome text. */
    method UpdateUiTexts()
      modifies this`status
      ensures status == "login.welcome"
    {
      status := "login.welcome";
    }

    /**
     * `on_login_clicked`: ignored while a login is in progress; otherwise marks the login
     * in progress, disables the button, shows retry, waits and starts the timer.
     */
    method OnLoginClicked()
      modifies this`loginInProgress, this`loginEnabled, this`retryVisible, this`status, this`timerActive
      modifies auth`authorized, auth`serverThreads, auth`browserOpens
      ensures old(loginInProgress) ==>
        && loginEnabled == old(loginEnabled) && retryVisible == old(retryVisible) && status == old(status)
        && timerActive == old(timerActive) && loginInProgress
        && auth.authorized == old(auth.authorized) && auth.serverThreads == old(auth.serverThreads)
        && auth.browserOpens == old(auth.browserOpens)
      ensures !old(loginInProgress) ==>
        && loginInProgress && !loginEnabled && retryVisible && status == "login.status_waiting" && timerActive
        && !auth.authorized && auth.browserOpens == old(auth.browserOpens) + 1
        && auth.serverThreads == old(auth.serverThreads) + (if auth.serverActive then 0 else 1)
    {
      if loginInProgress {
        return;
      }
      loginInProgress := true;
      loginEnabled := false;
      retryVisible := true;
      status := "login.status_waiting";
      auth.LoginSpotify();
      timerActive := true;
    }

    /**
     * `on_retry_clicked`: clears `authorized`, closes an active open server, and signs in
     * again with the retrying text and the timer running.
     */
    method OnRetryClicked()
      modifies this`status, this`timerActive
      modifies auth`authorized, auth`serverActive, auth`httpdOpen, auth`serverThreads, auth`browserOpens
      ensures !auth.authorized && status == "login.status_retrying" && timerActive
      ensures old(auth.serverActive) && old(auth.httpdOpen) ==> !auth.serverActive && !auth.httpdOpen && auth.serverThreads == old(auth.serverThreads) + 1
      ensures !(old(auth.serverActive) && old(auth.httpdOpen)) ==>
        auth.serverActive == old(auth.serverActive) && auth.httpdOpen == old(auth.httpdOpen)
        && auth.serverThreads == old(auth.serverThreads) + (if auth.serverActive then 0 else 1)
      ensures auth.browserOpens == old(auth.browserOpens) + 1
    {
      auth.authorized := false;
      if auth.serverActive && auth.httpdOpen {
        auth.httpdOpen := false;
        auth.serverActive := false;
      }
      status := "login.status_retrying";
      auth.LoginSpotify();
      timerActive := true;
    }

    /**
     * `check_auth_status`, on each timer tick: once authorised it emits the signal, which
     * `on_auth_status_changed` answers with the success text and a scheduled opening of
     * the main window, stops the timer and hides retry; a server that finished without
     * authorising during a login re-enables the button and keeps the login in progress.
     */
    method CheckAuthStatus()
      modifies this`authSignals, this`status, this`openScheduled, this`timerActive, this`retryVisible, this`loginEnabled
      ensures auth.authorized ==>
        && authSignals == old(authSignals) + [true] && status == "login.status_success" && openScheduled
        && !timerActive && !retryVisible && loginEnabled == old(loginEnabled)
      ensures !auth.authorized && !auth.serverActive && loginInProgress ==>
        && status == "login.status_incomplete" && loginEnabled
        && authSignals == old(authSignals) && openScheduled == old(openScheduled)
        && timerActive == old(timerActive) && retryVisible == old(retryVisible)
      ensures !auth.authorized && (auth.serverActive || !loginInProgress) ==>
        && status == old(status) && loginEnabled == old(loginEnabled) && authSignals == old(authSignals)
        && openScheduled == old(openScheduled) && timerActive == old(timerActive) && retryVisible == old(retryVisible)
    {
      if auth.authorized {
        authSignals := authSignals + [true];
        OnAuthStatusChanged(true);
        timerActive := false;
        retryVisible := false;
      } else if !auth.serverActive && loginInProgress {
        status := "login.status_incomplete";
        loginEnabled := true;
      }
    }

    /** `on_auth_status_changed`: a true status shows the success text and schedules `open_main_window`. */
    method OnAuthStatusChanged(ok: bool)
      modifies this`status, this`openScheduled
      ensures ok ==> status == "login.status_success" && openScheduled
      ensures !ok ==> status == old(status) && openScheduled == old(openScheduled)
    {
      if ok {
        status := "login.status_success";
        openScheduled := true;
      }
    }

    /**
     * `open_main_window`: a truthy loaded token holding `access_token` creates the main
     * window with it; a missing, expired or empty token re-enables login with the invalid
     * token text; a truthy token without `access_token` raises and re-enables login with
     * the error text.
     */
    method OpenMainWindow(now: int)
      modifies this`mainWindow, this`loginEnabled, this`loginInProgress, this`status, auth.store
      ensures var token := LoadTokenStep(old(auth.store.tokenFile), old(auth.store.legacyFile), now).token;
        && auth.store.tokenFile == LoadTokenStep(old(auth.store.tokenFile), old(auth.store.legacyFile), now).tokenFile
        && auth.store.legacyFile == LoadTokenStep(old(auth.store.tokenFile), old(auth.store.legacyFile), now).legacyFile
        && (if token.Some? && Truthy(token.value) && token.value.Obj? && "access_token" in token.value.fields then
              mainWindow == Some(token.value.fields["access_token"]) && loginEnabled == old(loginEnabled)
              && loginInProgress == old(loginInProgress) && status == old(status)
            else
              && mainWindow == old(mainWindow) && loginEnabled && !loginInProgress
              && status == if token.Some? && Truthy(token.value) then "login.status_error" else "login.status_invalid_token")
    {
      var token := auth.store.LoadToken(now);
      if token.Some? && Truthy(token.value) {
        if token.value.Obj? && "access_token" in token.value.fields {
          mainWindow := Some(token.value.fields["access_token"]);
        } else {
          loginEnabled := true;
          loginInProgress := false;
          status := "login.status_error";
        }
      } else {
        loginEnabled := true;
        loginInProgress := false;
        status := "login.status_invalid_token";
      }
    }
  }
}
