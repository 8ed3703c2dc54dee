/** The cookie-session lifecycle of `sessions.py`: the expiry check over a
    cookie table, loading, saving and deleting the cookie file, and the
    login sequence of `InstagramSession`. The network is an oracle (the
    `Exchange` a caller supplies), the cookie file is an `Option<Jar>` and
    the clock is an integer. */
module Sessions {
  import opened Wrappers
  import opened Text

  /** A stored cookie: its value and its `expires` timestamp (None for a
      session cookie). */
  datatype Cookie = Cookie(value: string, expires: Option<int>)

  /** The table `RequestsCookieJar._cookies`: domain -> path -> name -> cookie. */
  type PathTable = map<string, Cookie>
  type SiteTable = map<string, PathTable>
  type Jar = map<string, SiteTable>

  /** The argument of `_check_expirations`: a cookie table, or an object
      without `items()`. */
  datatype CookieArg = Table(jar: Jar) | NotATable

  /** `time_now >= cookie.expires`; a cookie without an expiry makes the
      comparison raise TypeError, which is ignored. */
  predicate IsExpired(c: Cookie, now: int)
  {
    c.expires.Some? && now >= c.expires.value
  }

  predicate PathHasExpired(t: PathTable, now: int)
  {
    exists name :: name in t && IsExpired(t[name], now)
  }

  predicate SiteHasExpired(t: SiteTable, now: int)
  {
    exists path :: path in t && PathHasExpired(t[path], now)
  }

  /** Some cookie anywhere in the table has expired. */
  predicate HasExpired(jar: Jar, now: int)
  {
    exists site :: site in jar && SiteHasExpired(jar[site], now)
  }

  /** `UserSession._check_expirations(cookies)`: walks every site, path and
      cookie, collecting the expired ones, and answers whether it found any.
      The AttributeError branch returns None. The order in which Python
      iterates the dictionaries is not modelled: the loops take the keys in
      any order. */
  method CheckExpirations(cookies: CookieArg, now: int) returns (r: Option<bool>)
    ensures cookies.NotATable? ==> r == None
    ensures cookies.Table? ==> r == Some(HasExpired(cookies.jar, now))
  {
    if cookies.NotATable? {
      return None;
    }
    var jar := cookies.jar;
    var expired: seq<(string, Cookie)> := [];
    var sites := jar.Keys;
    while sites != {}
      invariant sites <= jar.Keys
      invariant forall e :: e in expired ==> IsExpired(e.1, now)
      invariant expired != [] <==> exists s :: s in jar && s !in sites && SiteHasExpired(jar[s], now)
      decreases sites
    {
      var site :| site in sites;
      var siteValue := jar[site];
      ghost var earlierSites := expired != [];
      var paths := siteValue.Keys;
      while paths != {}
        invariant paths <= siteValue.Keys
        invariant forall e :: e in expired ==> IsExpired(e.1, now)
        invariant expired != [] <==>
          earlierSites || exists p :: p in siteValue && p !in paths && PathHasExpired(siteValue[p], now)
        decreases paths
      {
        var path :| path in paths;
        var pathValue := siteValue[path];
        ghost var earlierPaths := expired != [];
        var names := pathValue.Keys;
        while names != {}
          invariant names <= pathValue.Keys
          invariant forall e :: e in expired ==> IsExpired(e.1, now)
          invariant expired != [] <==>
            earlierPaths || exists n :: n in pathValue && n !in names && IsExpired(pathValue[n], now)
          decreases names
        {
          var cookie :| cookie in names;
          var cookieValue := pathValue[cookie];
          if cookieValue.expires.Some? && now >= cookieValue.expires.value {
            expired := expired + [(cookie, cookieValue)];
          }
          names := names - {cookie};
        }
        assert expired != [] <==> earlierPaths || PathHasExpired(pathValue, now);
        paths := paths - {path};
      }
      assert expired != [] <==> earlierSites || SiteHasExpired(siteValue, now);
      sites := sites - {site};
    }
    return Some(expired != []);
  }

  /** The session's jar and the cookie file ("cookies"), None when absent. */
  datatype Store = Store(jar: Jar, file: Option<Jar>)

  /** `_save_cookies`: the file is overwritten with the session's jar. */
  function Save(s: Store): Store
  {
    s.(file := Some(s.jar))
  }

  /** `clear_cookies`: `os.remove` deletes the file, or raises
      FileNotFoundError when there is none. */
  function Clear(s: Store): (Result<()>, Store)
  {
    (if s.file.None? then Err(FileNotFoundError) else Ok(()), s.(file := None))
  }

  /** `_load_cookies(fresh)`: whether a stored jar was installed, and the
      store afterwards. */
  function Load(s: Store, isFresh: bool, now: int): (bool, Store)
  {
    if s.file.None? then (false, s)
    else if isFresh then (false, Clear(s).1)
    else if s.file.value == map[] then (false, s)
    else if HasExpired(s.file.value, now) then (false, s)
    else (true, s.(jar := s.file.value))
  }

  /** A load succeeds exactly when a non-fresh load finds a non-empty stored
      jar with no expired cookie; it then replaces the session jar with the
      stored one wholesale, and otherwise leaves the session jar as it was.
      The file is only ever touched by deleting it, and only under `fresh`. */
  lemma LoadOutcome(s: Store, isFresh: bool, now: int)
    ensures var (loaded, t) := Load(s, isFresh, now);
      (loaded <==> s.file.Some? && !isFresh && s.file.value != map[] && !HasExpired(s.file.value, now)) &&
      t.jar == (if loaded then s.file.value else s.jar) &&
      t.file == (if s.file.Some? && isFresh then None else s.file)
  {
  }

  /** A jar written by `_save_cookies` is installed unchanged by a later
      non-fresh load, as long as it is non-empty and unexpired by then. */
  lemma SaveLoadRoundTrip(s: Store, now: int)
    requires s.jar != map[] && !HasExpired(s.jar, now)
    ensures Load(Save(s), false, now) == (true, Save(s))
    ensures Load(Save(s), false, now).1.jar == s.jar
  {
  }

  /** Loading right after a successful load changes nothing and succeeds
      again. */
  lemma LoadIdempotent(s: Store, now: int)
    requires Load(s, false, now).0
    ensures Load(Load(s, false, now).1, false, now) == Load(s, false, now)
  {
  }

  /** `#PWD_INSTAGRAM_BROWSER:0:<timestamp>:<password>`, the `enc_password`
      field. */
  function EncPassword(stamp: int, password: string): string
  {
    "#PWD_INSTAGRAM_BROWSER:0:" + IntToString(stamp) + ":" + password
  }

  /** Split on ':', the field is the tag, the version 0, the timestamp and
      then the password, which may itself contain ':'. */
  lemma EncPasswordFields(stamp: int, password: string)
    ensures Split(EncPassword(stamp, password), {':'}) ==
      ["#PWD_INSTAGRAM_BROWSER", "0", IntToString(stamp)] + Split(password, {':'})
    ensures Join(Split(EncPassword(stamp, password), {':'})[3..], ':') == password
  {
    var t := IntToString(stamp);
    IntToStringAvoids(stamp, {':'});
    assert EncPassword(stamp, password) ==
      "#PWD_INSTAGRAM_BROWSER" + [':'] + ("0" + [':'] + (t + [':'] + password));
    SplitAfterPiece(t, ':', password, {':'});
    SplitAfterPiece("0", ':', t + [':'] + password, {':'});
    SplitAfterPiece("#PWD_INSTAGRAM_BROWSER", ':', "0" + [':'] + (t + [':'] + password), {':'});
    JoinSplit(password, ':');
  }

  /** The field determines both the timestamp and the password. */
  lemma EncPasswordInjective(stamp: int, password: string, stamp': int, password': string)
    requires EncPassword(stamp, password) == EncPassword(stamp', password')
    ensures stamp == stamp' && password == password'
  {
    EncPasswordFields(stamp, password);
    EncPasswordFields(stamp', password');
    var parts := Split(EncPassword(stamp, password), {':'});
    assert parts[2] == IntToString(stamp) == IntToString(stamp');
    IntToStringInjective(stamp, stamp');
  }

  /** A value of the login form: text, or the empty `queryParams` dict. */
  datatype Field = Str(s: string) | EmptyMap

  /** The requests the session sends. */
  datatype Request = Get(url: string) | Post(url: string, headers: map<string, string>, payload: map<string, Field>)

  /** What the server does during one login attempt: the cookies of the
      home-page response, the session's jar once that response is merged
      into it, the status of the login POST and the jar after it. */
  datatype Exchange = Exchange(homeCookies: map<string, string>, jarAfterGet: Jar, status: int, jarAfterPost: Jar)

  /** `InstagramSession`, with the `urls.json` entries and the environment
      values (`USER-AGENT`, `INSTA_USERNAME`, `INSTA_PASSWORD`) given to the
      constructor. */
  class InstagramSession {
    var cookies: Jar
    var file: Option<Jar>
    var headers: map<string, string>
    var payload: map<string, Field>
    ghost var sent: seq<Request>
    const home: string
    const loginUrl: string
    const password: string

    /** `InstagramSession()`: an empty jar, the headers without a token and
        the form without the password. `file` is what is on disk. */
    constructor (home: string, loginUrl: string, userAgent: string, username: string, password: string, file: Option<Jar>)
      ensures this.home == home && this.loginUrl == loginUrl && this.password == password
      ensures cookies == map[] && this.file == file && sent == []
      ensures headers == map["referer" := home, "user-agent" := userAgent,
                             "x-requested-with" := "XMLHttpRequest", "x-csrftoken" := ""]
      ensures payload == map["username" := Str(username), "password" := Str(""),
                             "queryParams" := EmptyMap, "optIntoOneTap" := Str("false")]
    {
      this.home := home;
      this.loginUrl := loginUrl;
      this.password := password;
      cookies := map[];
      this.file := file;
      sent := [];
      headers := map["referer" := home, "user-agent" := userAgent,
                     "x-requested-with" := "XMLHttpRequest", "x-csrftoken" := ""];
      payload := map["username" := Str(username), "password" := Str(""),
                     "queryParams" := EmptyMap, "optIntoOneTap" := Str("false")];
    }

    /** `_save_cookies()`. */
    method SaveCookies()
      modifies this`file
      ensures Store(cookies, file) == Save(Store(cookies, old(file)))
    {
      file := Some(cookies);
    }

    /** `clear_cookies()`; the error is FileNotFoundError. */
    method ClearCookies() returns (r: Result<()>)
      modifies this`file
      ensures (r, Store(cookies, file)) == Clear(Store(cookies, old(file)))
    {
      if file.None? {
        r := Err(FileNotFoundError);
      } else {
        r := Ok(());
      }
      file := None;
    }

    /** `_load_cookies(fresh)` at time `now`. */
    method LoadCookies(isFresh: bool, now: int) returns (loaded: bool)
      modifies this`cookies, this`file
      ensures (loaded, Store(cookies, file)) == Load(Store(old(cookies), old(file)), isFresh, now)
    {
      if file.None? {
        return false;
      }
      if isFresh {
        var _ := ClearCookies();
        return false;
      }
      var cookie := file.value;
      if cookie == map[] {
        return false;
      }
      var anyExpired := CheckExpirations(Table(cookie), now);
      if anyExpired == Some(true) {
        return false;
      }
      cookies := cookie;
      return true;
    }

    /** `_get_csrf_token(url)`: a GET whose response cookies are `response`
        and after which the session jar is `jarAfter`; KeyError when the
        response sets no `csrftoken`. */
    method GetCsrfToken(url: string, response: map<string, string>, jarAfter: Jar) returns (r: Result<string>)
      modifies this`cookies, this`sent
      ensures sent == old(sent) + [Get(url)] && cookies == jarAfter
      ensures "csrftoken" in response ==> r == Ok(response["csrftoken"])
      ensures "csrftoken" !in response ==> r == Err(KeyError("csrftoken"))
    {
      sent := sent + [Get(url)];
      cookies := jarAfter;
      if "csrftoken" !in response {
        return Err(KeyError("csrftoken"));
      }
      return Ok(response["csrftoken"]);
    }

    /** `_update_csrf_token()`: the home-page token goes under
        `x-csrftoken`; on KeyError the headers are left as they were. */
    method UpdateCsrfToken(ex: Exchange) returns (r: Result<()>)
      modifies this`cookies, this`sent, this`headers
      ensures sent == old(sent) + [Get(home)] && cookies == ex.jarAfterGet
      ensures "csrftoken" in ex.homeCookies ==>
        r == Ok(()) && headers == old(headers)["x-csrftoken" := ex.homeCookies["csrftoken"]]
      ensures "csrftoken" !in ex.homeCookies ==>
        r == Err(KeyError("csrftoken")) && headers == old(headers)
    {
      var token := GetCsrfToken(home, ex.homeCookies, ex.jarAfterGet);
      if token.Err? {
        return Err(token.error);
      }
      headers := headers["x-csrftoken" := token.value];
      return Ok(());
    }

    /** `_update_payload()` with the clock reading `stamp`. */
    method UpdatePayload(stamp: int)
      modifies this`payload
      ensures payload == old(payload)["enc_password" := Str(EncPassword(stamp, password))]
    {
      payload := payload["enc_password" := Str(EncPassword(stamp, password))];
    }

    /** `login(fresh)`: the load is checked at time `now`, the password
        field stamped with `stamp`, and the server behaves as `ex` says. A
        KeyError from the token lookup is the `Err` result. */
    method Login(isFresh: bool, now: int, stamp: int, ex: Exchange) returns (r: Result<bool>)
      modifies this`cookies, this`file, this`sent, this`headers, this`payload
      ensures var (loaded, st) := Load(Store(old(cookies), old(file)), isFresh, now);
        loaded ==>
          r == Ok(true) && Store(cookies, file) == st &&
          sent == old(sent) && headers == old(headers) && payload == old(payload)
      ensures var (loaded, st) := Load(Store(old(cookies), old(file)), isFresh, now);
        !loaded && "csrftoken" !in ex.homeCookies ==>
          r == Err(KeyError("csrftoken")) && cookies == ex.jarAfterGet && file == st.file &&
          sent == old(sent) + [Get(home)] && headers == old(headers) && payload == old(payload)
      ensures var (loaded, st) := Load(Store(old(cookies), old(file)), isFresh, now);
        !loaded && "csrftoken" in ex.homeCookies ==>
          headers == old(headers)["x-csrftoken" := ex.homeCookies["csrftoken"]] &&
          payload == old(payload)["enc_password" := Str(EncPassword(stamp, password))] &&
          sent == old(sent) + [Get(home), Post(loginUrl, headers, payload)] &&
          cookies == ex.jarAfterPost &&
          r == Ok(ex.status == 200) &&
          file == (if ex.status == 200 then Some(ex.jarAfterPost) else st.file)
      ensures isFresh && r != Ok(true) ==> file == None
    {
      var loaded := LoadCookies(isFresh, now);
      if loaded {
        return Ok(true);
      }
      ghost var afterLoad := file;
      var updated := UpdateCsrfToken(ex);
      if updated.Err? {
        return Err(updated.error);
      }
      UpdatePayload(stamp);
      sent := sent + [Post(loginUrl, headers, payload)];
      cookies := ex.jarAfterPost;
      if ex.status == 200 {
        SaveCookies();
        return Ok(true);
      }
      assert file == afterLoad;
      return Ok(false);
    }
  }
}
