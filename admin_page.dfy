/**
 * The admin page's session gate. The browser's `localStorage` is a map from
 * keys to strings; a session is two keys, a flag and the login time, and it
 * lasts 24 hours. The clock and the parsing of the stored time by `new Date`
 * are parameters.
 */
module AdminPage {
  import opened Wrappers
  import opened JsNumber

  const AuthKey := "adminAuthenticated"
  const TimeKey := "adminLoginTime"

  /** Milliseconds in an hour, and the session's lifetime in hours. */
  const HourMs: real := 3600000.0
  const SessionHours: real := 24.0

  type Storage = map<string, string>

  /** `localStorage.getItem(key)`: the stored string, or `null`. */
  function GetItem(storage: Storage, key: string): (r: Option<string>)
    ensures r.Some? <==> key in storage
    ensures r.Some? ==> r.value == storage[key]
  {
    if key in storage then Some(storage[key]) else None
  }

  /** A `string | null` is truthy when it is a non-empty string. */
  predicate Truthy(v: Option<string>)
  {
    v.Some? && v.value != ""
  }

  /** `(now - loginDate.getTime()) / (1000 * 60 * 60)`: NaN when the stored time does not parse. */
  function HoursSince(login: Num, now: int): Num
  {
    match login
    case NaN => NaN
    case Finite(t) => Finite((now as real - t) / HourMs)
  }

  /** `hoursDiff < 24`: false for NaN, as every comparison with NaN is. */
  predicate WithinSession(login: Num, now: int)
  {
    match HoursSince(login, now)
    case NaN => false
    case Finite(h) => h < SessionHours
  }

  /** The 24-hour rule in milliseconds: a parsed login time is live for 86,400,000 ms. */
  lemma WithinSessionInMs(login: Num, now: int)
    ensures WithinSession(login, now) <==> login.Finite? && now as real - login.value < 86400000.0
  {
    if login.Finite? {
      var d := now as real - login.value;
      assert d / HourMs < SessionHours <==> d < SessionHours * HourMs;
    }
  }

  /** How the check on load classifies what is stored. */
  datatype Session =
    | NoSession   // a key is missing or empty: storage is left alone
    | Live        // both keys set and the login is less than 24 hours old
    | Expired     // both keys set, but the login is too old or unparsable

  /**
   * The classification `checkAuth` makes at time `now`, with `dateOf` giving
   * `new Date(s).getTime()` for a stored string `s`.
   */
  function Classify(storage: Storage, now: int, dateOf: string -> Num): (s: Session)
    ensures s.NoSession? <==> !Truthy(GetItem(storage, AuthKey)) || !Truthy(GetItem(storage, TimeKey))
    ensures s.Live? <==>
      && AuthKey in storage && storage[AuthKey] != ""
      && TimeKey in storage && storage[TimeKey] != ""
      && WithinSession(dateOf(storage[TimeKey]), now)
  {
    var authenticated := GetItem(storage, AuthKey);
    var loginTime := GetItem(storage, TimeKey);
    if Truthy(authenticated) && Truthy(loginTime) then
      if WithinSession(dateOf(loginTime.value), now) then Live else Expired
    else NoSession
  }

  /** Both session keys removed, everything else kept. */
  function WithoutSession(storage: Storage): (r: Storage)
    ensures AuthKey !in r && TimeKey !in r
    ensures forall k | k in storage && k != AuthKey && k != TimeKey :: k in r && r[k] == storage[k]
    ensures forall k | k in r :: k in storage
  {
    storage - {AuthKey, TimeKey}
  }

  /** With its keys removed, storage holds no session, whatever the time. */
  lemma NoSessionAfterRemoval(storage: Storage, now: int, dateOf: string -> Num)
    ensures Classify(WithoutSession(storage), now, dateOf) == NoSession
  {
    assert GetItem(WithoutSession(storage), AuthKey) == None;
  }

  /** A login time that does not parse never gives a live session. */
  lemma UnparsableLoginExpires(storage: Storage, now: int, dateOf: string -> Num)
    requires Truthy(GetItem(storage, AuthKey)) && Truthy(GetItem(storage, TimeKey))
    requires dateOf(storage[TimeKey]).NaN?
    ensures Classify(storage, now, dateOf) == Expired
  {
  }

  /** A session live now stays live until 24 hours after the login, and no longer. */
  lemma LiveUntilExpiry(storage: Storage, now: int, later: int, dateOf: string -> Num)
    requires Classify(storage, now, dateOf) == Live
    ensures Classify(storage, later, dateOf) == Live <==>
      (later as real) - dateOf(storage[TimeKey]).value < 86400000.0
  {
    WithinSessionInMs(dateOf(storage[TimeKey]), now);
    WithinSessionInMs(dateOf(storage[TimeKey]), later);
  }

  /** What the page shows. */
  datatype Screen = Spinner | LoginScreen | Dashboard

  class Page {
    var isAuthenticated: bool
    var isLoading: bool
    var storage: Storage

    /** First render: not authenticated, loading, with whatever the browser has stored. */
    constructor (stored: Storage)
      ensures !isAuthenticated && isLoading && storage == stored
    {
      isAuthenticated := false;
      isLoading := true;
      storage := stored;
    }

    /**
     * `checkAuth` at time `now`: a live session authenticates, an expired or
     * unparsable one has both keys removed, a missing one changes nothing;
     * loading ends on every path.
     */
    method CheckAuth(now: int, dateOf: string -> Num)
      modifies this
      ensures !isLoading
      ensures isAuthenticated == (old(isAuthenticated) || Classify(old(storage), now, dateOf) == Live)
      ensures storage == if Classify(old(storage), now, dateOf) == Expired then WithoutSession(old(storage))
        else old(storage)
    {
      var authenticated := GetItem(storage, AuthKey);
      var loginTime := GetItem(storage, TimeKey);
      if Truthy(authenticated) && Truthy(loginTime) {
        var hoursDiff := HoursSince(dateOf(loginTime.value), now);
        if hoursDiff.Finite? && hoursDiff.value < SessionHours {
          isAuthenticated := true;
        } else {
          storage := storage - {AuthKey};
          storage := storage - {TimeKey};
        }
      }
      isLoading := false;
    }

    /** `handleLogin(success)`: the login form's verdict becomes the page's. */
    method HandleLogin(success: bool)
      modifies this
      ensures isAuthenticated == success
      ensures isLoading == old(isLoading) && storage == old(storage)
    {
      isAuthenticated := success;
    }

    /** `handleLogout`: both keys removed and back to the login form. */
    method HandleLogout()
      modifies this
      ensures !isAuthenticated
      ensures storage == WithoutSession(old(storage))
      ensures isLoading == old(isLoading)
    {
      storage := storage - {AuthKey};
      storage := storage - {TimeKey};
      isAuthenticated := false;
    }

    /** The render: a spinner while loading, then the dashboard only for an authenticated admin. */
    function Render(): (s: Screen)
      reads this
      ensures s == Dashboard <==> !isLoading && isAuthenticated
      ensures s == Spinner <==> isLoading
    {
      if isLoading then Spinner
      else if !isAuthenticated then LoginScreen
      else Dashboard
    }
  }

  /**
   * The page from its first render: after the check the dashboard shows exactly
   * when the stored session is live, and a logout followed by a reload shows
   * the login form.
   */
  method LoadPage(stored: Storage, now: int, later: int, dateOf: string -> Num) returns (first: Screen, afterReload: Screen)
    ensures first == Dashboard <==> Classify(stored, now, dateOf) == Live
    ensures first == LoginScreen <==> Classify(stored, now, dateOf) != Live
    ensures afterReload == LoginScreen
  {
    var page := new Page(stored);
    page.CheckAuth(now, dateOf);
    first := page.Render();
    var checked := page.storage;
    page.HandleLogout();
    var reloaded := new Page(page.storage);
    NoSessionAfterRemoval(checked, later, dateOf);
    reloaded.CheckAuth(later, dateOf);
    afterReload := reloaded.Render();
  }
}
