/** The application shell: the session state shared through the user context,
    the one-time session bootstrap that runs when the shell mounts, and the
    view it renders for a path (a loading indicator, or the first route of the
    switch that matches). */
module Session {
  import opened Common

  /** The `user` state: whether the visitor is logged in and the profile
      payload the API returned. */
  datatype User = User(isLoggedIn: bool, data: Data)

  /** `{isLoggedIn: false, data: {}}`: the initial user, and the user after a
      failed session probe. */
  const LoggedOut: User := User(false, map[])

  /** The cookie name whose presence makes the bootstrap probe the API. */
  const SessionMarker: string := "x_access_token"

  /** One call to a state setter of the shell, in the order it was made. */
  datatype Update = UserSet(user: User) | LoadingSet(loading: bool)

  /** The shell's observable state. */
  datatype AppState = AppState(user: User, isLoading: bool)

  const InitialState: AppState := AppState(LoggedOut, true)

  /** The state after one setter call. */
  function Step(s: AppState, u: Update): AppState
  {
    match u
    case UserSet(v) => s.(user := v)
    case LoadingSet(b) => s.(isLoading := b)
  }

  /** The state reached from `s` by applying the setter calls `us` in order. */
  function Replay(s: AppState, us: seq<Update>): AppState
    decreases |us|
  {
    if us == [] then s else Replay(Step(s, us[0]), us[1..])
  }

  /** Replaying a concatenation is replaying its two parts one after the other. */
  lemma {:induction false} ReplayAppend(s: AppState, a: seq<Update>, b: seq<Update>)
    ensures Replay(s, a + b) == Replay(Replay(s, a), b)
    decreases |a|
  {
    if a == [] {
      assert a + b == b;
    } else {
      assert (a + b)[0] == a[0];
      assert (a + b)[1..] == a[1..] + b;
      calc {
        Replay(s, a + b);
        Replay(Step(s, a[0]), a[1..] + b);
        { ReplayAppend(Step(s, a[0]), a[1..], b); }
        Replay(Replay(Step(s, a[0]), a[1..]), b);
      }
    }
  }

  /** Setter calls that only touch `user` never change `isLoading`. */
  lemma {:induction false} UserSetsKeepLoading(s: AppState, us: seq<Update>)
    requires forall i :: 0 <= i < |us| ==> us[i].UserSet?
    ensures Replay(s, us).isLoading == s.isLoading
    decreases |us|
  {
    if us != [] {
      UserSetsKeepLoading(s.(user := us[0].user), us[1..]);
    }
  }

  /** `t` occurs in `s` starting at index `i`. */
  predicate OccursAt(s: string, t: string, i: int)
  {
    0 <= i && i + |t| <= |s| && s[i..i + |t|] == t
  }

  /** `s.includes(t)`: does `t` occur as a contiguous substring of `s`? */
  function Includes(s: string, t: string): bool
    decreases |s|
  {
    |t| <= |s| && (t <= s || Includes(s[1..], t))
  }

  /** `Includes` is the substring test: it holds exactly when some position
      of `s` starts an occurrence of `t`. */
  lemma {:induction false} IncludesIff(s: string, t: string)
    ensures Includes(s, t) <==> exists i :: OccursAt(s, t, i)
    decreases |s|
  {
    if |t| <= |s| {
      assert OccursAt(s, t, 0) <==> t <= s by {
        assert s[0..|t|] == s[..|t|];
      }
      if t <= s {
        assert s[0..|t|] == t;
        assert OccursAt(s, t, 0);
      } else {
        IncludesIff(s[1..], t);
        if Includes(s[1..], t) {
          var i :| OccursAt(s[1..], t, i);
          assert s[i + 1..i + 1 + |t|] == s[1..][i..i + |t|];
          assert OccursAt(s, t, i + 1);
        }
        if exists i :: OccursAt(s, t, i) {
          var i :| OccursAt(s, t, i);
          assert i != 0;
          assert s[1..][i - 1..i - 1 + |t|] == s[i..i + |t|];
          assert OccursAt(s[1..], t, i - 1);
        }
      }
    }
  }

  /** What the session probe (`GET /api/me`) came back with: the `success`
      and `data` fields of a resolved envelope, or a rejection of any kind
      (network error, non-2xx status, a body that cannot be destructured). */
  datatype ProbeOutcome = ProbeResolved(success: bool, data: Data) | ProbeRejected

  /** The setter calls the bootstrap effect makes, in order, for a given cookie
      string and probe outcome (the outcome is not consulted when no probe is
      made). Whatever the branch, the loading flag is set exactly once, to
      false, and only after every update of `user`. */
  function BootstrapUpdates(cookie: string, probe: ProbeOutcome): (r: seq<Update>)
    ensures |r| >= 1 && r[|r| - 1] == LoadingSet(false)
    ensures forall i :: 0 <= i < |r| - 1 ==> r[i].UserSet?
    ensures !Includes(cookie, SessionMarker) ==> r == [LoadingSet(false)]
  {
    if Includes(cookie, SessionMarker) then
      match probe
      case ProbeResolved(success, data) => [UserSet(User(success, data)), LoadingSet(false)]
      case ProbeRejected => [UserSet(LoggedOut), LoadingSet(false)]
    else
      [LoadingSet(false)]
  }

  /** The state the bootstrap leaves behind, starting from `s`: without the
      session cookie the user is untouched; a resolved probe stores exactly
      `{isLoggedIn: success, data}` (the data is kept even when `success` is
      false); a rejected probe logs the user out. Loading always ends. */
  lemma BootstrapOutcome(s: AppState, cookie: string, probe: ProbeOutcome)
    ensures !Includes(cookie, SessionMarker) ==> Replay(s, BootstrapUpdates(cookie, probe)) == s.(isLoading := false)
    ensures Includes(cookie, SessionMarker) && probe.ProbeResolved? ==>
              Replay(s, BootstrapUpdates(cookie, probe)) == AppState(User(probe.success, probe.data), false)
    ensures Includes(cookie, SessionMarker) && probe.ProbeRejected? ==>
              Replay(s, BootstrapUpdates(cookie, probe)) == AppState(LoggedOut, false)
  {
    var r := BootstrapUpdates(cookie, probe);
    if Includes(cookie, SessionMarker) {
      assert r[1..] == [r[1]];
      assert r[1..][1..] == [];
      calc {
        Replay(s, r);
        Replay(Step(s, r[0]), [r[1]]);
        Replay(Step(Step(s, r[0]), r[1]), []);
        AppState(r[0].user, false);
      }
    } else {
      assert r[1..] == [];
    }
  }

  /** While the bootstrap is in progress (every proper prefix of its setter
      calls has been applied to a loading state), the shell is still loading
      and therefore renders only the loading indicator, whatever the path. */
  lemma LoaderUntilResolved(s: AppState, cookie: string, probe: ProbeOutcome, k: nat, path: string)
    requires s.isLoading
    requires k < |BootstrapUpdates(cookie, probe)|
    ensures Replay(s, BootstrapUpdates(cookie, probe)[..k]).isLoading
    ensures Render(Replay(s, BootstrapUpdates(cookie, probe)[..k]).isLoading, path) == Loader
  {
  }

  /** The views the shell can render. */
  datatype View = Loader | Profile | Login | Registration | Page404

  /** A route of the switch: `exact` routes match only their path; the others
      match their path and every path that extends it at a '/'; a route
      without a path matches everything. */
  datatype Route = Route(exact: bool, path: Option<string>, view: View)

  /** `path` is `prefix` or lies below it, at a segment boundary. */
  predicate AtOrUnder(path: string, prefix: string)
  {
    path == prefix || (prefix <= path && |path| > |prefix| && path[|prefix|] == '/')
  }

  predicate Matches(r: Route, path: string)
  {
    match r.path
    case None => true
    case Some(p) => if r.exact then path == p else AtOrUnder(path, p)
  }

  /** The switch of the shell, in declaration order. */
  const Routes: seq<Route> := [
    Route(true, Some("/"), Profile),
    Route(false, Some("/profile"), Profile),
    Route(true, Some("/"), Login),
    Route(false, Some("/login"), Login),
    Route(false, Some("/register"), Registration),
    Route(false, None, Page404)
  ]

  /** The index of the route a switch renders: the first one that matches. */
  function FirstMatch(routes: seq<Route>, path: string): (r: Option<nat>)
    ensures r.Some? ==> r.value < |routes| && Matches(routes[r.value], path)
    ensures r.Some? ==> forall j :: 0 <= j < r.value ==> !Matches(routes[j], path)
    ensures r.None? ==> forall j :: 0 <= j < |routes| ==> !Matches(routes[j], path)
  {
    if routes == [] then None
    else if Matches(routes[0], path) then Some(0)
    else
      match FirstMatch(routes[1..], path)
      case None => None
      case Some(k) => Some(k + 1)
  }

  /** The view the shell renders: only the loader while loading, otherwise
      the view of the first matching route. The choice consults neither the
      user nor anything else besides the loading flag and the path. */
  function Render(isLoading: bool, path: string): (v: View)
    ensures isLoading ==> v == Loader
    ensures !isLoading ==> v != Loader && FirstMatch(Routes, path).Some? && v == Routes[FirstMatch(Routes, path).value].view
  {
    if isLoading then Loader
    else
      assert Matches(Routes[|Routes| - 1], path);
      match FirstMatch(Routes, path)
      case Some(i) => Routes[i].view
      case None => Page404
  }

  /** A route is shadowed when an earlier route matches every path it
      matches: a switch can then never select it. */
  lemma Shadowed(routes: seq<Route>, i: nat, j: nat, path: string)
    requires i < j < |routes|
    requires Matches(routes[j], path) ==> Matches(routes[i], path)
    ensures FirstMatch(routes, path) != Some(j)
  {
  }

  /** The second exact '/' route (the Login one) is never selected: the
      Profile route before it matches exactly the same paths. */
  lemma LoginRootRouteUnreachable(path: string)
    ensures FirstMatch(Routes, path) != Some(2)
  {
  }

  /** Once loaded, the route table behaves as this decision list: the root
      and paths at or under '/profile' show the profile, then '/login',
      then '/register', and everything else the not-found page. */
  lemma RenderTable(path: string)
    ensures Render(false, path) ==
      if path == "/" || AtOrUnder(path, "/profile") then Profile
      else if AtOrUnder(path, "/login") then Login
      else if AtOrUnder(path, "/register") then Registration
      else Page404
  {
    assert Matches(Routes[0], path) <==> path == "/";
    assert Matches(Routes[1], path) <==> AtOrUnder(path, "/profile");
    assert Matches(Routes[2], path) <==> path == "/";
    assert Matches(Routes[3], path) <==> AtOrUnder(path, "/login");
    assert Matches(Routes[4], path) <==> AtOrUnder(path, "/register");
    assert Matches(Routes[5], path);
  }

  /** The shell component: the `user` and `isLoading` state, and the history
      of setter calls made on it. Its state is always the replay of that
      history from the initial state. */
  class App {
    var user: User
    var isLoading: bool
    ghost var updates: seq<Update>

    ghost predicate Valid()
      reads this
    {
      AppState(user, isLoading) == Replay(InitialState, updates)
    }

    /** Mounting: `user` is logged out with empty data and the shell is loading. */
    constructor ()
      ensures Valid()
      ensures user == LoggedOut && isLoading && updates == []
    {
      user := LoggedOut;
      isLoading := true;
      updates := [];
    }

    /** `setUser`, shared with the pages through the user context. */
    method SetUser(u: User)
      requires Valid()
      modifies this
      ensures Valid()
      ensures user == u && isLoading == old(isLoading)
      ensures updates == old(updates) + [UserSet(u)]
    {
      ReplayAppend(InitialState, updates, [UserSet(u)]);
      user := u;
      updates := updates + [UserSet(u)];
    }

    method SetIsLoading(b: bool)
      requires Valid()
      modifies this
      ensures Valid()
      ensures isLoading == b && user == old(user)
      ensures updates == old(updates) + [LoadingSet(b)]
    {
      ReplayAppend(InitialState, updates, [LoadingSet(b)]);
      isLoading := b;
      updates := updates + [LoadingSet(b)];
    }

    /** The mount effect: probe the API only when the session cookie is
        present, store what the probe says about the user, then stop loading. */
    method Bootstrap(cookie: string, probe: ProbeOutcome)
      requires Valid() && isLoading
      modifies this
      ensures Valid()
      ensures updates == old(updates) + BootstrapUpdates(cookie, probe)
      ensures !isLoading
      ensures !Includes(cookie, SessionMarker) ==> user == old(user)
      ensures Includes(cookie, SessionMarker) && probe.ProbeResolved? ==>
                user == User(probe.success, probe.data)
      ensures Includes(cookie, SessionMarker) && probe.ProbeRejected? ==> user == LoggedOut
    {
      if Includes(cookie, SessionMarker) {
        match probe
        case ProbeResolved(success, data) =>
          SetUser(User(success, data));
          SetIsLoading(false);
        case ProbeRejected =>
          SetUser(LoggedOut);
          SetIsLoading(false);
      } else {
        SetIsLoading(false);
      }
    }

    /** What the shell renders for `path` in its current state. */
    function View(path: string): (v: View)
      reads this
      ensures isLoading <==> v == Loader
    {
      Render(isLoading, path)
    }
  }
}
