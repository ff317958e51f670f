/** The four routers under server/routes and their mounting in
    server/server.js: which handler a request reaches and which gates it
    passes first. A table is tried in registration order and the first
    route whose verb and path match wins, as in Express. */
module Routes {

  import opened Common
  import opened Models
  import opened AuthMiddleware
  import opened Strings

  datatype Verb = Get | Post | Put | Delete

  /** A path segment of a route: a literal word, or a `:name` parameter
      that matches any non-empty segment. */
  datatype Segment = Lit(word: string) | Param(name: string)

  /** The middleware a route lists before its handler. */
  datatype Gate = TokenGate | AdminOnly | MemberOnly

  datatype Handler =
    | Register | Login | GetCurrentUser
    | GetProfile | UpdateProfile | ChangePassword | GetUserProgress | GetUserFavorites | GetUserNotes
    | UpdateNote | DeleteNote
    | GetFilterOptions | GetAllTechniques | GetFavorites | GetTechniqueById | GetRelatedTechniques
    | ToggleFavorite | UpdateProgress
    | GetDashboardStats | GetUsers | UpdateUser | UpdateMembership
    | GetCategories | CreateCategory | UpdateCategory | DeleteCategory
    | GetTechniques | CreateTechnique | UpdateTechnique | DeleteTechnique | UploadVideo | UploadThumbnail

  datatype Route = Route(verb: Verb, path: seq<Segment>, gates: seq<Gate>, handler: Handler)

  /** A router mounted under a prefix, with the gates its `router.use` runs first. */
  datatype Mount = Mount(prefix: seq<string>, gates: seq<Gate>, routes: seq<Route>)

  const AuthRoutes: seq<Route> := [
    Route(Post, [Lit("register")], [], Register),
    Route(Post, [Lit("login")], [], Login),
    Route(Get, [Lit("me")], [TokenGate], GetCurrentUser)
  ]

  const UserRoutes: seq<Route> := [
    Route(Get, [Lit("profile")], [TokenGate], GetProfile),
    Route(Put, [Lit("profile")], [TokenGate], UpdateProfile),
    Route(Put, [Lit("password")], [TokenGate], ChangePassword),
    Route(Get, [Lit("progress")], [TokenGate], GetUserProgress),
    Route(Get, [Lit("favorites")], [TokenGate], GetUserFavorites),
    Route(Get, [Lit("notes")], [TokenGate], GetUserNotes),
    Route(Post, [Lit("notes"), Param("techniqueId")], [TokenGate], UpdateNote),
    Route(Delete, [Lit("notes"), Param("techniqueId")], [TokenGate], DeleteNote)
  ]

  const TechniqueRoutes: seq<Route> := [
    Route(Get, [Lit("filter-options")], [], GetFilterOptions),
    Route(Get, [], [TokenGate, MemberOnly], GetAllTechniques),
    Route(Get, [Lit("favorites")], [TokenGate], GetFavorites),
    Route(Get, [Param("id")], [TokenGate, MemberOnly], GetTechniqueById),
    Route(Get, [Param("id"), Lit("related")], [TokenGate, MemberOnly], GetRelatedTechniques),
    Route(Post, [Param("id"), Lit("favorite")], [TokenGate], ToggleFavorite),
    Route(Post, [Param("id"), Lit("progress")], [TokenGate, MemberOnly], UpdateProgress)
  ]

  const AdminRoutes: seq<Route> := [
    Route(Get, [Lit("dashboard")], [], GetDashboardStats),
    Route(Get, [Lit("users")], [], GetUsers),
    Route(Put, [Lit("users"), Param("id")], [], UpdateUser),
    Route(Put, [Lit("users"), Param("userId"), Lit("membership")], [], UpdateMembership),
    Route(Get, [Lit("categories")], [], GetCategories),
    Route(Post, [Lit("categories")], [], CreateCategory),
    Route(Put, [Lit("categories"), Param("id")], [], UpdateCategory),
    Route(Delete, [Lit("categories"), Param("id")], [], DeleteCategory),
    Route(Get, [Lit("techniques")], [], GetTechniques),
    Route(Post, [Lit("techniques")], [], CreateTechnique),
    Route(Put, [Lit("techniques"), Param("id")], [], UpdateTechnique),
    Route(Delete, [Lit("techniques"), Param("id")], [], DeleteTechnique),
    Route(Post, [Lit("upload"), Lit("video")], [], UploadVideo),
    Route(Post, [Lit("upload"), Lit("thumbnail")], [], UploadThumbnail)
  ]

  const AuthPrefix: seq<string> := ["api", "auth"]
  const UserPrefix: seq<string> := ["api", "users"]
  const TechniquePrefix: seq<string> := ["api", "techniques"]
  const AdminPrefix: seq<string> := ["api", "admin"]

  const AuthMount: Mount := Mount(AuthPrefix, [], AuthRoutes)
  const UserMount: Mount := Mount(UserPrefix, [], UserRoutes)
  const TechniqueMount: Mount := Mount(TechniquePrefix, [], TechniqueRoutes)
  /** The admin router gates every request it sees. */
  const AdminMount: Mount := Mount(AdminPrefix, [TokenGate, AdminOnly], AdminRoutes)

  /** server.js mounts the four routers in this order. */
  const Mounts: seq<Mount> := [AuthMount, UserMount, TechniqueMount, AdminMount]

  /** Express routes are not case-sensitive: a literal word matches the
      segment up to the case of its letters. */
  predicate SegmentMatches(s: Segment, w: string)
  {
    match s
    case Lit(word) => SameIgnoringCase(w, word)
    case Param(_) => w != ""
  }

  /** Express routes are not strict: a trailing slash, the empty last
      segment of the path, is ignored. */
  predicate PathMatches(p: seq<Segment>, path: seq<string>)
  {
    && (|path| == |p| || (|path| == |p| + 1 && path[|p|] == ""))
    && forall i :: 0 <= i < |p| ==> SegmentMatches(p[i], path[i])
  }

  predicate RouteMatches(r: Route, verb: Verb, path: seq<string>)
  {
    r.verb == verb && PathMatches(r.path, path)
  }

  /** The index of the first route from position `k` on that matches, if any. */
  function ResolveFrom(routes: seq<Route>, verb: Verb, path: seq<string>, k: nat): (r: Option<nat>)
    requires k <= |routes|
    ensures r.Some? ==> k <= r.value < |routes| && RouteMatches(routes[r.value], verb, path)
    ensures r.Some? ==> forall j :: k <= j < r.value ==> !RouteMatches(routes[j], verb, path)
    ensures r.None? <==> forall j :: k <= j < |routes| ==> !RouteMatches(routes[j], verb, path)
    decreases |routes| - k
  {
    if k == |routes| then None
    else if RouteMatches(routes[k], verb, path) then Some(k)
    else ResolveFrom(routes, verb, path, k + 1)
  }

  /** The index of the first route that matches, if any. */
  function Resolve(routes: seq<Route>, verb: Verb, path: seq<string>): (r: Option<nat>)
    ensures r.Some? ==> r.value < |routes| && RouteMatches(routes[r.value], verb, path)
    ensures r.Some? ==> forall j :: 0 <= j < r.value ==> !RouteMatches(routes[j], verb, path)
    ensures r.None? <==> forall j :: 0 <= j < |routes| ==> !RouteMatches(routes[j], verb, path)
  {
    ResolveFrom(routes, verb, path, 0)
  }

  /** The parameters a matching route binds, by name. */
  function Bindings(p: seq<Segment>, path: seq<string>): (b: map<string, string>)
    requires |p| == |path|
    ensures forall i :: 0 <= i < |p| && p[i].Param? && (forall j :: i < j < |p| ==> p[j] != p[i]) ==>
              p[i].name in b && b[p[i].name] == path[i]
    decreases |p|
  {
    if p == [] then map[]
    else
      var rest := Bindings(p[..|p| - 1], path[..|path| - 1]);
      var last := p[|p| - 1];
      if last.Param? then rest[last.name := path[|path| - 1]] else rest
  }

  /** `app.use` matches its prefix word by word, up to case. */
  predicate Under(path: seq<string>, prefix: seq<string>)
  {
    |prefix| <= |path| && forall i :: 0 <= i < |prefix| ==> SameIgnoringCase(path[i], prefix[i])
  }

  /** Where a request ends up: the gates it passes, in order, and the
      handler it reaches (none when no route of its router matches). */
  datatype Endpoint = Endpoint(gates: seq<Gate>, handler: Option<Handler>, params: map<string, string>)

  /** What a router does with a path under its prefix: the gates of its
      `router.use`, then those of its first matching route. */
  function AtMount(m: Mount, verb: Verb, path: seq<string>): Endpoint
    requires Under(path, m.prefix)
  {
    var rest := path[|m.prefix|..];
    match Resolve(m.routes, verb, rest)
    case None => Endpoint(m.gates, None, map[])
    case Some(i) =>
      Endpoint(m.gates + m.routes[i].gates, Some(m.routes[i].handler), Bindings(m.routes[i].path, rest[..|m.routes[i].path|]))
  }

  /** The first router whose prefix the path is under; `None` when there is none. */
  function DispatchIn(mounts: seq<Mount>, verb: Verb, path: seq<string>): (e: Option<Endpoint>)
    ensures e.None? <==> forall i :: 0 <= i < |mounts| ==> !Under(path, mounts[i].prefix)
    decreases |mounts|
  {
    if mounts == [] then None
    else if Under(path, mounts[0].prefix) then Some(AtMount(mounts[0], verb, path))
    else DispatchIn(mounts[1..], verb, path)
  }

  /** `mounts[m]` is the first mount whose prefix the path is under. */
  predicate FirstMountUnder(mounts: seq<Mount>, path: seq<string>, m: nat)
  {
    m < |mounts| && Under(path, mounts[m].prefix) && forall j :: 0 <= j < m ==> !Under(path, mounts[j].prefix)
  }

  /** A dispatched request is handled by the first mount it is under, at that mount. */
  lemma {:induction false} DispatchInFirstMount(mounts: seq<Mount>, verb: Verb, path: seq<string>, m: nat)
    requires FirstMountUnder(mounts, path, m)
    ensures DispatchIn(mounts, verb, path) == Some(AtMount(mounts[m], verb, path))
    decreases m
  {
    if m > 0 {
      assert !Under(path, mounts[0].prefix);
      assert FirstMountUnder(mounts[1..], path, m - 1) by {
        forall j | 0 <= j < m - 1 ensures !Under(path, mounts[1..][j].prefix) {
          assert mounts[1..][j] == mounts[j + 1];
        }
      }
      DispatchInFirstMount(mounts[1..], verb, path, m - 1);
      assert mounts[1..][m - 1] == mounts[m];
    }
  }

  /** The app's `app.use` chain: the request goes to the first router
      mounted over a prefix of its path, and is answered 404 by Express only
      when there is none. */
  function Dispatch(verb: Verb, path: seq<string>): (e: Option<Endpoint>)
    ensures e.None? <==> forall i :: 0 <= i < |Mounts| ==> !Under(path, Mounts[i].prefix)
  {
    DispatchIn(Mounts, verb, path)
  }

  /** The gates run one after another, each on the context the previous
      one left; the first to halt answers the request. Only `verifyToken`
      sets the user on the request, so a chain without it keeps the user,
      the role and a truthy membership flag it was given; and a chain that
      passes with no `verifyToken` after its first gate has met the role and
      membership each of its gates demands. */
  function RunGates(gates: seq<Gate>, ctx: Ctx, header: Option<string>, verify: string -> Option<Claims>,
                    users: map<UserId, User>, memberships: map<MembershipId, Membership>, now: int): (r: Result<Ctx>)
    ensures r.Err? ==> r.error.Status() in {401, 403, 500}
    ensures r.Ok? && TokenGate in gates ==> r.value.userId.Some?
    ensures r.Ok? && TokenGate !in gates ==>
              r.value.userId == ctx.userId && r.value.userRole == ctx.userRole
              && (IsTrue(ctx.hasMembership) ==> IsTrue(r.value.hasMembership))
    ensures r.Ok? && gates != [] && TokenGate !in gates[1..] && AdminOnly in gates ==> r.value.userRole == Some(AdminRole)
    ensures r.Ok? && gates != [] && TokenGate !in gates[1..] && MemberOnly in gates ==>
              r.value.userRole == Some(AdminRole) || IsTrue(r.value.hasMembership)
    decreases |gates|
  {
    if gates == [] then Ok(ctx)
    else
      var step :=
        match gates[0]
        case TokenGate => (match Authenticate(header, verify, users) case Ok(c) => Ok(ContextOf(c)) case Err(e) => Err(e))
        case AdminOnly => (match AdminGate(ctx) case Next => Ok(ctx) case Halt(e) => Err(e))
        case MemberOnly => MembershipGate(ctx, memberships, now);
      match step
      case Err(e) => Err(e)
      case Ok(c) => RunGates(gates[1..], c, header, verify, users, memberships, now)
  }

  // ------------------------------------------------------------------ lemmas

  /** A path under the prefix `prefix` followed by `rest`. */
  lemma UnderPrefix(prefix: seq<string>, rest: seq<string>)
    ensures Under(prefix + rest, prefix) && (prefix + rest)[|prefix|..] == rest
  {
    assert forall i :: 0 <= i < |prefix| ==> (prefix + rest)[i] == prefix[i];
  }

  /** Two-word prefixes that differ in their second word. */
  predicate Disjoint(mounts: seq<Mount>)
  {
    && (forall i :: 0 <= i < |mounts| ==> |mounts[i].prefix| == 2)
    && (forall i, j :: 0 <= i < j < |mounts| ==> !SameIgnoringCase(mounts[i].prefix[1], mounts[j].prefix[1]))
  }

  /** Under disjoint prefixes a path reaches the one router it is under,
      wherever that router is mounted. */
  lemma {:induction false} DispatchInUnder(mounts: seq<Mount>, m: nat, verb: Verb, path: seq<string>)
    requires Disjoint(mounts) && m < |mounts| && Under(path, mounts[m].prefix)
    ensures DispatchIn(mounts, verb, path) == Some(AtMount(mounts[m], verb, path))
    decreases m
  {
    if m > 0 {
      assert mounts[1..][m - 1] == mounts[m];
      DispatchInUnder(mounts[1..], m - 1, verb, path);
    }
  }

  lemma MountsAreDisjoint()
    ensures Disjoint(Mounts)
  {
    assert LowerChar(UserPrefix[1][0]) != LowerChar(AdminPrefix[1][0]);
  }

  lemma DispatchUnder(m: nat, verb: Verb, path: seq<string>)
    requires m < |Mounts| && Under(path, Mounts[m].prefix)
    ensures Dispatch(verb, path) == Some(AtMount(Mounts[m], verb, path))
  {
    MountsAreDisjoint();
    DispatchInUnder(Mounts, m, verb, path);
  }

  /** A route without parameters binds nothing. */
  lemma {:induction false} NoParamsNoBindings(p: seq<Segment>, path: seq<string>)
    requires |p| == |path| && forall i :: 0 <= i < |p| ==> p[i].Lit?
    ensures Bindings(p, path) == map[]
    decreases |p|
  {
    if p != [] {
      NoParamsNoBindings(p[..|p| - 1], path[..|path| - 1]);
    }
  }

  /** The endpoint a router gives a path whose first matching route is route `i`. */
  lemma {:induction false} AtRoute(m: Mount, verb: Verb, path: seq<string>, i: nat)
    requires Under(path, m.prefix) && i < |m.routes|
    requires RouteMatches(m.routes[i], verb, path[|m.prefix|..])
    requires forall j :: 0 <= j < i ==> !RouteMatches(m.routes[j], verb, path[|m.prefix|..])
    ensures AtMount(m, verb, path) ==
              Endpoint(m.gates + m.routes[i].gates, Some(m.routes[i].handler),
                       Bindings(m.routes[i].path, path[|m.prefix|..][..|m.routes[i].path|]))
  {
  }

  /** Where `prefix + rest` goes when route `i` of the router mounted at
      `prefix` is the first to match `rest`. */
  lemma DispatchToRoute(m: nat, verb: Verb, rest: seq<string>, i: nat)
    requires m < |Mounts| && i < |Mounts[m].routes|
    requires RouteMatches(Mounts[m].routes[i], verb, rest)
    requires forall j :: 0 <= j < i ==> !RouteMatches(Mounts[m].routes[j], verb, rest)
    ensures Dispatch(verb, Mounts[m].prefix + rest) ==
              Some(Endpoint(Mounts[m].gates + Mounts[m].routes[i].gates, Some(Mounts[m].routes[i].handler),
                            Bindings(Mounts[m].routes[i].path, rest[..|Mounts[m].routes[i].path|])))
  {
    var path := Mounts[m].prefix + rest;
    UnderPrefix(Mounts[m].prefix, rest);
    DispatchUnder(m, verb, path);
    AtRoute(Mounts[m], verb, path, i);
  }

  lemma OneSegment(s: Segment, w: string)
    ensures PathMatches([s], [w]) <==> SegmentMatches(s, w)
  {
    assert [s][0] == s && [w][0] == w;
  }

  /** The literal paths `/filter-options` and `/favorites` are registered
      before `/:id`, so neither word is ever read as a technique id;
      `filter-options` runs no gate at all. */
  lemma LiteralSegmentsWin(w: string)
    requires w != ""
    ensures var e := Dispatch(Get, TechniquePrefix + [w]);
            && e.Some?
            && e.value.handler == Some(if SameIgnoringCase(w, "filter-options") then GetFilterOptions
                                       else if SameIgnoringCase(w, "favorites") then GetFavorites
                                       else GetTechniqueById)
            && (SameIgnoringCase(w, "filter-options") ==> e.value.gates == [])
  {
    var rest := [w];
    assert !RouteMatches(TechniqueRoutes[1], Get, rest);
    OneSegment(TechniqueRoutes[0].path[0], w);
    assert TechniqueRoutes[0].path == [TechniqueRoutes[0].path[0]];
    if SameIgnoringCase(w, "filter-options") {
      DispatchToRoute(2, Get, rest, 0);
    } else {
      OneSegment(TechniqueRoutes[2].path[0], w);
      assert TechniqueRoutes[2].path == [TechniqueRoutes[2].path[0]];
      if SameIgnoringCase(w, "favorites") {
        DispatchToRoute(2, Get, rest, 2);
      } else {
        OneSegment(TechniqueRoutes[3].path[0], w);
        assert TechniqueRoutes[3].path == [TechniqueRoutes[3].path[0]];
        DispatchToRoute(2, Get, rest, 3);
      }
    }
  }

  /** Neither the case of the word nor a trailing slash changes the route:
      `GET /api/techniques/Favorites/` reaches `getFavorites` behind the
      token gate alone, not `getTechniqueById`. */
  lemma FavoritesInAnyCase()
    ensures Dispatch(Get, TechniquePrefix + ["Favorites", ""]) == Some(Endpoint([TokenGate], Some(GetFavorites), map[]))
  {
    var rest := ["Favorites", ""];
    assert SameIgnoringCase("Favorites", "favorites") by {
      forall i | 0 <= i < 9
        ensures LowerChar("Favorites"[i]) == LowerChar("favorites"[i])
      {
        if i == 0 {
          assert "Favorites"[0] == 'F' && "favorites"[0] == 'f';
        } else {
          assert "Favorites"[i] == "favorites"[i];
        }
      }
    }
    assert RouteMatches(TechniqueRoutes[2], Get, rest);
    assert !SegmentMatches(TechniqueRoutes[0].path[0], rest[0]) by {
      assert |TechniqueRoutes[0].path[0].word| == 14;
    }
    assert !RouteMatches(TechniqueRoutes[1], Get, rest);
    DispatchToRoute(2, Get, rest, 2);
    assert rest[..1] == ["Favorites"];
    NoParamsNoBindings([Lit("favorites")], ["Favorites"]);
    assert [] + [TokenGate] == [TokenGate];
  }

  /** A gate list that is either empty or starts with `verifyToken`. */
  predicate TokenFirst(gates: seq<Gate>)
  {
    gates == [] || gates[0] == TokenGate
  }

  predicate TokenGuarded(mounts: seq<Mount>)
  {
    forall i :: 0 <= i < |mounts| ==>
      && TokenFirst(mounts[i].gates)
      && forall j :: 0 <= j < |mounts[i].routes| ==> TokenFirst(mounts[i].gates + mounts[i].routes[j].gates)
  }

  lemma {:induction false} DispatchTokenFirst(mounts: seq<Mount>, verb: Verb, path: seq<string>)
    requires TokenGuarded(mounts)
    ensures DispatchIn(mounts, verb, path).Some? ==> TokenFirst(DispatchIn(mounts, verb, path).value.gates)
    decreases |mounts|
  {
    if mounts != [] && !Under(path, mounts[0].prefix) {
      assert TokenGuarded(mounts[1..]) by {
        forall i | 0 <= i < |mounts[1..]|
          ensures TokenFirst(mounts[1..][i].gates)
          ensures forall j :: 0 <= j < |mounts[1..][i].routes| ==> TokenFirst(mounts[1..][i].gates + mounts[1..][i].routes[j].gates)
        {
          assert mounts[1..][i] == mounts[i + 1];
        }
      }
      DispatchTokenFirst(mounts[1..], verb, path);
    }
  }

  lemma MountsAreTokenGuarded()
    ensures TokenGuarded(Mounts)
  {
    assert forall j :: 0 <= j < |AuthRoutes| ==> TokenFirst(AuthRoutes[j].gates);
    assert forall j :: 0 <= j < |UserRoutes| ==> TokenFirst(UserRoutes[j].gates);
    assert forall j :: 0 <= j < |TechniqueRoutes| ==> TokenFirst(TechniqueRoutes[j].gates);
    forall j | 0 <= j < |AdminRoutes|
      ensures TokenFirst([TokenGate, AdminOnly] + AdminRoutes[j].gates)
    {
    }
    assert forall i :: 0 <= i < |Mounts| ==> Mounts[i].gates == [] || Mounts[i] == Mounts[3];
  }

  /** `verifyToken` comes first wherever there is a gate, so a request
      without a token is answered 401 before any role or membership check. */
  lemma MissingTokenIs401(verb: Verb, path: seq<string>, header: Option<string>, verify: string -> Option<Claims>,
                          users: map<UserId, User>, memberships: map<MembershipId, Membership>, now: int)
    requires TokenFromHeader(header).None?
    requires Dispatch(verb, path).Some? && Dispatch(verb, path).value.gates != []
    ensures RunGates(Dispatch(verb, path).value.gates, Anonymous, header, verify, users, memberships, now) == Err(NoTokenProvided)
  {
    MountsAreTokenGuarded();
    DispatchTokenFirst(Mounts, verb, path);
  }

  /** `verifyToken` comes first wherever there is a gate, so a request
      whose token is present but does not verify, or names a user who no
      longer exists, is answered with `verifyToken`'s 401 before any role
      or membership check. */
  lemma InvalidTokenIs401(verb: Verb, path: seq<string>, header: Option<string>, verify: string -> Option<Claims>,
                          users: map<UserId, User>, memberships: map<MembershipId, Membership>, now: int)
    requires Dispatch(verb, path).Some? && Dispatch(verb, path).value.gates != []
    requires Authenticate(header, verify, users).Err?
    ensures RunGates(Dispatch(verb, path).value.gates, Anonymous, header, verify, users, memberships, now)
              == Err(Authenticate(header, verify, users).error)
    ensures Authenticate(header, verify, users).error.Status() == 401
  {
    MountsAreTokenGuarded();
    DispatchTokenFirst(Mounts, verb, path);
  }

  /** `verifyToken` then `isAdmin`. */
  lemma TokenThenAdmin(header: Option<string>, verify: string -> Option<Claims>,
                       users: map<UserId, User>, memberships: map<MembershipId, Membership>, now: int)
    requires Authenticate(header, verify, users).Ok?
    ensures var c := Authenticate(header, verify, users).value;
            RunGates([TokenGate, AdminOnly], Anonymous, header, verify, users, memberships, now) ==
              if c.role == AdminRole then Ok(ContextOf(c)) else Err(RequiresAdmin)
  {
    var c := Authenticate(header, verify, users).value;
    assert [TokenGate, AdminOnly][1..] == [AdminOnly];
    assert RunGates([TokenGate, AdminOnly], Anonymous, header, verify, users, memberships, now) ==
             RunGates([AdminOnly], ContextOf(c), header, verify, users, memberships, now);
  }

  /** Every request the admin router sees passes `verifyToken` and then
      `isAdmin`: a valid token of any other role is answered 403, whatever
      the path, and an admin token reaches the handler with no membership check. */
  lemma AdminRouterGates(verb: Verb, path: seq<string>, header: Option<string>, verify: string -> Option<Claims>,
                         users: map<UserId, User>, memberships: map<MembershipId, Membership>, now: int)
    requires Under(path, AdminPrefix)
    requires Authenticate(header, verify, users).Ok?
    ensures Dispatch(verb, path).Some?
    ensures var c := Authenticate(header, verify, users).value;
            RunGates(Dispatch(verb, path).value.gates, Anonymous, header, verify, users, memberships, now) ==
              if c.role == AdminRole then Ok(ContextOf(c)) else Err(RequiresAdmin)
  {
    AdminGates(verb, path);
    TokenThenAdmin(header, verify, users, memberships, now);
  }

  /** The admin routes list no gates of their own. */
  lemma AdminGates(verb: Verb, path: seq<string>)
    requires Under(path, AdminPrefix)
    ensures Dispatch(verb, path).Some? && Dispatch(verb, path).value.gates == [TokenGate, AdminOnly]
  {
    DispatchUnder(3, verb, path);
    AdminRoutesUngated();
    assert [TokenGate, AdminOnly] + [] == [TokenGate, AdminOnly];
  }

  lemma AdminRoutesUngated()
    ensures forall j :: 0 <= j < |AdminRoutes| ==> AdminRoutes[j].gates == []
  {
  }

  /** The gates of every route of every router but the technique router. */
  lemma NoMembershipGateElsewhere()
    ensures forall m, j :: 0 <= m < |Mounts| && m != 2 && 0 <= j < |Mounts[m].routes| ==>
              MemberOnly !in Mounts[m].gates + Mounts[m].routes[j].gates
  {
    assert forall j :: 0 <= j < |AuthRoutes| ==> MemberOnly !in AuthRoutes[j].gates;
    assert forall j :: 0 <= j < |UserRoutes| ==> MemberOnly !in UserRoutes[j].gates;
    AdminRoutesUngated();
  }

  lemma NoMembershipGateAt(m: nat, verb: Verb, path: seq<string>)
    requires m < |Mounts| && m != 2 && Under(path, Mounts[m].prefix)
    ensures MemberOnly !in AtMount(Mounts[m], verb, path).gates
  {
    assert MemberOnly !in Mounts[m].gates;
    NoMembershipGateElsewhere();
  }

  /** No router but the technique router applies `hasMembership`. */
  lemma MembershipGateOnlyOnTechniques(verb: Verb, path: seq<string>)
    requires Dispatch(verb, path).Some? && MemberOnly in Dispatch(verb, path).value.gates
    ensures Under(path, TechniquePrefix)
  {
    var m :| 0 <= m < |Mounts| && Under(path, Mounts[m].prefix);
    DispatchUnder(m, verb, path);
    if m != 2 {
      NoMembershipGateAt(m, verb, path);
    }
  }

  /** Which technique routes check membership: the listing, one technique,
      its related techniques and progress; favorites need only a token. */
  lemma TechniqueMembershipRoutes()
    ensures forall r :: r in TechniqueRoutes ==>
              (MemberOnly in r.gates <==> r.handler in {GetAllTechniques, GetTechniqueById, GetRelatedTechniques, UpdateProgress})
    ensures forall r :: r in TechniqueRoutes && r.handler != GetFilterOptions ==> r.gates[0] == TokenGate
  {
  }

  /** A non-member with a valid token can toggle favorites: only the token is checked. */
  lemma FavoriteNeedsOnlyToken(w: string, header: Option<string>, verify: string -> Option<Claims>,
                               users: map<UserId, User>, memberships: map<MembershipId, Membership>, now: int)
    requires w != "" && Authenticate(header, verify, users).Ok?
    ensures Dispatch(Post, TechniquePrefix + [w, "favorite"]).Some?
    ensures var e := Dispatch(Post, TechniquePrefix + [w, "favorite"]).value;
            && e.handler == Some(ToggleFavorite) && e.params == map["id" := w]
            && RunGates(e.gates, Anonymous, header, verify, users, memberships, now)
               == Ok(ContextOf(Authenticate(header, verify, users).value))
  {
    var rest := [w, "favorite"];
    assert forall j :: 0 <= j < 4 ==> |TechniqueRoutes[j].path| != 2 || TechniqueRoutes[j].verb != Post;
    assert RouteMatches(TechniqueRoutes[5], Post, rest);
    DispatchToRoute(2, Post, rest, 5);
    var p := TechniqueRoutes[5].path;
    assert Bindings(p[..1], rest[..1]) == map["id" := w] by {
      assert p[..1][..0] == [];
    }
  }

  /** `/profile` is read with GET and changed with PUT. */
  lemma ProfileByVerb()
    ensures Dispatch(Get, UserPrefix + ["profile"]).Some? && Dispatch(Get, UserPrefix + ["profile"]).value.handler == Some(GetProfile)
    ensures Dispatch(Put, UserPrefix + ["profile"]).Some? && Dispatch(Put, UserPrefix + ["profile"]).value.handler == Some(UpdateProfile)
  {
    assert Dispatch(Get, UserPrefix + ["profile"]).Some? && Dispatch(Get, UserPrefix + ["profile"]).value.handler == Some(GetProfile) by {
      DispatchToRoute(1, Get, ["profile"], 0);
    }
    DispatchToRoute(1, Put, ["profile"], 1);
  }

  /** Creating, updating and deleting a note are keyed by the `techniqueId`
      path parameter, behind `verifyToken` only. */
  lemma NotesKeyedByTechnique(w: string)
    requires w != ""
    ensures var e := Dispatch(Post, UserPrefix + ["notes", w]);
            e.Some? && e.value == Endpoint([TokenGate], Some(UpdateNote), map["techniqueId" := w])
    ensures var e := Dispatch(Delete, UserPrefix + ["notes", w]);
            e.Some? && e.value == Endpoint([TokenGate], Some(DeleteNote), map["techniqueId" := w])
  {
    var rest := ["notes", w];
    var p := UserRoutes[6].path;
    assert p == UserRoutes[7].path;
    assert Bindings(p, rest) == map["techniqueId" := w] by {
      assert p[..|p| - 1] == [Lit("notes")] && p[|p| - 1] == Param("techniqueId");
      assert rest[..|rest| - 1] == ["notes"] && rest[|rest| - 1] == w;
      NoParamsNoBindings([Lit("notes")], ["notes"]);
    }
    assert Dispatch(Post, UserPrefix + rest) == Some(Endpoint([TokenGate], Some(UpdateNote), map["techniqueId" := w])) by {
      assert RouteMatches(UserRoutes[6], Post, rest);
      DispatchToRoute(1, Post, rest, 6);
      assert [] + [TokenGate] == [TokenGate];
    }
    assert RouteMatches(UserRoutes[7], Delete, rest);
    DispatchToRoute(1, Delete, rest, 7);
    assert [] + [TokenGate] == [TokenGate];
  }

  /** Every route of the user router needs a token and nothing else. */
  lemma UserRoutesNeedOnlyToken(verb: Verb, path: seq<string>)
    requires Under(path, UserPrefix)
    requires Dispatch(verb, path).Some? && Dispatch(verb, path).value.handler.Some?
    ensures Dispatch(verb, path).value.gates == [TokenGate]
  {
    DispatchUnder(1, verb, path);
    UserGates();
  }

  lemma UserGates()
    ensures forall j :: 0 <= j < |UserRoutes| ==> UserRoutes[j].gates == [TokenGate]
  {
  }

  /** Registration is public. */
  lemma RegisterIsPublic()
    ensures Dispatch(Post, AuthPrefix + ["register"]) == Some(Endpoint([], Some(Register), map[]))
  {
    NoParamsNoBindings([Lit("register")], ["register"]);
    assert Mounts[0].routes[0].path == [Lit("register")];
    DispatchToRoute(0, Post, ["register"], 0);
    assert Mounts[0].gates + Mounts[0].routes[0].gates == [];
  }

  /** Login is public. */
  lemma LoginIsPublic()
    ensures Dispatch(Post, AuthPrefix + ["login"]) == Some(Endpoint([], Some(Login), map[]))
  {
    NoParamsNoBindings([Lit("login")], ["login"]);
    assert Mounts[0].routes[1].path == [Lit("login")];
    DispatchToRoute(0, Post, ["login"], 1);
    assert Mounts[0].gates + Mounts[0].routes[1].gates == [];
  }

  /** `/me` needs a token. */
  lemma CurrentUserNeedsToken()
    ensures Dispatch(Get, AuthPrefix + ["me"]) == Some(Endpoint([TokenGate], Some(GetCurrentUser), map[]))
  {
    NoParamsNoBindings([Lit("me")], ["me"]);
    DispatchToRoute(0, Get, ["me"], 2);
    assert [] + [TokenGate] == [TokenGate];
  }
}
