/** The front controller: how a request is turned into a service call and a response.
    The request body is read as JSON, the route is chosen from the method and the path,
    every route except the preflight and the two public ones needs a valid bearer
    token, and an unknown route answers 404. */
module Router {
  import opened Values
  import opened Schema
  import opened Http
  import opened Settings
  import opened Store
  import opened Uploads
  import Auth
  import Projects
  import Tasks

  // ---------------------------------------------------------------- the request body

  /** What the front controller reads of a request. `contentType` is the header, or ""
      when it is absent; `decoded` is what `json_decode($input, true)` makes of the body
      (null when it is not valid JSON); `image` is `$_FILES['image']`, None when empty. */
  datatype Request = Request(
    verb: string, path: string, contentType: string, input: string, decoded: Json,
    authorization: Option<string>, image: Option<UploadedFile>)

  /** The empty PHP array `[]`. */
  const EmptyBody: Json := List([])

  /** The body is taken when the content type is absent or mentions JSON, the raw body
      is truthy, and it decodes to an array. */
  predicate BodyAccepted(contentType: string, input: string, decoded: Json) {
    && (!TruthyString(contentType) || Contains(contentType, "application/json"))
    && TruthyString(input)
    && IsArray(decoded)
  }

  /** `getJsonBody()`: the decoded body, or `[]` when the content type is set and is not
      JSON, when the body is empty (or "0"), or when it does not decode to an array. */
  function GetJsonBody(contentType: string, input: string, decoded: Json): (body: Json)
    ensures IsArray(body)
    ensures BodyAccepted(contentType, input, decoded) ==> body == decoded
    ensures !BodyAccepted(contentType, input, decoded) ==> body == EmptyBody
  {
    if TruthyString(contentType) && !Contains(contentType, "application/json") then EmptyBody
    else if !TruthyString(input) then EmptyBody
    else if IsArray(decoded) then decoded
    else EmptyBody
  }

  /** A content type that mentions `application/json` anywhere, such as
      "application/json; charset=utf-8", lets a decoded array through; so does an
      absent one. */
  lemma JsonContentTypeAccepted(before: string, after: string, input: string, decoded: Json)
    requires TruthyString(input) && IsArray(decoded)
    ensures GetJsonBody(before + "application/json" + after, input, decoded) == decoded
    ensures GetJsonBody("", input, decoded) == decoded
  {
    var t := before + "application/json" + after;
    assert t[|before|..|before| + |"application/json"|] == "application/json";
    assert OccursAt(t, "application/json", |before|);
  }

  /** Every field is missing from the empty body. */
  lemma {:induction false} EmptyBodyMissesAll(required: seq<string>)
    ensures MissingFields(EmptyBody, required) == required
  {
    if required != [] {
      var init := required[..|required| - 1];
      EmptyBodyMissesAll(init);
      assert Missing(EmptyBody, required[|required| - 1]);
      assert required == init + [required[|required| - 1]];
    }
  }

  /** A body that is not taken (a form post, say) fails every required-field check with
      422, naming all required fields in order. */
  lemma RejectedBodyFailsValidation(contentType: string, input: string, decoded: Json, required: seq<string>)
    requires !BodyAccepted(contentType, input, decoded) && required != []
    ensures Required(GetJsonBody(contentType, input, decoded), required)
            == Fail(Http.Json(ValidationBody(MissingFieldsMessage, required), 422))
  {
    EmptyBodyMissesAll(required);
    assert required[0] in required && Missing(EmptyBody, required[0]);
  }

  // ---------------------------------------------------------------- route patterns

  /** `$path` is `<prefix><digits><suffix>`, with at least one digit. */
  predicate Spells(path: string, prefix: string, digits: string, suffix: string) {
    |digits| > 0 && AllDigits(digits) && path == prefix + digits + suffix
  }

  /** `preg_match('#^<prefix>(\d+)<suffix>$#', $path, $m)` followed by `(int)$m[1]`. */
  function IdRoute(path: string, prefix: string, suffix: string): (r: Option<int>)
    ensures r.Some? ==> exists d :: Spells(path, prefix, d, suffix) && r.value == DigitsValue(d)
  {
    if |path| <= |prefix| + |suffix| || path[..|prefix|] != prefix || path[|path| - |suffix|..] != suffix then None
    else
      var d := path[|prefix|..|path| - |suffix|];
      if AllDigits(d) then
        assert path == path[..|prefix|] + d + path[|path| - |suffix|..];
        assert Spells(path, prefix, d, suffix);
        Some(DigitsValue(d))
      else None
  }

  /** The pattern matches every path the route spells, and captures its number. */
  lemma IdRouteOf(prefix: string, d: string, suffix: string)
    requires |d| > 0 && AllDigits(d)
    ensures IdRoute(prefix + d + suffix, prefix, suffix) == Some(DigitsValue(d))
  {
    var path := prefix + d + suffix;
    assert path[..|prefix|] == prefix;
    assert path[|path| - |suffix|..] == suffix;
    assert path[|prefix|..|path| - |suffix|] == d;
  }

  /** The same for a pattern that ends with the number. */
  lemma IdRouteOfDigits(prefix: string, d: string)
    requires |d| > 0 && AllDigits(d)
    ensures IdRoute(prefix + d, prefix, "") == Some(DigitsValue(d))
  {
    assert prefix + d + "" == prefix + d;
    IdRouteOf(prefix, d, "");
  }

  /** `$path` is `<prefix><digits><middle><digits>`, with at least one digit in each run. */
  predicate SpellsPair(path: string, prefix: string, d1: string, middle: string, d2: string) {
    |d1| > 0 && AllDigits(d1) && |d2| > 0 && AllDigits(d2) && path == prefix + d1 + middle + d2
  }

  /** `preg_match('#^<prefix>(\d+)<middle>(\d+)$#', $path, $m)` followed by `(int)$m[1]`
      and `(int)$m[2]`. Every pattern of this shape in the route table has a `middle`
      that starts with a slash, so the first run of digits is the longest one. */
  function IdPairRoute(path: string, prefix: string, middle: string): (r: Option<(int, int)>)
    requires middle != [] && !IsDigit(middle[0])
    ensures r.Some? ==> exists d1, d2 :: SpellsPair(path, prefix, d1, middle, d2)
                                        && r.value == (DigitsValue(d1) as int, DigitsValue(d2) as int)
  {
    if !StartsWith(path, prefix) then None
    else
      var rest := path[|prefix|..];
      var n := DigitRun(rest);
      if n == 0 || !StartsWith(rest[n..], middle) then None
      else
        var tail := rest[n + |middle|..];
        if tail == [] || !AllDigits(tail) then None
        else
          assert rest == rest[..n] + middle + tail;
          assert path == prefix + rest;
          assert SpellsPair(path, prefix, rest[..n], middle, tail);
          Some((DigitsValue(rest[..n]) as int, DigitsValue(tail) as int))
  }

  /** The pattern matches every path the route spells, and captures both numbers. */
  lemma IdPairRouteOf(prefix: string, d1: string, middle: string, d2: string)
    requires middle != [] && !IsDigit(middle[0])
    requires |d1| > 0 && AllDigits(d1) && |d2| > 0 && AllDigits(d2)
    ensures IdPairRoute(prefix + d1 + middle + d2, prefix, middle) == Some((DigitsValue(d1) as int, DigitsValue(d2) as int))
  {
    var path := prefix + d1 + middle + d2;
    var rest := path[|prefix|..];
    assert path[..|prefix|] == prefix;
    assert rest == d1 + (middle + d2);
    DigitRunOfDigits(d1, middle + d2);
    assert rest[..|d1|] == d1;
    assert rest[|d1|..] == middle + d2;
    assert rest[|d1|..][..|middle|] == middle;
    assert rest[|d1| + |middle|..] == d2;
  }

  // ---------------------------------------------------------------- the route table

  datatype ProjectRoute =
    | ListProjects | CreateProject | GetProject(id: int) | UpdateProject(id: int) | DeleteProject(id: int)
    | ProjectImage(id: int)

  datatype TaskRoute = CreateTask | GetTask(id: int) | UpdateTask(id: int) | DeleteTask(id: int)

  datatype ItemRoute =
    | AddTag(taskId: int) | DeleteTag(taskId: int, tagId: int)
    | AddLink(taskId: int) | DeleteLink(taskId: int, linkId: int)
    | TaskImage(taskId: int) | DeleteImage(taskId: int, imageId: int)

  datatype Route =
    | Preflight | Register | Login | Me
    | OnProjects(p: ProjectRoute) | OnTasks(t: TaskRoute) | OnItems(i: ItemRoute)
    | NoRoute

  /** `$routeKey = $method . ' ' . $path`; the exact routes are compared against keys
      such as "POST /api/auth/register", written here as `Key("POST", "/api/auth/register")`. */
  function Key(verb: string, path: string): string {
    verb + " " + path
  }

  /** The number of route checks the front controller makes. */
  const RouteChecks := 17

  /** Route check number `step` of the front controller, in the order of its `if` cascade:
      the route it selects, or None when the request falls through to the next check.
      A pattern whose method does not fit falls through as well. */
  function Check(verb: string, path: string, step: nat): (r: Option<Route>)
    ensures r.Some? ==> r.value != NoRoute
    ensures r == Some(Preflight) <==> step == 0 && verb == "OPTIONS"
    ensures r == Some(Register) <==> step == 1 && Key(verb, path) == Key("POST", "/api/auth/register")
    ensures r == Some(Login) <==> step == 2 && Key(verb, path) == Key("POST", "/api/auth/login")
  {
    var key := Key(verb, path);
    if step == 0 then (if verb == "OPTIONS" then Some(Preflight) else None)
    else if step == 1 then (if key == Key("POST", "/api/auth/register") then Some(Register) else None)
    else if step == 2 then (if key == Key("POST", "/api/auth/login") then Some(Login) else None)
    else if step == 3 then (if key == Key("GET", "/api/auth/me") then Some(Me) else None)
    else if step == 4 then (if key == Key("GET", "/api/projects") then Some(OnProjects(ListProjects)) else None)
    else if step == 5 then (if key == Key("POST", "/api/projects") then Some(OnProjects(CreateProject)) else None)
    else if step == 6 then
      match IdRoute(path, "/api/projects/", "")
      case Some(id) =>
        if verb == "GET" then Some(OnProjects(GetProject(id)))
        else if verb == "PUT" then Some(OnProjects(UpdateProject(id)))
        else if verb == "DELETE" then Some(OnProjects(DeleteProject(id)))
        else None
      case None => None
    else if step == 7 then
      match IdRoute(path, "/api/projects/", "/upload-image")
      case Some(id) => if verb == "POST" then Some(OnProjects(ProjectImage(id))) else None
      case None => None
    else if step == 8 then (if key == Key("POST", "/api/tasks") then Some(OnTasks(CreateTask)) else None)
    else if step == 9 then
      match IdRoute(path, "/api/tasks/", "")
      case Some(id) =>
        if verb == "GET" then Some(OnTasks(GetTask(id)))
        else if verb == "PUT" then Some(OnTasks(UpdateTask(id)))
        else if verb == "DELETE" then Some(OnTasks(DeleteTask(id)))
        else None
      case None => None
    else if step == 10 then
      match IdRoute(path, "/api/tasks/", "/add-tag")
      case Some(id) => if verb == "POST" then Some(OnItems(AddTag(id))) else None
      case None => None
    else if step == 11 then
      match IdPairRoute(path, "/api/tasks/", "/tag/")
      case Some(ids) => if verb == "DELETE" then Some(OnItems(DeleteTag(ids.0, ids.1))) else None
      case None => None
    else if step == 12 then
      match IdRoute(path, "/api/tasks/", "/add-link")
      case Some(id) => if verb == "POST" then Some(OnItems(AddLink(id))) else None
      case None => None
    else if step == 13 then
      match IdPairRoute(path, "/api/tasks/", "/link/")
      case Some(ids) => if verb == "DELETE" then Some(OnItems(DeleteLink(ids.0, ids.1))) else None
      case None => None
    else if step == 14 then
      match IdRoute(path, "/api/tasks/", "/upload-image")
      case Some(id) => if verb == "POST" then Some(OnItems(TaskImage(id))) else None
      case None => None
    else if step == 15 then
      match IdPairRoute(path, "/api/tasks/", "/image/")
      case Some(ids) => if verb == "DELETE" then Some(OnItems(DeleteImage(ids.0, ids.1))) else None
      case None => None
    else None
  }

  /** The first route check from `step` on that selects a route; NoRoute when none does. */
  function Dispatch(verb: string, path: string, step: nat): (r: Route)
    ensures step > 0 ==> r != Preflight
    ensures step > 1 ==> r != Register
    ensures step > 2 ==> r != Login
    decreases RouteChecks - step
  {
    if step >= RouteChecks then NoRoute
    else match Check(verb, path, step)
      case Some(route) => route
      case None => Dispatch(verb, path, step + 1)
  }

  /** The route a request takes: the first check that selects one. */
  function Classify(verb: string, path: string): (r: Route)
    ensures r == Preflight <==> verb == "OPTIONS"
  {
    Dispatch(verb, path, 0)
  }

  // ---------------------------------------------------------------- first match

  /** A check that falls through hands the request to the next one. */
  lemma Skip(verb: string, path: string, step: nat)
    requires step < RouteChecks && Check(verb, path, step).None?
    ensures Dispatch(verb, path, step) == Dispatch(verb, path, step + 1)
  {
  }

  /** The routes of the exact keys after the public ones come from their own check. */
  lemma CheckKeys(verb: string, path: string, step: nat)
    ensures Check(verb, path, step) == Some(Me) ==> Key(verb, path) == Key("GET", "/api/auth/me")
    ensures Check(verb, path, step) == Some(OnProjects(ListProjects)) ==> Key(verb, path) == Key("GET", "/api/projects")
    ensures Check(verb, path, step) == Some(OnProjects(CreateProject)) ==> Key(verb, path) == Key("POST", "/api/projects")
    ensures Check(verb, path, step) == Some(OnTasks(CreateTask)) ==> Key(verb, path) == Key("POST", "/api/tasks")
  {
  }

  /** ... and so from the cascade as a whole, whichever check it starts from. */
  lemma DispatchKeys(verb: string, path: string, step: nat)
    ensures Dispatch(verb, path, step) == Me ==> Key(verb, path) == Key("GET", "/api/auth/me")
    ensures Dispatch(verb, path, step) == OnProjects(ListProjects) ==> Key(verb, path) == Key("GET", "/api/projects")
    ensures Dispatch(verb, path, step) == OnProjects(CreateProject) ==> Key(verb, path) == Key("POST", "/api/projects")
    ensures Dispatch(verb, path, step) == OnTasks(CreateTask) ==> Key(verb, path) == Key("POST", "/api/tasks")
    decreases RouteChecks - step
  {
    if step < RouteChecks {
      CheckKeys(verb, path, step);
      if Check(verb, path, step).None? {
        DispatchKeys(verb, path, step + 1);
      }
    }
  }

  // ---------------------------------------------------------------- route keys

  /** In a route key, the first space follows the method. */
  lemma SpaceAt(verb: string, path: string)
    requires ' ' !in verb
    ensures Key(verb, path)[|verb|] == ' '
    ensures forall i :: 0 <= i < |verb| ==> Key(verb, path)[i] != ' '
  {
    assert forall i :: 0 <= i < |verb| ==> Key(verb, path)[i] == verb[i];
  }

  /** A route key determines both the method and the path when the method has no
      space, as no HTTP method has. */
  lemma RouteKeySplit(verb: string, path: string, v: string, p: string)
    requires ' ' !in verb && ' ' !in v
    ensures Key(verb, path) == Key(v, p) <==> verb == v && path == p
  {
    var k1, k2 := Key(verb, path), Key(v, p);
    if k1 == k2 {
      SpaceAt(verb, path);
      SpaceAt(v, p);
      assert |verb| == |v|;
      assert verb == k1[..|verb|] && v == k2[..|v|];
      assert path == k1[|verb| + 1..] && p == k2[|v| + 1..];
    }
  }

  /** Two keys whose paths differ in length or at position `k` differ. */
  lemma KeyMisses(verb: string, path: string, v: string, p: string, k: nat)
    requires ' ' !in verb && ' ' !in v
    requires |path| != |p| || (k < |path| && k < |p| && path[k] != p[k])
    ensures Key(verb, path) != Key(v, p)
  {
    RouteKeySplit(verb, path, v, p);
  }

  /** The two public routes are selected by the exact method and path, and by nothing else. */
  lemma PublicRoutesExact(verb: string, path: string)
    requires ' ' !in verb
    ensures Classify(verb, path) == Register <==> verb == "POST" && path == "/api/auth/register"
    ensures Classify(verb, path) == Login <==> verb == "POST" && path == "/api/auth/login"
  {
    RouteKeySplit(verb, path, "POST", "/api/auth/register");
    RouteKeySplit(verb, path, "POST", "/api/auth/login");
    if verb != "OPTIONS" {
      Skip(verb, path, 0);
      if Check(verb, path, 1).None? {
        Skip(verb, path, 1);
      }
    }
  }

  // ---------------------------------------------------------------- patterns that do not match

  lemma IdRouteNeedsPrefix(path: string, prefix: string, suffix: string, k: nat)
    requires k < |prefix| && k < |path| && path[k] != prefix[k]
    ensures IdRoute(path, prefix, suffix).None?
  {
  }

  lemma IdRouteNeedsLast(path: string, prefix: string, suffix: string)
    requires path != [] && (if suffix == [] then !IsDigit(path[|path| - 1]) else path[|path| - 1] != suffix[|suffix| - 1])
    ensures IdRoute(path, prefix, suffix).None?
  {
  }

  lemma IdPairRouteNeedsPrefix(path: string, prefix: string, middle: string, k: nat)
    requires middle != [] && !IsDigit(middle[0])
    requires k < |prefix| && k < |path| && path[k] != prefix[k]
    ensures IdPairRoute(path, prefix, middle).None?
  {
  }

  lemma IdPairRouteNeedsDigits(path: string, prefix: string, d: string, middle: string)
    requires middle != [] && !IsDigit(middle[0])
    requires path == prefix + d && AllDigits(d)
    ensures IdPairRoute(path, prefix, middle).None?
  {
  }

  lemma IdPairRouteNeedsLast(path: string, prefix: string, middle: string)
    requires middle != [] && !IsDigit(middle[0])
    requires path != [] && !IsDigit(path[|path| - 1])
    ensures IdPairRoute(path, prefix, middle).None?
  {
  }

  lemma IdRouteNeedsDigit(path: string, prefix: string, k: nat)
    requires |prefix| <= k < |path| && !IsDigit(path[k])
    ensures IdRoute(path, prefix, "").None?
  {
  }

  lemma IdRouteNeedsSlash(path: string, prefix: string, suffix: string)
    requires suffix != [] && suffix[0] == '/'
    requires forall k :: |prefix| <= k < |path| ==> path[k] != '/'
    ensures IdRoute(path, prefix, suffix).None?
  {
  }

  /** A path whose sixth character is not the `t` of `/api/tasks/` passes every task
      check from the `{id}` routes on. */
  lemma TaskChecksMiss(verb: string, path: string)
    requires |path| > 5 && path[5] != 't'
    ensures Dispatch(verb, path, 9) == NoRoute
  {
    IdRouteNeedsPrefix(path, "/api/tasks/", "", 5);
    IdRouteNeedsPrefix(path, "/api/tasks/", "/add-tag", 5);
    IdPairRouteNeedsPrefix(path, "/api/tasks/", "/tag/", 5);
    IdRouteNeedsPrefix(path, "/api/tasks/", "/add-link", 5);
    IdPairRouteNeedsPrefix(path, "/api/tasks/", "/link/", 5);
    IdRouteNeedsPrefix(path, "/api/tasks/", "/upload-image", 5);
    IdPairRouteNeedsPrefix(path, "/api/tasks/", "/image/", 5);
    Skip(verb, path, 9);
    Skip(verb, path, 10);
    Skip(verb, path, 11);
    Skip(verb, path, 12);
    Skip(verb, path, 13);
    Skip(verb, path, 14);
    Skip(verb, path, 15);
    Skip(verb, path, 16);
  }

  // ---------------------------------------------------------------- the numbered routes

  /** No exact route key has a path under `/api/p` longer than `/api/projects/`. */
  lemma ProjectPathMissesKeys(verb: string, path: string)
    requires ' ' !in verb && verb != "OPTIONS"
    requires |path| > 14 && path[5] == 'p'
    ensures Dispatch(verb, path, 0) == Dispatch(verb, path, 6)
  {
    KeyMisses(verb, path, "POST", "/api/auth/register", 5);
    KeyMisses(verb, path, "POST", "/api/auth/login", 5);
    KeyMisses(verb, path, "GET", "/api/auth/me", 5);
    KeyMisses(verb, path, "GET", "/api/projects", 0);
    KeyMisses(verb, path, "POST", "/api/projects", 0);
    Skip(verb, path, 0);
    Skip(verb, path, 1);
    Skip(verb, path, 2);
    Skip(verb, path, 3);
    Skip(verb, path, 4);
    Skip(verb, path, 5);
  }

  /** No exact route key has a path of the form `/api/projects/<segment>`. */
  lemma ProjectSegmentMissesKeys(verb: string, seg: string)
    requires ' ' !in verb && verb != "OPTIONS"
    requires |seg| > 0
    ensures Dispatch(verb, "/api/projects/" + seg, 0) == Dispatch(verb, "/api/projects/" + seg, 6)
  {
    var path := "/api/projects/" + seg;
    assert path[5] == 'p';
    ProjectPathMissesKeys(verb, path);
  }

  /** `/api/projects/{id}`: GET, PUT and DELETE reach `get`, `update` and `delete` with
      the number; any other method (OPTIONS aside) falls through every later check and
      answers 404. */
  lemma ProjectIdRoutes(verb: string, d: string)
    requires ' ' !in verb && verb != "OPTIONS"
    requires |d| > 0 && AllDigits(d)
    ensures var r := Classify(verb, "/api/projects/" + d);
            && (verb == "GET" ==> r == OnProjects(GetProject(DigitsValue(d))))
            && (verb == "PUT" ==> r == OnProjects(UpdateProject(DigitsValue(d))))
            && (verb == "DELETE" ==> r == OnProjects(DeleteProject(DigitsValue(d))))
            && (verb != "GET" && verb != "PUT" && verb != "DELETE" ==> r == NoRoute)
  {
    ProjectSegmentMissesKeys(verb, d);
    if verb == "GET" || verb == "PUT" || verb == "DELETE" {
      ProjectIdSelected(verb, d);
    } else {
      ProjectIdFallsThrough(verb, d);
    }
  }

  /** The check for `/api/projects/{id}` selects the route of the method. */
  lemma ProjectIdSelected(verb: string, d: string)
    requires verb == "GET" || verb == "PUT" || verb == "DELETE"
    requires |d| > 0 && AllDigits(d)
    ensures var r := Dispatch(verb, "/api/projects/" + d, 6);
            && (verb == "GET" ==> r == OnProjects(GetProject(DigitsValue(d))))
            && (verb == "PUT" ==> r == OnProjects(UpdateProject(DigitsValue(d))))
            && (verb == "DELETE" ==> r == OnProjects(DeleteProject(DigitsValue(d))))
  {
    IdRouteOfDigits("/api/projects/", d);
  }

  /** The checks after `/api/projects/{id}` all miss a path of that form. */
  lemma ProjectIdFallsThrough(verb: string, d: string)
    requires ' ' !in verb && verb != "GET" && verb != "PUT" && verb != "DELETE"
    requires |d| > 0 && AllDigits(d)
    ensures Dispatch(verb, "/api/projects/" + d, 6) == NoRoute
  {
    var path := "/api/projects/" + d;
    Skip(verb, path, 6);
    assert path[|path| - 1] == d[|d| - 1];
    IdRouteNeedsLast(path, "/api/projects/", "/upload-image");
    Skip(verb, path, 7);
    assert path[5] == 'p';
    ProjectPathPastChecks(verb, path);
  }

  /** The checks from `POST /api/tasks` on all miss a path under `/api/p`. */
  lemma ProjectPathPastChecks(verb: string, path: string)
    requires ' ' !in verb && |path| > 5 && path[5] == 'p'
    ensures Dispatch(verb, path, 8) == NoRoute
  {
    KeyMisses(verb, path, "POST", "/api/tasks", 5);
    Skip(verb, path, 8);
    TaskChecksMiss(verb, path);
  }

  /** `/api/projects/{id}` matches only an all-digit segment: a segment with any other
      character (and no slash) is not routed, whatever the method. */
  lemma ProjectSegmentNotNumber(verb: string, seg: string)
    requires ' ' !in verb && verb != "OPTIONS"
    requires |seg| > 0 && '/' !in seg && !AllDigits(seg)
    ensures Classify(verb, "/api/projects/" + seg) == NoRoute
  {
    var path := "/api/projects/" + seg;
    ProjectSegmentMissesKeys(verb, seg);
    ProjectBadSegmentChecks(verb, seg);
    Skip(verb, path, 6);
    Skip(verb, path, 7);
    ProjectSegmentPastChecks(verb, seg);
  }

  /** Neither project `{id}` check matches a segment that is not all digits. */
  lemma ProjectBadSegmentChecks(verb: string, seg: string)
    requires |seg| > 0 && '/' !in seg && !AllDigits(seg)
    ensures Check(verb, "/api/projects/" + seg, 6).None?
    ensures Check(verb, "/api/projects/" + seg, 7).None?
  {
    var path := "/api/projects/" + seg;
    var k :| 0 <= k < |seg| && !IsDigit(seg[k]);
    assert path[14 + k] == seg[k];
    IdRouteNeedsDigit(path, "/api/projects/", 14 + k);
    assert forall i :: 14 <= i < |path| ==> path[i] == seg[i - 14];
    IdRouteNeedsSlash(path, "/api/projects/", "/upload-image");
  }

  lemma ProjectSegmentPastChecks(verb: string, seg: string)
    requires ' ' !in verb
    ensures Dispatch(verb, "/api/projects/" + seg, 8) == NoRoute
  {
    var path := "/api/projects/" + seg;
    assert path[5] == 'p';
    ProjectPathPastChecks(verb, path);
  }

  /** `/api/tasks/{id}`: GET, PUT and DELETE reach `get`, `update` and `delete` with the
      number; any other method (OPTIONS aside) answers 404. */
  lemma TaskIdRoutes(verb: string, d: string)
    requires ' ' !in verb && verb != "OPTIONS"
    requires |d| > 0 && AllDigits(d)
    ensures var r := Classify(verb, "/api/tasks/" + d);
            && (verb == "GET" ==> r == OnTasks(GetTask(DigitsValue(d))))
            && (verb == "PUT" ==> r == OnTasks(UpdateTask(DigitsValue(d))))
            && (verb == "DELETE" ==> r == OnTasks(DeleteTask(DigitsValue(d))))
            && (verb != "GET" && verb != "PUT" && verb != "DELETE" ==> r == NoRoute)
  {
    TaskSegmentMissesEarlier(verb, d);
    if verb == "GET" || verb == "PUT" || verb == "DELETE" {
      TaskIdSelected(verb, d);
    } else {
      TaskIdFallsThrough(verb, d);
    }
  }

  /** The checks before `/api/tasks/{id}` all miss a path under `/api/t` longer than
      `/api/tasks/`. */
  lemma TaskPathMissesEarlier(verb: string, path: string)
    requires ' ' !in verb && verb != "OPTIONS"
    requires |path| > 11 && path[5] == 't'
    ensures Dispatch(verb, path, 0) == Dispatch(verb, path, 9)
  {
    KeyMisses(verb, path, "POST", "/api/auth/register", 5);
    KeyMisses(verb, path, "POST", "/api/auth/login", 5);
    KeyMisses(verb, path, "GET", "/api/auth/me", 5);
    KeyMisses(verb, path, "GET", "/api/projects", 5);
    KeyMisses(verb, path, "POST", "/api/projects", 5);
    KeyMisses(verb, path, "POST", "/api/tasks", 0);
    IdRouteNeedsPrefix(path, "/api/projects/", "", 5);
    IdRouteNeedsPrefix(path, "/api/projects/", "/upload-image", 5);
    Skip(verb, path, 0);
    Skip(verb, path, 1);
    Skip(verb, path, 2);
    Skip(verb, path, 3);
    Skip(verb, path, 4);
    Skip(verb, path, 5);
    Skip(verb, path, 6);
    Skip(verb, path, 7);
    Skip(verb, path, 8);
  }

  /** The checks before `/api/tasks/{id}` all miss a path of the form `/api/tasks/<segment>`. */
  lemma TaskSegmentMissesEarlier(verb: string, seg: string)
    requires ' ' !in verb && verb != "OPTIONS"
    requires |seg| > 0
    ensures Dispatch(verb, "/api/tasks/" + seg, 0) == Dispatch(verb, "/api/tasks/" + seg, 9)
  {
    var path := "/api/tasks/" + seg;
    assert path[5] == 't';
    TaskPathMissesEarlier(verb, path);
  }

  /** The check for `/api/tasks/{id}` selects the route of the method. */
  lemma TaskIdSelected(verb: string, d: string)
    requires verb == "GET" || verb == "PUT" || verb == "DELETE"
    requires |d| > 0 && AllDigits(d)
    ensures var r := Dispatch(verb, "/api/tasks/" + d, 9);
            && (verb == "GET" ==> r == OnTasks(GetTask(DigitsValue(d))))
            && (verb == "PUT" ==> r == OnTasks(UpdateTask(DigitsValue(d))))
            && (verb == "DELETE" ==> r == OnTasks(DeleteTask(DigitsValue(d))))
  {
    IdRouteOfDigits("/api/tasks/", d);
  }

  /** The checks after `/api/tasks/{id}` all miss a path of that form. */
  lemma TaskIdFallsThrough(verb: string, d: string)
    requires verb != "GET" && verb != "PUT" && verb != "DELETE"
    requires |d| > 0 && AllDigits(d)
    ensures Dispatch(verb, "/api/tasks/" + d, 9) == NoRoute
  {
    var path := "/api/tasks/" + d;
    assert path[|path| - 1] == d[|d| - 1];
    IdRouteOfDigits("/api/tasks/", d);
    IdRouteNeedsLast(path, "/api/tasks/", "/add-tag");
    IdPairRouteNeedsDigits(path, "/api/tasks/", d, "/tag/");
    IdRouteNeedsLast(path, "/api/tasks/", "/add-link");
    IdPairRouteNeedsDigits(path, "/api/tasks/", d, "/link/");
    IdRouteNeedsLast(path, "/api/tasks/", "/upload-image");
    IdPairRouteNeedsDigits(path, "/api/tasks/", d, "/image/");
    Skip(verb, path, 9);
    Skip(verb, path, 10);
    Skip(verb, path, 11);
    Skip(verb, path, 12);
    Skip(verb, path, 13);
    Skip(verb, path, 14);
    Skip(verb, path, 15);
    Skip(verb, path, 16);
  }

  /** The exact routes after the public ones are selected by their method and path, and
      by nothing else: `GET /api/auth/me`, `GET /api/projects`, `POST /api/projects` and
      `POST /api/tasks`. */
  lemma KeyRoutesExact(verb: string, path: string)
    requires ' ' !in verb
    ensures Classify(verb, path) == Me <==> verb == "GET" && path == "/api/auth/me"
    ensures Classify(verb, path) == OnProjects(ListProjects) <==> verb == "GET" && path == "/api/projects"
    ensures Classify(verb, path) == OnProjects(CreateProject) <==> verb == "POST" && path == "/api/projects"
    ensures Classify(verb, path) == OnTasks(CreateTask) <==> verb == "POST" && path == "/api/tasks"
  {
    RouteKeySplit(verb, path, "GET", "/api/auth/me");
    RouteKeySplit(verb, path, "GET", "/api/projects");
    RouteKeySplit(verb, path, "POST", "/api/projects");
    RouteKeySplit(verb, path, "POST", "/api/tasks");
    DispatchKeys(verb, path, 0);
    if verb == "GET" && (path == "/api/auth/me" || path == "/api/projects") {
      AuthKeysMiss(verb, path);
      if path == "/api/projects" {
        Skip(verb, path, 3);
      }
    } else if verb == "POST" && (path == "/api/projects" || path == "/api/tasks") {
      AuthKeysMiss(verb, path);
      Skip(verb, path, 3);
      Skip(verb, path, 4);
      if path == "/api/tasks" {
        TaskKeyReached(verb, path);
      }
    }
  }

  /** The preflight and the two public keys miss every other exact key. */
  lemma AuthKeysMiss(verb: string, path: string)
    requires ' ' !in verb && (verb == "GET" || verb == "POST")
    requires path == "/api/auth/me" || path == "/api/projects" || path == "/api/tasks"
    ensures Dispatch(verb, path, 0) == Dispatch(verb, path, 3)
  {
    KeyMisses(verb, path, "POST", "/api/auth/register", 10);
    KeyMisses(verb, path, "POST", "/api/auth/login", 10);
    Skip(verb, path, 0);
    Skip(verb, path, 1);
    Skip(verb, path, 2);
  }

  /** `POST /api/tasks` passes the checks between `POST /api/projects` and its own. */
  lemma TaskKeyReached(verb: string, path: string)
    requires verb == "POST" && path == "/api/tasks"
    ensures Dispatch(verb, path, 5) == OnTasks(CreateTask)
  {
    KeyMisses(verb, path, "POST", "/api/projects", 5);
    IdRouteNeedsPrefix(path, "/api/projects/", "", 5);
    IdRouteNeedsPrefix(path, "/api/projects/", "/upload-image", 5);
    Skip(verb, path, 5);
    Skip(verb, path, 6);
    Skip(verb, path, 7);
  }

  /** `/api/projects/{id}/upload-image`: POST reaches `attachImage` with the number; any
      other method (OPTIONS aside) answers 404. */
  lemma ProjectImageRoute(verb: string, d: string)
    requires ' ' !in verb && verb != "OPTIONS"
    requires |d| > 0 && AllDigits(d)
    ensures Classify(verb, "/api/projects/" + d + "/upload-image")
            == if verb == "POST" then OnProjects(ProjectImage(DigitsValue(d))) else NoRoute
  {
    var path := "/api/projects/" + d + "/upload-image";
    ProjectUploadChecks(verb, d);
    Skip(verb, path, 6);
    if verb == "POST" {
      IdRouteOf("/api/projects/", d, "/upload-image");
      ProjectImageSelected(verb, path, DigitsValue(d));
    } else {
      PostChecksNeedPost(verb, path);
      Skip(verb, path, 7);
    }
  }

  lemma ProjectImageSelected(verb: string, path: string, id: int)
    requires verb == "POST"
    requires IdRoute(path, "/api/projects/", "/upload-image") == Some(id)
    ensures Check(verb, path, 7) == Some(OnProjects(ProjectImage(id)))
  {
  }

  /** The four upload and add checks miss every path when the method is not POST. */
  lemma PostChecksNeedPost(verb: string, path: string)
    requires verb != "POST"
    ensures Check(verb, path, 7).None? && Check(verb, path, 10).None?
    ensures Check(verb, path, 12).None? && Check(verb, path, 14).None?
  {
  }

  /** The checks around `/api/projects/{id}/upload-image` that miss a path of that form. */
  lemma ProjectUploadChecks(verb: string, d: string)
    requires ' ' !in verb && verb != "OPTIONS"
    requires |d| > 0
    ensures Dispatch(verb, "/api/projects/" + d + "/upload-image", 0) == Dispatch(verb, "/api/projects/" + d + "/upload-image", 6)
    ensures Check(verb, "/api/projects/" + d + "/upload-image", 6).None?
    ensures Dispatch(verb, "/api/projects/" + d + "/upload-image", 8) == NoRoute
  {
    var path := "/api/projects/" + d + "/upload-image";
    assert path[5] == 'p' && path[|path| - 1] == 'e';
    ProjectPathMissesKeys(verb, path);
    IdRouteNeedsLast(path, "/api/projects/", "");
    ProjectPathPastChecks(verb, path);
  }

  /** The pair pattern misses a path whose text after the first number is another
      middle segment. */
  lemma IdPairRouteNeedsMiddle(prefix: string, d1: string, other: string, d2: string, middle: string, k: nat)
    requires middle != [] && !IsDigit(middle[0]) && other != [] && !IsDigit(other[0])
    requires |d1| > 0 && AllDigits(d1)
    requires k < |middle| && k < |other| && middle[k] != other[k]
    ensures IdPairRoute(prefix + d1 + other + d2, prefix, middle).None?
  {
    var path := prefix + d1 + other + d2;
    var rest := path[|prefix|..];
    assert path[..|prefix|] == prefix;
    assert rest == d1 + (other + d2);
    DigitRunOfDigits(d1, other + d2);
    assert rest[|d1|..] == other + d2;
    assert rest[|d1|..][k] == other[k];
  }

  // ---------------------------------------------------------------- the routes on a task's items

  /** `/api/tasks/{id}/add-tag`, `/add-link` and `/upload-image`: POST reaches `addTag`,
      `addLink` and the upload with the number; any other method (OPTIONS aside)
      answers 404. */
  lemma TaskItemPostRoutes(verb: string, d: string)
    requires ' ' !in verb && verb != "OPTIONS"
    requires |d| > 0 && AllDigits(d)
    ensures Classify(verb, "/api/tasks/" + d + "/add-tag")
            == if verb == "POST" then OnItems(AddTag(DigitsValue(d))) else NoRoute
    ensures Classify(verb, "/api/tasks/" + d + "/add-link")
            == if verb == "POST" then OnItems(AddLink(DigitsValue(d))) else NoRoute
    ensures Classify(verb, "/api/tasks/" + d + "/upload-image")
            == if verb == "POST" then OnItems(TaskImage(DigitsValue(d))) else NoRoute
  {
    TaskItemMissesEarlier(verb, d, "/add-tag");
    TaskItemMissesEarlier(verb, d, "/add-link");
    TaskItemMissesEarlier(verb, d, "/upload-image");
    AddTagChecks(verb, d);
    AddLinkChecks(verb, d);
    TaskImageChecks(verb, d);
  }

  /** The checks before `/api/tasks/{id}/...` all miss a path of that form. */
  lemma TaskItemMissesEarlier(verb: string, d: string, suffix: string)
    requires ' ' !in verb && verb != "OPTIONS"
    requires |d| > 0
    ensures Dispatch(verb, "/api/tasks/" + d + suffix, 0) == Dispatch(verb, "/api/tasks/" + d + suffix, 9)
  {
    var path := "/api/tasks/" + d + suffix;
    assert path[5] == 't';
    TaskPathMissesEarlier(verb, path);
  }

  /** Which task checks a path that ends in a letter misses: all four that need a number
      at the end, and the three POST item checks whose suffix ends otherwise. */
  lemma LetterEndChecks(verb: string, d: string, suffix: string)
    requires suffix != [] && !IsDigit(suffix[|suffix| - 1])
    ensures var path := "/api/tasks/" + d + suffix;
            && Check(verb, path, 9).None? && Check(verb, path, 11).None?
            && Check(verb, path, 13).None? && Check(verb, path, 15).None?
            && (suffix[|suffix| - 1] != 'g' ==> Check(verb, path, 10).None?)
            && (suffix[|suffix| - 1] != 'k' ==> Check(verb, path, 12).None?)
            && (suffix[|suffix| - 1] != 'e' ==> Check(verb, path, 14).None?)
  {
    var path := "/api/tasks/" + d + suffix;
    assert path[|path| - 1] == suffix[|suffix| - 1];
    LetterEndDigitChecks(verb, path);
    LetterEndWordChecks(verb, path);
  }

  /** A path ending in a non-digit matches none of the checks that end in a number. */
  lemma LetterEndDigitChecks(verb: string, path: string)
    requires path != [] && !IsDigit(path[|path| - 1])
    ensures Check(verb, path, 9).None? && Check(verb, path, 11).None?
    ensures Check(verb, path, 13).None? && Check(verb, path, 15).None?
  {
    IdRouteNeedsLast(path, "/api/tasks/", "");
    IdPairRouteNeedsLast(path, "/api/tasks/", "/tag/");
    IdPairRouteNeedsLast(path, "/api/tasks/", "/link/");
    IdPairRouteNeedsLast(path, "/api/tasks/", "/image/");
  }

  /** A check ending in a word misses a path whose last letter differs from the word's. */
  lemma LetterEndWordChecks(verb: string, path: string)
    requires path != []
    ensures path[|path| - 1] != 'g' ==> Check(verb, path, 10).None?
    ensures path[|path| - 1] != 'k' ==> Check(verb, path, 12).None?
    ensures path[|path| - 1] != 'e' ==> Check(verb, path, 14).None?
  {
    if path[|path| - 1] != 'g' {
      IdRouteNeedsLast(path, "/api/tasks/", "/add-tag");
    }
    if path[|path| - 1] != 'k' {
      IdRouteNeedsLast(path, "/api/tasks/", "/add-link");
    }
    if path[|path| - 1] != 'e' {
      IdRouteNeedsLast(path, "/api/tasks/", "/upload-image");
    }
  }

  lemma AddTagChecks(verb: string, d: string)
    requires |d| > 0 && AllDigits(d)
    ensures Dispatch(verb, "/api/tasks/" + d + "/add-tag", 9)
            == if verb == "POST" then OnItems(AddTag(DigitsValue(d))) else NoRoute
  {
    var path := "/api/tasks/" + d + "/add-tag";
    LetterEndChecks(verb, d, "/add-tag");
    IdRouteOf("/api/tasks/", d, "/add-tag");
    Skip(verb, path, 9);
    if verb != "POST" {
      Skip(verb, path, 10);
      Skip(verb, path, 11);
      Skip(verb, path, 12);
      Skip(verb, path, 13);
      Skip(verb, path, 14);
      Skip(verb, path, 15);
      Skip(verb, path, 16);
    }
  }

  lemma AddLinkChecks(verb: string, d: string)
    requires |d| > 0 && AllDigits(d)
    ensures Dispatch(verb, "/api/tasks/" + d + "/add-link", 9)
            == if verb == "POST" then OnItems(AddLink(DigitsValue(d))) else NoRoute
  {
    var path := "/api/tasks/" + d + "/add-link";
    LetterEndChecks(verb, d, "/add-link");
    IdRouteOf("/api/tasks/", d, "/add-link");
    Skip(verb, path, 9);
    Skip(verb, path, 10);
    Skip(verb, path, 11);
    if verb != "POST" {
      Skip(verb, path, 12);
      Skip(verb, path, 13);
      Skip(verb, path, 14);
      Skip(verb, path, 15);
      Skip(verb, path, 16);
    }
  }

  lemma TaskImageChecks(verb: string, d: string)
    requires |d| > 0 && AllDigits(d)
    ensures Dispatch(verb, "/api/tasks/" + d + "/upload-image", 9)
            == if verb == "POST" then OnItems(TaskImage(DigitsValue(d))) else NoRoute
  {
    var path := "/api/tasks/" + d + "/upload-image";
    LetterEndChecks(verb, d, "/upload-image");
    IdRouteOf("/api/tasks/", d, "/upload-image");
    Skip(verb, path, 9);
    Skip(verb, path, 10);
    Skip(verb, path, 11);
    Skip(verb, path, 12);
    Skip(verb, path, 13);
    if verb != "POST" {
      Skip(verb, path, 14);
      Skip(verb, path, 15);
      Skip(verb, path, 16);
    }
  }

  /** `/api/tasks/{id}/tag/{tagId}`, `/link/{linkId}` and `/image/{imageId}`: DELETE
      reaches `deleteTag`, `deleteLink` and `deleteImage` with the task's number first
      and the item's second; any other method (OPTIONS aside) answers 404. */
  lemma TaskItemDeleteRoutes(verb: string, d1: string, d2: string)
    requires ' ' !in verb && verb != "OPTIONS"
    requires |d1| > 0 && AllDigits(d1) && |d2| > 0 && AllDigits(d2)
    ensures Classify(verb, "/api/tasks/" + d1 + "/tag/" + d2)
            == if verb == "DELETE" then OnItems(DeleteTag(DigitsValue(d1), DigitsValue(d2))) else NoRoute
    ensures Classify(verb, "/api/tasks/" + d1 + "/link/" + d2)
            == if verb == "DELETE" then OnItems(DeleteLink(DigitsValue(d1), DigitsValue(d2))) else NoRoute
    ensures Classify(verb, "/api/tasks/" + d1 + "/image/" + d2)
            == if verb == "DELETE" then OnItems(DeleteImage(DigitsValue(d1), DigitsValue(d2))) else NoRoute
  {
    TaskPairMissesEarlier(verb, d1, "/tag/", d2);
    TaskPairMissesEarlier(verb, d1, "/link/", d2);
    TaskPairMissesEarlier(verb, d1, "/image/", d2);
    DeleteTagChecks(verb, d1, d2);
    DeleteLinkChecks(verb, d1, d2);
    DeleteImageChecks(verb, d1, d2);
  }

  /** The checks before `/api/tasks/{id}` all miss a path `/api/tasks/<d1><middle><d2>`. */
  lemma TaskPairMissesEarlier(verb: string, d1: string, middle: string, d2: string)
    requires ' ' !in verb && verb != "OPTIONS"
    requires |d1| > 0
    ensures Dispatch(verb, "/api/tasks/" + d1 + middle + d2, 0) == Dispatch(verb, "/api/tasks/" + d1 + middle + d2, 9)
  {
    var path := "/api/tasks/" + d1 + middle + d2;
    assert path[5] == 't';
    TaskPathMissesEarlier(verb, path);
  }

  /** Which task checks a path `/api/tasks/<d1><middle><d2>` misses: `/api/tasks/{id}`,
      for the slash after the first number, and the three POST item checks, for the
      digit at the end. */
  lemma DigitEndChecks(verb: string, d1: string, middle: string, d2: string)
    requires middle != [] && middle[0] == '/'
    requires |d1| > 0 && AllDigits(d1) && |d2| > 0 && AllDigits(d2)
    ensures var path := "/api/tasks/" + d1 + middle + d2;
            && Check(verb, path, 9).None? && Check(verb, path, 10).None?
            && Check(verb, path, 12).None? && Check(verb, path, 14).None?
  {
    var path := "/api/tasks/" + d1 + middle + d2;
    assert path[11 + |d1|] == '/';
    assert path[|path| - 1] == d2[|d2| - 1];
    IdRouteNeedsDigit(path, "/api/tasks/", 11 + |d1|);
    IdRouteNeedsLast(path, "/api/tasks/", "/add-tag");
    IdRouteNeedsLast(path, "/api/tasks/", "/add-link");
    IdRouteNeedsLast(path, "/api/tasks/", "/upload-image");
  }

  /** The three DELETE item checks miss every path when the method is another. */
  lemma PairChecksNeedDelete(verb: string, path: string)
    requires verb != "DELETE"
    ensures Check(verb, path, 11).None? && Check(verb, path, 13).None? && Check(verb, path, 15).None?
  {
  }

  /** A path `/api/tasks/<d1>/tag/<d2>` misses the DELETE checks for links and images;
      likewise for `/link/` and `/image/`. */
  lemma TagPairChecks(verb: string, d1: string, d2: string)
    requires |d1| > 0 && AllDigits(d1)
    ensures var path := "/api/tasks/" + d1 + "/tag/" + d2;
            Check(verb, path, 13).None? && Check(verb, path, 15).None?
  {
    IdPairRouteNeedsMiddle("/api/tasks/", d1, "/tag/", d2, "/link/", 1);
    IdPairRouteNeedsMiddle("/api/tasks/", d1, "/tag/", d2, "/image/", 1);
  }

  lemma DeleteTagSelected(verb: string, path: string, taskId: int, itemId: int)
    requires verb == "DELETE"
    requires IdPairRoute(path, "/api/tasks/", "/tag/") == Some((taskId, itemId))
    ensures Check(verb, path, 11) == Some(OnItems(DeleteTag(taskId, itemId)))
  {
  }

  lemma LinkPairChecks(verb: string, d1: string, d2: string)
    requires |d1| > 0 && AllDigits(d1)
    ensures var path := "/api/tasks/" + d1 + "/link/" + d2;
            Check(verb, path, 11).None? && Check(verb, path, 15).None?
  {
    IdPairRouteNeedsMiddle("/api/tasks/", d1, "/link/", d2, "/tag/", 1);
    IdPairRouteNeedsMiddle("/api/tasks/", d1, "/link/", d2, "/image/", 1);
  }

  lemma DeleteLinkSelected(verb: string, path: string, taskId: int, itemId: int)
    requires verb == "DELETE"
    requires IdPairRoute(path, "/api/tasks/", "/link/") == Some((taskId, itemId))
    ensures Check(verb, path, 13) == Some(OnItems(DeleteLink(taskId, itemId)))
  {
  }

  lemma ImagePairChecks(verb: string, d1: string, d2: string)
    requires |d1| > 0 && AllDigits(d1)
    ensures var path := "/api/tasks/" + d1 + "/image/" + d2;
            Check(verb, path, 11).None? && Check(verb, path, 13).None?
  {
    IdPairRouteNeedsMiddle("/api/tasks/", d1, "/image/", d2, "/tag/", 1);
    IdPairRouteNeedsMiddle("/api/tasks/", d1, "/image/", d2, "/link/", 1);
  }

  lemma DeleteImageSelected(verb: string, path: string, taskId: int, itemId: int)
    requires verb == "DELETE"
    requires IdPairRoute(path, "/api/tasks/", "/image/") == Some((taskId, itemId))
    ensures Check(verb, path, 15) == Some(OnItems(DeleteImage(taskId, itemId)))
  {
  }

  lemma DeleteTagChecks(verb: string, d1: string, d2: string)
    requires |d1| > 0 && AllDigits(d1) && |d2| > 0 && AllDigits(d2)
    ensures Dispatch(verb, "/api/tasks/" + d1 + "/tag/" + d2, 9)
            == if verb == "DELETE" then OnItems(DeleteTag(DigitsValue(d1), DigitsValue(d2))) else NoRoute
  {
    var path := "/api/tasks/" + d1 + "/tag/" + d2;
    DigitEndChecks(verb, d1, "/tag/", d2);
    TagPairChecks(verb, d1, d2);
    Skip(verb, path, 9);
    Skip(verb, path, 10);
    if verb == "DELETE" {
      IdPairRouteOf("/api/tasks/", d1, "/tag/", d2);
      DeleteTagSelected(verb, path, DigitsValue(d1), DigitsValue(d2));
    } else {
      PairChecksNeedDelete(verb, path);
      Skip(verb, path, 11);
      Skip(verb, path, 12);
      Skip(verb, path, 13);
      Skip(verb, path, 14);
      Skip(verb, path, 15);
      Skip(verb, path, 16);
    }
  }

  lemma DeleteLinkChecks(verb: string, d1: string, d2: string)
    requires |d1| > 0 && AllDigits(d1) && |d2| > 0 && AllDigits(d2)
    ensures Dispatch(verb, "/api/tasks/" + d1 + "/link/" + d2, 9)
            == if verb == "DELETE" then OnItems(DeleteLink(DigitsValue(d1), DigitsValue(d2))) else NoRoute
  {
    var path := "/api/tasks/" + d1 + "/link/" + d2;
    DigitEndChecks(verb, d1, "/link/", d2);
    LinkPairChecks(verb, d1, d2);
    Skip(verb, path, 9);
    Skip(verb, path, 10);
    Skip(verb, path, 11);
    Skip(verb, path, 12);
    if verb == "DELETE" {
      IdPairRouteOf("/api/tasks/", d1, "/link/", d2);
      DeleteLinkSelected(verb, path, DigitsValue(d1), DigitsValue(d2));
    } else {
      PairChecksNeedDelete(verb, path);
      Skip(verb, path, 13);
      Skip(verb, path, 14);
      Skip(verb, path, 15);
      Skip(verb, path, 16);
    }
  }

  lemma DeleteImageChecks(verb: string, d1: string, d2: string)
    requires |d1| > 0 && AllDigits(d1) && |d2| > 0 && AllDigits(d2)
    ensures Dispatch(verb, "/api/tasks/" + d1 + "/image/" + d2, 9)
            == if verb == "DELETE" then OnItems(DeleteImage(DigitsValue(d1), DigitsValue(d2))) else NoRoute
  {
    var path := "/api/tasks/" + d1 + "/image/" + d2;
    DigitEndChecks(verb, d1, "/image/", d2);
    ImagePairChecks(verb, d1, d2);
    Skip(verb, path, 9);
    Skip(verb, path, 10);
    Skip(verb, path, 11);
    Skip(verb, path, 12);
    Skip(verb, path, 13);
    Skip(verb, path, 14);
    if verb == "DELETE" {
      IdPairRouteOf("/api/tasks/", d1, "/image/", d2);
      DeleteImageSelected(verb, path, DigitsValue(d1), DigitsValue(d2));
    } else {
      PairChecksNeedDelete(verb, path);
      Skip(verb, path, 15);
      Skip(verb, path, 16);
    }
  }

  /** No route ends with a slash: `/api/projects/` and `/api/tasks/5/` answer 404. */
  lemma TrailingSlashNotRouted(verb: string, path: string)
    requires ' ' !in verb && verb != "OPTIONS"
    requires path != [] && path[|path| - 1] == '/'
    ensures Classify(verb, path) == NoRoute
  {
    TrailingSlashEarly(verb, path);
    TrailingSlashLate(verb, path);
  }

  lemma TrailingSlashEarly(verb: string, path: string)
    requires ' ' !in verb && verb != "OPTIONS"
    requires path != [] && path[|path| - 1] == '/'
    ensures Dispatch(verb, path, 0) == Dispatch(verb, path, 9)
  {
    var n := |path| - 1;
    KeyMisses(verb, path, "POST", "/api/auth/register", n);
    KeyMisses(verb, path, "POST", "/api/auth/login", n);
    KeyMisses(verb, path, "GET", "/api/auth/me", n);
    KeyMisses(verb, path, "GET", "/api/projects", n);
    KeyMisses(verb, path, "POST", "/api/projects", n);
    KeyMisses(verb, path, "POST", "/api/tasks", n);
    IdRouteNeedsLast(path, "/api/projects/", "");
    IdRouteNeedsLast(path, "/api/projects/", "/upload-image");
    Skip(verb, path, 0);
    Skip(verb, path, 1);
    Skip(verb, path, 2);
    Skip(verb, path, 3);
    Skip(verb, path, 4);
    Skip(verb, path, 5);
    Skip(verb, path, 6);
    Skip(verb, path, 7);
    Skip(verb, path, 8);
  }

  lemma TrailingSlashLate(verb: string, path: string)
    requires path != [] && path[|path| - 1] == '/'
    ensures Dispatch(verb, path, 9) == NoRoute
  {
    IdRouteNeedsLast(path, "/api/tasks/", "");
    IdRouteNeedsLast(path, "/api/tasks/", "/add-tag");
    IdPairRouteNeedsLast(path, "/api/tasks/", "/tag/");
    IdRouteNeedsLast(path, "/api/tasks/", "/add-link");
    IdPairRouteNeedsLast(path, "/api/tasks/", "/link/");
    IdRouteNeedsLast(path, "/api/tasks/", "/upload-image");
    IdPairRouteNeedsLast(path, "/api/tasks/", "/image/");
    Skip(verb, path, 9);
    Skip(verb, path, 10);
    Skip(verb, path, 11);
    Skip(verb, path, 12);
    Skip(verb, path, 13);
    Skip(verb, path, 14);
    Skip(verb, path, 15);
    Skip(verb, path, 16);
  }

  /** Only the preflight and the two public routes are served without a user. */
  predicate NeedsUser(r: Route) {
    !(r == Preflight || r == Register || r == Login)
  }

  /** The routes that only read. */
  predicate ReadOnly(r: Route) {
    r == Me || r == OnProjects(ListProjects) || (r.OnProjects? && r.p.GetProject?) || (r.OnTasks? && r.t.GetTask?)
    || r == NoRoute
  }

  // ---------------------------------------------------------------- responses

  const Unauthorized := Error("Unauthorized", 401)
  const NoSuchRoute := Error("Not found", 404)
  const ImageRequired := Error("Image file is required", 422)

  /** `Http::json($service->...($...), $status)` for a service that returns a user. */
  function UserReply(r: Outcome<UserView>, status: int): Response {
    if r.Ok? then Http.Json(UserBody(r.value), status) else r.response
  }

  function ProjectReply(r: Outcome<ProjectView>, status: int): Response {
    if r.Ok? then Http.Json(ProjectBody(r.value), status) else r.response
  }

  function TaskReply(r: Outcome<TaskView>, status: int): Response {
    if r.Ok? then Http.Json(TaskBody(r.value), status) else r.response
  }

  /** `$service->delete(...); Http::json(['success' => true]);` */
  function DoneReply(r: Outcome<()>): Response {
    if r.Ok? then Http.Json(SuccessBody) else r.response
  }

  // ---------------------------------------------------------------- handlers

  /** The two public routes: `register` answers 201, `login` 200. */
  method Public(db: Database, cfg: Config, o: Oracles, route: Route, body: Json) returns (resp: Response)
    requires route == Register || route == Login
    requires db.Valid()
    modifies db`users, db`nextUserId
    ensures db.Valid()
    ensures route == Register ==>
              var e := Auth.Registration(old(db.users), old(db.nextUserId), cfg, o, body);
              && resp == (if e.Ok? then Http.Json(UserBody(Auth.FormatUser(e.value)), 201) else e.response)
              && (e.Ok? ==> db.users == old(db.users) + [e.value])
              && (e.Exit? ==> db.users == old(db.users) && db.nextUserId == old(db.nextUserId))
    ensures route == Login ==>
              var e := Auth.LoginResult(old(db.users), cfg, o, body);
              && resp == (if e.Ok? then Http.Json(UserBody(Auth.FormatUser(e.value))) else e.response)
              && (e.Ok? ==> db.users == SetToken(old(db.users), e.value.id, e.value.token))
              && (e.Exit? ==> db.users == old(db.users))
              && db.nextUserId == old(db.nextUserId)
  {
    if route == Register {
      var r := Auth.Register(db, cfg, o, body);
      resp := UserReply(r, 201);
    } else {
      var r := Auth.Login(db, cfg, o, body);
      resp := UserReply(r, 200);
    }
  }

  /** The routes that only read, served from what a `SELECT` sees: the project list, one
      project, one task, and the 404 of an unknown route. */
  method ServeReads(db: Database, userId: int, route: Route) returns (resp: Response)
    requires ReadOnly(route) && route != Me
    ensures route == OnProjects(ListProjects) ==> resp == Http.Json(ProjectListBody(Projects.List(db.Snapshot(), userId)))
    ensures route.OnProjects? && route.p.GetProject? ==>
              resp == ProjectReply(Projects.Get(db.Snapshot(), userId, route.p.id), 200)
    ensures route.OnTasks? && route.t.GetTask? ==> resp == TaskReply(Tasks.Get(db.Snapshot(), route.t.id, userId), 200)
    ensures route == NoRoute ==> resp == NoSuchRoute
  {
    match route
    case OnProjects(p) =>
      if p == ListProjects {
        resp := Http.Json(ProjectListBody(Projects.List(db.Snapshot(), userId)));
      } else {
        resp := ProjectReply(Projects.Get(db.Snapshot(), userId, p.id), 200);
      }
    case OnTasks(t) =>
      resp := TaskReply(Tasks.Get(db.Snapshot(), t.id, userId), 200);
    case NoRoute =>
      resp := NoSuchRoute;
  }

  /** The project routes that write. An upload without a file, or one that `save`
      rejects, ends the request before the project is looked up. */
  method ServeProjects(db: Database, cfg: Config, o: Oracles, userId: int, route: ProjectRoute, body: Json,
                       image: Option<UploadedFile>) returns (resp: Response)
    requires route != ListProjects && !route.GetProject?
    requires db.Valid()
    modifies db`projects, db`nextProjectId
    ensures db.Valid()
    ensures route == CreateProject ==>
              var c := Required(body, Projects.CreateFields);
              var row := Projects.NewProject(old(db.nextProjectId), userId, body, o.now);
              && (c.Fail? ==> resp == c.response && db.projects == old(db.projects) && db.nextProjectId == old(db.nextProjectId))
              && (c.Pass? ==>
                    db.projects == old(db.projects) + [row]
                    && resp == Http.Json(ProjectBody(Projects.FormatProject(db.tasks, row)), 201))
    ensures route != CreateProject ==> db.nextProjectId == old(db.nextProjectId)
    ensures route.UpdateProject? ==>
              var found := Projects.FindProject(old(db.projects), route.id, userId);
              && (found.None? ==> resp == Projects.NotFound && db.projects == old(db.projects))
              && (found.Some? ==>
                    var q := Projects.ApplyUpdate(found.value, body);
                    && db.projects == UpdateProjects(old(db.projects), route.id, userId, q.title, q.description, q.image, q.link)
                    && resp == Http.Json(ProjectBody(Projects.FormatProject(db.tasks, q))))
    ensures route.DeleteProject? ==>
              var found := Projects.FindProject(old(db.projects), route.id, userId);
              && (found.None? ==> resp == Projects.NotFound && db.projects == old(db.projects))
              && (found.Some? ==> resp == Http.Json(SuccessBody) && db.projects == DeleteProjects(old(db.projects), route.id, userId))
    ensures route.ProjectImage? && image.None? ==>
              resp == ImageRequired && db.projects == old(db.projects)
    ensures route.ProjectImage? && image.Some? && Save(cfg, o, "projects", image.value).Exit? ==>
              resp == Save(cfg, o, "projects", image.value).response && db.projects == old(db.projects)
    ensures route.ProjectImage? && image.Some? && Save(cfg, o, "projects", image.value).Ok? ==>
              var found := Projects.FindProject(old(db.projects), route.id, userId);
              var path := Save(cfg, o, "projects", image.value).value;
              && (found.None? ==> resp == Projects.NotFound && db.projects == old(db.projects))
              && (found.Some? ==>
                    db.projects == SetProjectImage(old(db.projects), route.id, userId, Text(path))
                    && resp == Http.Json(ProjectBody(Projects.FormatProject(db.tasks, found.value.(image := Text(path))))))
  {
    match route
    case CreateProject =>
      var r := Projects.Create(db, o, userId, body);
      resp := ProjectReply(r, 201);
    case UpdateProject(id) =>
      var r := Projects.Update(db, userId, id, body);
      resp := ProjectReply(r, 200);
    case DeleteProject(id) =>
      var r := Projects.Delete(db, userId, id);
      resp := DoneReply(r);
    case ProjectImage(id) =>
      if image.None? {
        return ImageRequired;
      }
      var saved := Save(cfg, o, "projects", image.value);
      if saved.Exit? {
        return saved.response;
      }
      var r := Projects.AttachImage(db, userId, id, saved.value);
      resp := ProjectReply(r, 200);
  }

  /** `POST /api/tasks`: the gate checks the body and the project first; the task row is
      inserted before its tags and links, so a tag or link without its field leaves the
      task and the children before it in place and answers 422. */
  method ServeNewTask(db: Database, o: Oracles, userId: int, body: Json) returns (resp: Response)
    requires db.Valid()
    modifies db`tasks, db`nextTaskId, db`tags, db`nextTagId, db`links, db`nextLinkId
    ensures db.Valid()
    ensures var gate := Tasks.CreateGate(old(db.projects), userId, body);
            var row := Tasks.NewTask(old(db.nextTaskId), body, o.now);
            var nt := Tasks.Accepted(Tasks.TagItems(body), Tasks.TagChild);
            var nl := Tasks.Accepted(Tasks.LinkItems(body), Tasks.LinkChild);
            var complete := nt == |Tasks.TagItems(body)| && nl == |Tasks.LinkItems(body)|;
            && (gate.Fail? ==>
                  resp == gate.response && db.tasks == old(db.tasks) && db.tags == old(db.tags) && db.links == old(db.links))
            && (gate.Pass? ==>
                  && db.tasks == old(db.tasks) + [row]
                  && db.tags == old(db.tags) + Tasks.NewTags(old(db.nextTagId), row.id, Tasks.TagItems(body)[..nt])
                  && (nt < |Tasks.TagItems(body)| ==> db.links == old(db.links))
                  && (nt == |Tasks.TagItems(body)| ==>
                        db.links == old(db.links) + Tasks.NewLinks(old(db.nextLinkId), row.id, Tasks.LinkItems(body)[..nl])))
            && (gate.Pass? && complete ==> resp == Http.Json(TaskBody(Tasks.FormatTask(db.Snapshot(), row)), 201))
            && (gate.Pass? && !complete ==> resp.status == 422)
  {
    var r := Tasks.Create(db, o, userId, body);
    resp := TaskReply(r, 201);
  }

  /** The routes that update or delete one task. */
  method ServeTasks(db: Database, userId: int, route: TaskRoute, body: Json) returns (resp: Response)
    requires route.UpdateTask? || route.DeleteTask?
    requires db.Valid()
    modifies db`tasks
    ensures db.Valid()
    ensures route.UpdateTask? ==>
              var found := Tasks.FindTask(old(db.projects), old(db.tasks), route.id, userId);
              && (found.None? ==> resp == Tasks.TaskNotFound && db.tasks == old(db.tasks))
              && (found.Some? && Tasks.StatusRejected(body) ==> resp == Tasks.InvalidStatus && db.tasks == old(db.tasks))
              && (found.Some? && !Tasks.StatusRejected(body) ==>
                    var q := Tasks.ApplyUpdate(found.value, body);
                    && db.tasks == UpdateTasks(old(db.tasks), route.id, q.title, q.description, q.status, q.deadline)
                    && resp == Http.Json(TaskBody(Tasks.FormatTask(db.Snapshot(), q))))
    ensures route.DeleteTask? ==>
              var found := Tasks.FindTask(old(db.projects), old(db.tasks), route.id, userId);
              && (found.None? ==> resp == Tasks.TaskNotFound && db.tasks == old(db.tasks))
              && (found.Some? ==> resp == Http.Json(SuccessBody) && db.tasks == DeleteTasks(old(db.tasks), route.id))
  {
    match route
    case UpdateTask(id) =>
      var r := Tasks.Update(db, userId, id, body);
      resp := TaskReply(r, 200);
    case DeleteTask(id) =>
      var r := Tasks.Delete(db, userId, id);
      resp := DoneReply(r);
  }

  /** The tag routes of a task: `add-tag` checks the body before it looks the task up. */
  method ServeTags(db: Database, userId: int, route: ItemRoute, body: Json) returns (resp: Response)
    requires route.AddTag? || route.DeleteTag?
    requires db.Valid()
    modifies db`tags, db`nextTagId
    ensures db.Valid()
    ensures route.AddTag? ==>
              var gate := Tasks.AddTagGate(db.projects, db.tasks, userId, route.taskId, body);
              && (gate.Fail? ==> resp == gate.response && db.tags == old(db.tags))
              && (gate.Pass? ==>
                    db.tags == old(db.tags) + [TagRow(old(db.nextTagId), route.taskId, ToText(Field(body, "tag")))]
                    && resp == Http.Json(TaskBody(Tasks.FormatTask(db.Snapshot(), Tasks.FindTask(db.projects, db.tasks, route.taskId, userId).value))))
    ensures route.DeleteTag? ==>
              var found := Tasks.FindTask(db.projects, db.tasks, route.taskId, userId);
              && (found.None? ==> resp == Tasks.TaskNotFound && db.tags == old(db.tags))
              && (found.Some? ==>
                    db.tags == DeleteTags(old(db.tags), route.tagId, route.taskId)
                    && resp == Http.Json(TaskBody(Tasks.FormatTask(db.Snapshot(), found.value))))
  {
    if route.AddTag? {
      var r := Tasks.AddTag(db, userId, route.taskId, body, true);
      if r.Exit? {
        return r.response;
      }
      resp := Http.Json(TaskBody(r.value.value));
    } else {
      var r := Tasks.DeleteTag(db, userId, route.taskId, route.tagId);
      resp := TaskReply(r, 200);
    }
  }

  /** The link routes of a task: `add-link` checks the body before it looks the task up. */
  method ServeLinks(db: Database, userId: int, route: ItemRoute, body: Json) returns (resp: Response)
    requires route.AddLink? || route.DeleteLink?
    requires db.Valid()
    modifies db`links, db`nextLinkId
    ensures db.Valid()
    ensures route.AddLink? ==>
              var gate := Tasks.AddLinkGate(db.projects, db.tasks, userId, route.taskId, body);
              && (gate.Fail? ==> resp == gate.response && db.links == old(db.links))
              && (gate.Pass? ==>
                    db.links == old(db.links) + [Tasks.NewLink(old(db.nextLinkId), route.taskId, body)]
                    && resp == Http.Json(TaskBody(Tasks.FormatTask(db.Snapshot(), Tasks.FindTask(db.projects, db.tasks, route.taskId, userId).value))))
    ensures route.DeleteLink? ==>
              var found := Tasks.FindTask(db.projects, db.tasks, route.taskId, userId);
              && (found.None? ==> resp == Tasks.TaskNotFound && db.links == old(db.links))
              && (found.Some? ==>
                    db.links == DeleteLinks(old(db.links), route.linkId, route.taskId)
                    && resp == Http.Json(TaskBody(Tasks.FormatTask(db.Snapshot(), found.value))))
  {
    if route.AddLink? {
      var r := Tasks.AddLink(db, userId, route.taskId, body, true);
      if r.Exit? {
        return r.response;
      }
      resp := Http.Json(TaskBody(r.value.value));
    } else {
      var r := Tasks.DeleteLink(db, userId, route.taskId, route.linkId);
      resp := TaskReply(r, 200);
    }
  }

  /** The image routes of a task: an upload without a file, or one that `save` rejects,
      ends the request before the task is looked up. */
  method ServeImages(db: Database, cfg: Config, o: Oracles, userId: int, route: ItemRoute, image: Option<UploadedFile>)
    returns (resp: Response)
    requires route.TaskImage? || route.DeleteImage?
    requires db.Valid()
    modifies db`images, db`nextImageId
    ensures db.Valid()
    ensures route.TaskImage? && image.None? ==>
              resp == ImageRequired && db.images == old(db.images)
    ensures route.TaskImage? && image.Some? && Save(cfg, o, "tasks", image.value).Exit? ==>
              resp == Save(cfg, o, "tasks", image.value).response && db.images == old(db.images)
    ensures route.TaskImage? && image.Some? && Save(cfg, o, "tasks", image.value).Ok? ==>
              var found := Tasks.FindTask(db.projects, db.tasks, route.taskId, userId);
              var path := Save(cfg, o, "tasks", image.value).value;
              && (found.None? ==> resp == Tasks.TaskNotFound && db.images == old(db.images))
              && (found.Some? ==>
                    db.images == old(db.images) + [ImageRow(old(db.nextImageId), route.taskId, path, o.now)]
                    && resp == Http.Json(TaskBody(Tasks.FormatTask(db.Snapshot(), found.value))))
    ensures route.DeleteImage? ==>
              var found := Tasks.FindTask(db.projects, db.tasks, route.taskId, userId);
              && (found.None? ==> resp == Tasks.TaskNotFound && db.images == old(db.images))
              && (found.Some? ==>
                    db.images == DeleteImages(old(db.images), route.imageId, route.taskId)
                    && resp == Http.Json(TaskBody(Tasks.FormatTask(db.Snapshot(), found.value))))
  {
    if route.DeleteImage? {
      var r := Tasks.DeleteImage(db, userId, route.taskId, route.imageId);
      return TaskReply(r, 200);
    }
    if image.None? {
      return ImageRequired;
    }
    var saved := Save(cfg, o, "tasks", image.value);
    if saved.Exit? {
      return saved.response;
    }
    var r := Tasks.AddImage(db, o, userId, route.taskId, saved.value);
    resp := TaskReply(r, 200);
  }

  /** The request handling of the front controller: the preflight answers 204 before anything
      else; the public routes are served before the token is checked; every other route,
      the unknown ones included, needs a user, and an unknown route then answers 404. */
  method Handle(db: Database, cfg: Config, o: Oracles, req: Request) returns (resp: Response)
    requires db.Valid()
    modifies db
    ensures db.Valid()
    ensures req.verb == "OPTIONS" ==> resp == Response(204, NoBody) && unchanged(db)
    ensures NeedsUser(Classify(req.verb, req.path)) && Auth.Authenticate(old(db.users), req.authorization).Exit? ==>
              resp == Unauthorized && unchanged(db)
    ensures Classify(req.verb, req.path) == Me && Auth.Authenticate(old(db.users), req.authorization).Ok? ==>
              resp == Http.Json(UserBody(Auth.Me(Auth.Authenticate(old(db.users), req.authorization).value)))
    ensures Classify(req.verb, req.path) == NoRoute && Auth.Authenticate(old(db.users), req.authorization).Ok? ==>
              resp == NoSuchRoute
    ensures ReadOnly(Classify(req.verb, req.path)) ==> unchanged(db)
  {
    var route := Classify(req.verb, req.path);
    if route == Preflight {
      return Response(204, NoBody);
    }
    var body := GetJsonBody(req.contentType, req.input, req.decoded);
    if route == Register || route == Login {
      resp := Public(db, cfg, o, route, body);
      return;
    }
    var auth := Auth.Authenticate(db.users, req.authorization);
    if auth.Exit? {
      return auth.response;
    }
    if route == Me {
      return Http.Json(UserBody(Auth.Me(auth.value)));
    }
    resp := Serve(db, cfg, o, auth.value.id, route, body, req.image);
  }

  /** The routes that need a user, once the user is known. */
  method Serve(db: Database, cfg: Config, o: Oracles, userId: int, route: Route, body: Json, image: Option<UploadedFile>)
    returns (resp: Response)
    requires route.OnProjects? || route.OnTasks? || route.OnItems? || route == NoRoute
    requires db.Valid()
    modifies db
    ensures db.Valid()
    ensures route == NoRoute ==> resp == NoSuchRoute
    ensures ReadOnly(route) ==> unchanged(db)
  {
    if ReadOnly(route) {
      resp := ServeReads(db, userId, route);
      return;
    }
    match route
    case OnProjects(p) =>
      resp := ServeProjects(db, cfg, o, userId, p, body, image);
    case OnTasks(t) =>
      if t == CreateTask {
        resp := ServeNewTask(db, o, userId, body);
      } else {
        resp := ServeTasks(db, userId, t, body);
      }
    case OnItems(i) =>
      if i.AddTag? || i.DeleteTag? {
        resp := ServeTags(db, userId, i, body);
      } else if i.AddLink? || i.DeleteLink? {
        resp := ServeLinks(db, userId, i, body);
      } else {
        resp := ServeImages(db, cfg, o, userId, i, image);
      }
  }
}
