/** The request side of the backend: the read-through cache, the bearer-token
    gate, the route table and the GET/PUT switch of the item routes. */
module Server {
  import opened Wrappers
  import opened GoText
  import opened Models
  import opened Storage
  import opened Handlers

  /** The cache's default expiration, five minutes, on a nanosecond clock. */
  const TTL: nat := 5 * 60 * 1_000_000_000

  datatype Item<V> = Item(value: V, expiration: int)

  /** Get on the cache: an item counts only until its expiration time; one
      whose expiration is 0 or less never expires. */
  function LiveValue<V>(items: map<string, Item<V>>, key: string, now: int): (r: Option<V>)
    ensures r.Some? <==>
      key in items && (items[key].expiration <= 0 || now <= items[key].expiration)
    ensures r.Some? ==> r.value == items[key].value
  {
    if key in items && (items[key].expiration <= 0 || now <= items[key].expiration)
    then Some(items[key].value) else None
  }

  /** After a Set at time t, the key answers with its value up to t + TTL and
      not after, and every other key answers as before. */
  lemma LiveValueAfterSet<V>(items: map<string, Item<V>>, key: string, v: V, t: nat, later: int,
                          other: string)
    requires other != key
    ensures LiveValue(items[key := Item(v, t + TTL)], key, later) ==
      if later <= t + TTL then Some(v) else None
    ensures LiveValue(items[key := Item(v, t + TTL)], other, later) == LiveValue(items, other, later)
  {
  }

  /** The process-wide cache with its clock. The background sweep of expired
      items is not modelled: it changes no answer of Get. */
  class Cache<V> {
    var items: map<string, Item<V>>
    var now: nat

    constructor (start: nat)
      ensures items == map[] && now == start
    {
      items := map[];
      now := start;
    }

    function Get(key: string): Option<V>
      reads this
    {
      LiveValue(items, key, now)
    }

    /** Time passes. */
    method Advance(dt: nat)
      modifies this`now
      ensures now == old(now) + dt
    {
      now := now + dt;
    }

    /** getCachedData: a live entry is returned without calling fetch
        (fetched is false); otherwise fetch runs, and only a successful
        result is stored, under this key alone, for TTL. */
    method GetCachedData(key: string, fetch: () -> Result<V, string>)
      returns (r: Result<V, string>, fetched: bool)
      modifies this`items
      ensures old(Get(key)).Some? ==> !fetched && r == Ok(old(Get(key)).value) && items == old(items)
      ensures old(Get(key)).None? ==> fetched && r == fetch()
      ensures old(Get(key)).None? && r.Ok? ==> items == old(items)[key := Item(r.value, now + TTL)]
      ensures old(Get(key)).None? && r.Err? ==> items == old(items)
    {
      var hit := Get(key);
      if hit.Some? {
        return Ok(hit.value), false;
      }
      r := fetch();
      fetched := true;
      if r.Ok? {
        items := items[key := Item(r.value, now + TTL)];
      }
    }
  }

  /** What the token parser says of a token: an error from Parse, parsed but
      with claims that are not valid, or valid. */
  datatype TokenCheck = ParseFailed | ClaimsInvalid | Verified

  /** authMiddleware: None lets the request through to the wrapped handler,
      Some(r) answers r instead. */
  function AuthGate(header: string, check: string -> TokenCheck): (rejection: Option<Response>)
    ensures header == "" ==> rejection == Some(Error(401, "Authorization header is required"))
    ensures rejection.Some? ==> rejection.value.status == 401 && !rejection.value.notify
  {
    if header == "" then Some(Error(401, "Authorization header is required"))
    else
      var parts := Split(header, ' ');
      if |parts| != 2 || parts[0] != "Bearer" then
        Some(Error(401, "Invalid authorization header format"))
      else
        match check(parts[1])
        case ParseFailed => Some(Error(401, "Invalid token"))
        case ClaimsInvalid => Some(Error(401, "Invalid token claims"))
        case Verified => None
  }

  /** The token of a well-formed header: "Bearer", one space, and a token
      with no further space. */
  function BearerToken(header: string): Option<string>
  {
    if |header| >= 7 && header[..7] == "Bearer " && ' ' !in header[7..]
    then Some(header[7..]) else None
  }

  /** The wrapped handler runs exactly when the header is well formed and its
      token verifies. */
  lemma GatePassesIff(header: string, check: string -> TokenCheck)
    ensures AuthGate(header, check).None? <==>
      BearerToken(header).Some? && check(BearerToken(header).value) == Verified
  {
    var parts := Split(header, ' ');
    if |parts| == 2 && parts[0] == "Bearer" {
      JoinOfSplit(header, ' ');
      assert header == "Bearer" + [' '] + parts[1];
      assert header[..7] == "Bearer " && header[7..] == parts[1];
      assert ' ' !in parts[1];
    }
    if BearerToken(header).Some? {
      var t := header[7..];
      var ps := ["Bearer", t];
      assert forall i :: 0 <= i < |ps| ==> ' ' !in ps[i];
      SplitOfJoin(ps, ' ');
      assert ps[1..] == [t];
      assert header == header[..7] + t;
      assert Join(ps, ' ') == header;
    }
  }

  /** A lower-case scheme and a double space are both turned away. */
  lemma GateRejectsMalformed(check: string -> TokenCheck, token: string)
    ensures AuthGate("bearer " + token, check).Some?
    ensures AuthGate("Bearer  " + token, check).Some?
  {
    GatePassesIff("bearer " + token, check);
    GatePassesIff("Bearer  " + token, check);
    assert ("bearer " + token)[..7] != "Bearer " by {
      assert ("bearer " + token)[0] == 'b';
    }
    assert ' ' in ("Bearer  " + token)[7..] by {
      assert ("Bearer  " + token)[7..][0] == ' ';
    }
  }

  /** The handlers the route table names. */
  datatype Handler =
    | LoginHandler
    | ListUsers
    | ListKind(kind: Kind)
    | CreateUserHandler
    | CreateKind(kind: Kind)
    | DeleteSkillHandler
    | ItemHandler

  /** A route: its handler and whether authMiddleware wraps it. */
  datatype Route = Route(handler: Handler, protected: bool)

  /** The route table of main. The mux's patterns are read segment by
      segment: "/<kind>" is the list, "/<kind>/create" the create, and every
      other path under the prefix "/<kind>/" is an item route. The exact
      paths take precedence; None is the mux's 404. */
  function RouteOf(path: string): (r: Option<Route>)
    ensures r.Some? ==>
      (r.value.protected <==> !(r.value.handler.LoginHandler? || r.value.handler.ListUsers? ||
                                r.value.handler.ListKind?))
  {
    var parts := Split(path, '/');
    if path == "/login" then Some(Route(LoginHandler, false))
    else if path == "/users" then Some(Route(ListUsers, false))
    else if path == "/users/create" then Some(Route(CreateUserHandler, true))
    else if path == "/skills/delete" then Some(Route(DeleteSkillHandler, true))
    else if |parts| >= 2 && parts[0] == "" then
      match ParseKind(parts[1])
      case None => None
      case Some(k) =>
        if |parts| == 2 then Some(Route(ListKind(k), false))
        else if |parts| == 3 && parts[2] == "create" then Some(Route(CreateKind(k), true))
        else Some(Route(ItemHandler, true))
    else None
  }

  lemma ListPathSplits(k: Kind)
    ensures Split("/" + KindName(k), '/') == ["", KindName(k)]
  {
    var parts := ["", KindName(k)];
    assert forall i :: 0 <= i < |parts| ==> '/' !in parts[i];
    SplitOfJoin(parts, '/');
    assert parts[1..] == [KindName(k)];
    assert Join(parts, '/') == "/" + KindName(k);
  }

  /** The first character after the root slash tells the kind paths apart
      from the fixed paths. */
  lemma NotFixedPath(k: Kind, path: string)
    requires 2 <= |path| && path[..2] == "/" + [KindName(k)[0]]
    ensures path != "/login" && path != "/users" && path != "/users/create"
  {
    assert "/login"[..2] == "/l" && "/users"[..2] == "/u" && "/users/create"[..2] == "/u";
    assert KindName(k)[0] != 'l' && KindName(k)[0] != 'u';
    assert path[1] == KindName(k)[0];
  }

  /** Each kind's list route is open. */
  lemma ListRoute(k: Kind)
    ensures RouteOf("/" + KindName(k)) == Some(Route(ListKind(k), false))
  {
    var path := "/" + KindName(k);
    ParseKindExact(KindName(k), k);
    ListPathSplits(k);
    NotFixedPath(k, path);
    assert path != "/skills/delete" by {
      assert |path| <= 14 && (k == SkillKind ==> |path| == 7);
    }
  }

  /** Each kind's create route is wrapped. */
  lemma CreateRoute(k: Kind)
    ensures RouteOf(ItemPath(k, "create")) == Some(Route(CreateKind(k), true))
  {
    var path := ItemPath(k, "create");
    ParseKindExact(KindName(k), k);
    ItemPathSplits(k, "create");
    NotFixedPath(k, path);
    assert path != "/skills/delete" by {
      assert "/skills/delete"[1] == 's' && "/skills/delete"[8] == 'd';
      assert path[1] == KindName(k)[0];
      if k == SkillKind { assert path[8] == 'c'; }
    }
  }

  /** Every item path of a kind is wrapped. */
  lemma ItemRoute(k: Kind, id: string)
    requires '/' !in id && id != "create" && !(k == SkillKind && id == "delete")
    ensures RouteOf(ItemPath(k, id)) == Some(Route(ItemHandler, true))
  {
    var path := ItemPath(k, id);
    ParseKindExact(KindName(k), k);
    ItemPathSplits(k, id);
    NotFixedPath(k, path);
    ItemPathSplits(SkillKind, "delete");
    assert ItemPath(SkillKind, "delete") == "/skills/delete";
    assert path == "/skills/delete" ==> KindName(k) == "skills" && id == "delete";
  }

  /** handleResource: the method of an item request. */
  datatype ItemAction = GetAction | UpdateAction | MethodNotAllowed

  function ItemActionOf(verb: string): (a: ItemAction)
    ensures a == GetAction <==> verb == "GET"
    ensures a == UpdateAction <==> verb == "PUT"
  {
    if verb == "GET" then GetAction
    else if verb == "PUT" then UpdateAction
    else MethodNotAllowed
  }

  /** An inbound request: method, path, the `id` query parameter ("" when
      absent), the Authorization header ("" when absent), and the decoded
      body (empty when it does not decode). */
  datatype Request = Request(verb: string, path: string, idParam: string, authorization: string,
                             body: Payload)

  /** What the world answers the handlers: the token parser, the password
      check, the token issuer, and whether the storage engine fails on the
      first and on the second statement of the request. */
  datatype World = World(check: string -> TokenCheck, passwordMatches: (string, string) -> bool,
                         issue: nat -> Option<string>, fault: bool, saveFault: bool)

  /** handleResource: GET reads, PUT updates, any other method is 405. */
  method HandleResource(store: Store, req: Request, w: World) returns (r: Response)
    requires store.Valid()
    modifies store
    ensures store.Valid() && store.users == old(store.users)
    ensures ItemActionOf(req.verb) == GetAction ==>
      r == GetResourceById(old(store.Content()), req.path, w.fault) &&
      store.Content() == old(store.Content())
    ensures ItemActionOf(req.verb) == MethodNotAllowed ==>
      r == Error(405, "Method not allowed") && store.Content() == old(store.Content())
    ensures ItemActionOf(req.verb) == UpdateAction ==>
      match PlanUpdate(old(store.Content()), req.path, req.body, w.fault)
      case Reply(response) => r == response && store.Content() == old(store.Content())
      case Save(k, row) =>
        if w.saveFault then
          (r == Response(500, StoreError, false) && store.Content() == old(store.Content()))
        else
          (r == Response(200, One(row), true) &&
           store.Content() == old(store.Content()).With(k, Saved(old(store.Content()).Of(k), row)))
  {
    match ItemActionOf(req.verb)
    case GetAction =>
      r := GetResourceById(store.Content(), req.path, w.fault);
    case UpdateAction =>
      r := store.UpdateResource(req.path, req.body, w.fault, w.saveFault);
    case MethodNotAllowed =>
      r := Error(405, "Method not allowed");
  }

  /** GetWebsites: the distinguished owner's websites through the cache under
      "websites"; a failing query is a 500 and is not cached. */
  method GetWebsites(store: Store, cache: Cache<map<nat, Record>>, fault: bool)
    returns (r: Response, fetched: bool)
    modifies cache`items
    ensures old(cache.Get("websites")).Some? ==>
      !fetched && r == Response(200, Rows(old(cache.Get("websites")).value), false) &&
      cache.items == old(cache.items)
    ensures old(cache.Get("websites")).None? && !fault ==>
      fetched && r == Response(200, Rows(Owned(store.websites)), false) &&
      cache.items == old(cache.items)["websites" := Item(Owned(store.websites), cache.now + TTL)]
    ensures old(cache.Get("websites")).None? && fault ==>
      fetched && r == Response(500, StoreError, false) && cache.items == old(cache.items)
  {
    var rows := Owned(store.websites);
    var fetch: () -> Result<map<nat, Record>, string> :=
      () => if fault then Err("storage error") else Ok(rows);
    var res;
    res, fetched := cache.GetCachedData("websites", fetch);
    match res
    case Ok(v) => r := Response(200, Rows(v), false);
    case Err(_) => r := Response(500, StoreError, false);
  }

  /** Two website lists dt apart. When the first one queried the store and
      succeeded, a second one within the TTL is served from the cache with the
      same rows, and one after the TTL queries the store again. */
  method ListWebsitesTwice(store: Store, cache: Cache<map<nat, Record>>, dt: nat, fault: bool)
    returns (r1: Response, fetched1: bool, r2: Response, fetched2: bool)
    modifies cache
    ensures fetched1 && r1.status == 200 && dt <= TTL ==> !fetched2 && r2 == r1
    ensures fetched1 && r1.status == 200 && dt > TTL ==> fetched2
    ensures cache.now == old(cache.now) + dt
  {
    r1, fetched1 := GetWebsites(store, cache, fault);
    cache.Advance(dt);
    r2, fetched2 := GetWebsites(store, cache, fault);
  }

  /** One request through the mux: route, gate, handler. The store changes only
      on a wrapped route whose gate let the request through, and the cache only
      on the website list. */
  method Serve(store: Store, cache: Cache<map<nat, Record>>, req: Request, w: World)
    returns (r: Response)
    requires store.Valid()
    modifies store, cache`items
    ensures store.Valid()
    ensures RouteOf(req.path).None? ==> r == Error(404, "404 page not found")
    ensures RouteOf(req.path).Some? && RouteOf(req.path).value.protected &&
            AuthGate(req.authorization, w.check).Some? ==>
      r == AuthGate(req.authorization, w.check).value
    ensures (store.Content() != old(store.Content()) || store.users != old(store.users)) ==>
      RouteOf(req.path).Some? && RouteOf(req.path).value.protected &&
      AuthGate(req.authorization, w.check).None?
    ensures cache.items != old(cache.items) ==>
      RouteOf(req.path) == Some(Route(ListKind(WebsiteKind), false))
  {
    var route := RouteOf(req.path);
    if route.None? {
      return Error(404, "404 page not found");
    }
    var rt := route.value;
    var rejection := if rt.protected then AuthGate(req.authorization, w.check) else None;
    if rejection.Some? {
      return rejection.value;
    }
    match rt.handler
    case LoginHandler =>
      r := Login(req.verb, req.body, store.users, w.fault, w.passwordMatches, w.issue);
    case ListUsers =>
      r := store.GetUsers();
    case ListKind(k) =>
      if k == WebsiteKind {
        var fetched;
        r, fetched := GetWebsites(store, cache, w.fault);
      } else {
        r := store.List(k);
      }
    case CreateUserHandler =>
      r := store.CreateUser(req.body, w.fault);
    case CreateKind(k) =>
      r := store.Create(k, req.body, w.fault);
    case DeleteSkillHandler =>
      r := store.DeleteSkill(req.idParam, w.fault);
    case ItemHandler =>
      r := HandleResource(store, req, w);
  }
}
