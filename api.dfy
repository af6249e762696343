/** The shared HTTP client: the `apiService` route builders, and the two
    interceptors that couple every request to the browser's stored token. */
module Api {
  import opened Common

  datatype Verb = Get | Post | Put | Delete

  datatype Route = Route(verb: Verb, path: string)

  /** One value per `apiService` helper, carrying the helper's arguments. */
  datatype ApiCall =
    | AuthLogin | AuthGetUser
    | DashboardStats
    | VehiclesSearch(plate: string) | VehiclesGetById(plate: string)
    | VehiclesGetServices(plate: string) | VehiclesGetServiceById(plate: string, serviceId: int)
    | VehiclesAddService(plate: string)
    | OwnersGetAll | OwnersGetById(id: int) | OwnersCreate | OwnersUpdate(id: int) | OwnersDelete(id: int)
    | ServicesGetAll | ServicesGetById(id: int) | ServicesCreate | ServicesUpdate(id: int)
    | ServicesDelete(id: int)
    | ServicesGetItems(plate: string, serviceId: int) | ServicesAddItem(plate: string, serviceId: int)
    | ItemsGetAll(company: int) | ItemsGetById(company: int, id: int) | ItemsDelete(company: int, id: int)
    | ItemsCreate(company: int) | ItemsUpdate(company: int, id: int)
    | BrandsGetAll
    | CompaniesGetById(id: int) | CompaniesGetItems(companyId: int) | CompaniesCreateItem(companyId: int)
    | CompaniesGetItemById(companyId: int, itemId: int) | CompaniesUpdateItem(companyId: int, itemId: int)
    | CompaniesDeleteItem(companyId: int, itemId: int)
    | UsersGetById(id: int) | UsersCreate | UsersUpdate(id: int) | UsersDelete(id: int)

  /** The verb and path (relative to the base URL) each helper requests. */
  function RouteOf(c: ApiCall): Route
  {
    match c
    case AuthLogin => Route(Post, "/login")
    case AuthGetUser => Route(Get, "/user")
    case DashboardStats => Route(Get, "/dashboard")
    case VehiclesSearch(p) => Route(Get, "/vehicles/" + p)
    case VehiclesGetById(p) => Route(Get, "/vehicles/" + p)
    case VehiclesGetServices(p) => Route(Get, "/vehicles/" + p + "/services")
    case VehiclesGetServiceById(p, s) => Route(Get, "/vehicles/" + p + "/services/" + IntToString(s))
    case VehiclesAddService(p) => Route(Post, "/vehicles/" + p + "/services")
    case OwnersGetAll => Route(Get, "/owners")
    case OwnersGetById(id) => Route(Get, "/owners/" + IntToString(id))
    case OwnersCreate => Route(Post, "/owners")
    case OwnersUpdate(id) => Route(Put, "/owners/" + IntToString(id))
    case OwnersDelete(id) => Route(Delete, "/owners/" + IntToString(id))
    case ServicesGetAll => Route(Get, "/services")
    case ServicesGetById(id) => Route(Get, "/services/" + IntToString(id))
    case ServicesCreate => Route(Post, "/services")
    case ServicesUpdate(id) => Route(Put, "/services/" + IntToString(id))
    case ServicesDelete(id) => Route(Delete, "/services/" + IntToString(id))
    case ServicesGetItems(p, s) => Route(Get, "/vehicles/" + p + "/services/" + IntToString(s) + "/items")
    case ServicesAddItem(p, s) => Route(Post, "/vehicles/" + p + "/services/" + IntToString(s) + "/items")
    case ItemsGetAll(c) => Route(Get, "/companies/" + IntToString(c) + "items")
    case ItemsGetById(c, id) => Route(Get, "/companies/" + IntToString(c) + "items/" + IntToString(id))
    case ItemsDelete(c, id) => Route(Delete, "/companies/" + IntToString(c) + "items/" + IntToString(id))
    case ItemsCreate(c) => Route(Post, "/companies/" + IntToString(c) + "items")
    case ItemsUpdate(c, id) => Route(Put, "/companies/" + IntToString(c) + "items/" + IntToString(id))
    case BrandsGetAll => Route(Get, "/brands")
    case CompaniesGetById(id) => Route(Get, "/companies/" + IntToString(id))
    case CompaniesGetItems(c) => Route(Get, "/companies/" + IntToString(c) + "/items")
    case CompaniesCreateItem(c) => Route(Post, "/companies/" + IntToString(c) + "/items")
    case CompaniesGetItemById(c, i) => Route(Get, "/companies/" + IntToString(c) + "/items/" + IntToString(i))
    case CompaniesUpdateItem(c, i) => Route(Put, "/companies/" + IntToString(c) + "/items/" + IntToString(i))
    case CompaniesDeleteItem(c, i) => Route(Delete, "/companies/" + IntToString(c) + "/items/" + IntToString(i))
    case UsersGetById(id) => Route(Get, "/users/" + IntToString(id))
    case UsersCreate => Route(Post, "/users")
    case UsersUpdate(id) => Route(Put, "/users/" + IntToString(id))
    case UsersDelete(id) => Route(Delete, "/users/" + IntToString(id))
  }

  /** Searching a plate and fetching a vehicle by plate request the same resource. */
  lemma SearchIsGetById(plate: string)
    ensures RouteOf(VehiclesSearch(plate)) == RouteOf(VehiclesGetById(plate))
    ensures RouteOf(VehiclesSearch(plate)).path == "/vehicles/" + plate
  {
  }

  /** Adding a service item posts to the service's nested `items` collection,
      the same path its items are listed from. */
  lemma AddItemPath(plate: string, serviceId: int)
    ensures RouteOf(ServicesAddItem(plate, serviceId)) ==
            Route(Post, "/vehicles/" + plate + "/services/" + IntToString(serviceId) + "/items")
    ensures RouteOf(ServicesAddItem(plate, serviceId)).path == RouteOf(ServicesGetItems(plate, serviceId)).path
  {
  }

  /** The `items` helpers glue "items" straight onto the company id, so their
      path is never the one `companies.getItems` requests for the same company. */
  lemma ItemsPathLacksSlash(company: int)
    ensures RouteOf(ItemsGetAll(company)).path == "/companies/" + IntToString(company) + "items"
    ensures RouteOf(CompaniesGetItems(company)).path == "/companies/" + IntToString(company) + "/items"
    ensures RouteOf(ItemsGetAll(company)).path != RouteOf(CompaniesGetItems(company)).path
  {
    assert |RouteOf(ItemsGetAll(company)).path| + 1 == |RouteOf(CompaniesGetItems(company)).path|;
  }

  /** The resource and action names `apiService` defines; a page that names
      any other pair reads `undefined`. */
  const ApiServiceMembers: set<(string, string)> := {
    ("auth", "login"), ("auth", "getUser"), ("dashboard", "getStats"),
    ("vehicles", "search"), ("vehicles", "getById"), ("vehicles", "getServices"),
    ("vehicles", "getServiceById"), ("vehicles", "addService"),
    ("owners", "getAll"), ("owners", "getById"), ("owners", "create"), ("owners", "update"),
    ("owners", "delete"),
    ("services", "getAll"), ("services", "getById"), ("services", "create"), ("services", "update"),
    ("services", "delete"), ("services", "getItems"), ("services", "addItem"),
    ("items", "getAll"), ("items", "getById"), ("items", "delete"), ("items", "create"), ("items", "update"),
    ("brands", "getAll"),
    ("companies", "getById"), ("companies", "getItems"), ("companies", "createItem"),
    ("companies", "getItemById"), ("companies", "updateItem"), ("companies", "deleteItem"),
    ("users", "getById"), ("users", "create"), ("users", "update"), ("users", "delete")
  }

  /** What a page's `await apiService.<resource>.<action>(...)` settles to, as
      written: the server's reply when the helper exists, otherwise the
      `TypeError` of calling through `undefined`, thrown on the client before
      any request is made. */
  function CallAsWritten<T>(resource: string, action: string, reply: Outcome<T>): (r: Outcome<T>)
    ensures (resource, action) in ApiServiceMembers ==> r == reply
    ensures (resource, action) !in ApiServiceMembers ==> r.SetupError?
  {
    if (resource, action) in ApiServiceMembers then reply
    else SetupError("TypeError: apiService." + resource + "." + action + " is not defined")
  }

  // ---------------------------------------------------------------------------
  // Browser state and the interceptors

  /** The `auth_token` cookie as written: value, max-age in seconds and path. */
  datatype Cookie = Cookie(value: string, maxAge: int, path: string)

  /** A request as it leaves the client: its route, the Authorization header
      and the `_retry` marker the response interceptor sets. */
  datatype Request = Request(route: Route, authorization: Option<string>, retry: bool)

  /** What the browser holds for the session: the token in localStorage, the
      cookie the middleware reads, the current location, whether a full page
      load has been forced, and every request the request interceptor has
      stamped (one that then fails on the client, as a `SetupError`, included). */
  datatype BrowserState = BrowserState(
    stored: Option<string>,
    cookie: Option<Cookie>,
    location: string,
    reloadPending: bool,
    sent: seq<Request>)

  /** 7 days, in seconds. */
  const CookieMaxAge: int := 60 * 60 * 24 * 7

  function Bearer(token: string): string
  {
    "Bearer " + token
  }

  /** The request interceptor: with a truthy stored token the Authorization
      header becomes `Bearer <token>` (replacing any the caller set); without
      one the request goes out as it was. */
  function Authorize(stored: Option<string>, req: Request): (r: Request)
    ensures r.route == req.route && r.retry == req.retry
    ensures Truthy(stored) ==> r.authorization == Some(Bearer(stored.value))
    ensures !Truthy(stored) ==> r == req
  {
    if Truthy(stored) then req.(authorization := Some(Bearer(stored.value))) else req
  }

  /** The header carries the stored token unchanged: stripping the scheme gives it back. */
  lemma BearerRoundTrip(stored: Option<string>, req: Request)
    requires Truthy(stored)
    ensures var h := Authorize(stored, req).authorization.value;
            |h| > 7 && h[..7] == "Bearer " && h[7..] == stored.value
  {
  }

  /** A failure that makes the response interceptor end the session: a 401 on a
      request not yet marked `_retry`. */
  predicate Expires<T>(req: Request, reply: Outcome<T>)
  {
    reply.HttpError? && reply.status == 401 && !req.retry
  }

  /** The response interceptor's effect on the browser: on expiry it removes the
      stored token, expires the cookie and forces a full load of `/login`. */
  function AfterReply<T>(b: BrowserState, req: Request, reply: Outcome<T>): BrowserState
  {
    if Expires(req, reply) then
      b.(stored := None, cookie := None, location := "/login", reloadPending := true)
    else b
  }

  /** The request's `_retry` marker once the response interceptor has run. */
  function Marked<T>(req: Request, reply: Outcome<T>): (r: Request)
    ensures r.retry <==> req.retry || Expires(req, reply)
    ensures r.route == req.route && r.authorization == req.authorization
  {
    req.(retry := req.retry || Expires(req, reply))
  }

  /** One request through both interceptors: it is logged with the header the
      request interceptor gives it, then the reply is inspected. */
  function Dispatch<T>(b: BrowserState, req: Request, reply: Outcome<T>): BrowserState
  {
    AfterReply(b.(sent := b.sent + [Authorize(b.stored, req)]), req, reply)
  }

  /** A 401 on an unmarked request clears both copies of the token and sends the
      browser to `/login`; a request sent afterwards carries no Authorization
      header beyond the one its caller set. */
  lemma ExpiryClearsSession<T>(b: BrowserState, req: Request, reply: Outcome<T>, next: Request)
    requires Expires(req, reply)
    ensures var b' := Dispatch(b, req, reply);
            b'.stored == None && b'.cookie == None && b'.location == "/login" && b'.reloadPending
    ensures Authorize(Dispatch(b, req, reply).stored, next) == next
    ensures Marked(req, reply).retry
  {
  }

  /** Every other settlement (success, another status, no response, a request
      already marked `_retry`) leaves the token, cookie and location alone. */
  lemma OtherRepliesKeepSession<T>(b: BrowserState, req: Request, reply: Outcome<T>)
    requires !Expires(req, reply)
    ensures var b' := Dispatch(b, req, reply);
            b'.stored == b.stored && b'.cookie == b.cookie && b'.location == b.location &&
            b'.reloadPending == b.reloadPending
  {
  }

  /** Several requests failing with 401 end the session once: a second expiry
      changes nothing but the request log. */
  lemma ExpiryIdempotent<T>(b: BrowserState, r1: Request, e1: Outcome<T>, r2: Request, e2: Outcome<T>)
    requires Expires(r1, e1) && Expires(r2, e2)
    ensures var once := Dispatch(b, r1, e1);
            var twice := Dispatch(once, r2, e2);
            twice == once.(sent := once.sent + [r2])
  {
  }

  /** The token in localStorage and the `auth_token` cookie move in lockstep:
      both absent, or both present and carrying the same token. */
  predicate InStep(b: BrowserState)
  {
    match b.stored
    case None => b.cookie.None?
    case Some(t) => b.cookie.Some? && b.cookie.value.value == t
  }

  /** The interceptors keep the two copies in lockstep: an expiry clears both,
      every other settlement touches neither. */
  lemma DispatchKeepsInStep<T>(b: BrowserState, req: Request, reply: Outcome<T>)
    requires InStep(b)
    ensures InStep(Dispatch(b, req, reply))
  {
  }

  /** The browser, as the interceptors and the session store see it. */
  class Browser {
    var stored: Option<string>
    var cookie: Option<Cookie>
    var location: string
    var reloadPending: bool
    var sent: seq<Request>

    function State(): BrowserState
      reads this
    {
      BrowserState(stored, cookie, location, reloadPending, sent)
    }

    constructor (stored: Option<string>, cookie: Option<Cookie>, location: string)
      ensures State() == BrowserState(stored, cookie, location, false, [])
    {
      this.stored := stored;
      this.cookie := cookie;
      this.location := location;
      this.reloadPending := false;
      this.sent := [];
    }

    /** Sends `req` and settles it with `reply`, running both interceptors.
        The caller gets the reply back unchanged, failures included, and the
        request with its `_retry` marker as the interceptor left it. */
    method Send<T>(req: Request, reply: Outcome<T>) returns (r: Outcome<T>, after: Request)
      modifies this
      ensures State() == Dispatch(old(State()), req, reply)
      ensures r == reply
      ensures after == Marked(req, reply)
    {
      sent := sent + [Authorize(stored, req)];
      after := req;
      if reply.HttpError? && reply.status == 401 && !req.retry {
        after := req.(retry := true);
        stored := None;
        cookie := None;
        location := "/login";
        reloadPending := true;
      }
      r := reply;
    }
  }
}
