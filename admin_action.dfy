/** The admin server actions (`src/actions/Admin.action.ts`): the login cookie,
    token verification and the query strings of the admin list requests. The
    cookie store is an object the actions update; remote calls are parameters. */
module AdminAction {
  import opened Wrappers
  import opened Text
  import opened SearchParams
  import opened Catalog
  import opened AdminTypes

  /** The `admin_token` cookie and the attributes it is written with. */
  datatype Cookie = Cookie(value: string, httpOnly: bool, secure: bool, sameSite: string, maxAge: int)

  /** Seven days, in seconds. */
  const TokenMaxAge: int := 60 * 60 * 24 * 7

  /** The request's cookie store, reduced to the one cookie the actions use. */
  class CookieStore {
    var adminToken: Option<Cookie>

    constructor()
      ensures adminToken == None
    {
      adminToken := None;
    }
  }

  /** The cookie written for a token: readable by the server only, `secure` in
      production, same-site `lax`, kept for seven days. */
  function TokenCookie(token: string, production: bool): (c: Cookie)
    ensures c.value == token && c.httpOnly && c.secure == production && c.sameSite == "lax"
    ensures c.maxAge == 604800
  {
    Cookie(token, true, production, "lax", TokenMaxAge)
  }

  /** `adminLogin`, given the server's response: the token is stored only when
      the login succeeded and a non-empty token came back; the response is
      returned as it is. */
  method AdminLogin(store: CookieStore, res: AdminLoginResponse, production: bool)
    returns (data: AdminLoginResponse)
    modifies store
    ensures data == res
    ensures res.success && Truthy(res.token) ==> store.adminToken == Some(TokenCookie(res.token.value, production))
    ensures !(res.success && Truthy(res.token)) ==> store.adminToken == old(store.adminToken)
  {
    if res.success && Truthy(res.token) {
      store.adminToken := Some(TokenCookie(res.token.value, production));
    }
    data := res;
  }

  /** `adminLogout`: the cookie is deleted, so no token is read afterwards. */
  method AdminLogout(store: CookieStore)
    modifies store
    ensures GetAdminToken(store) == None
  {
    store.adminToken := None;
  }

  /** `getAdminToken`: the cookie's value, or null. */
  function GetAdminToken(store: CookieStore): (t: Option<string>)
    reads store
    ensures t.Some? <==> store.adminToken.Some?
    ensures t.Some? ==> t.value == store.adminToken.value.value
  {
    if store.adminToken.Some? then Some(store.adminToken.value.value) else None
  }

  /** The `Authorization` header of an admin request. A missing token is
      interpolated as the text "null". */
  function Bearer(token: Option<string>): (h: string)
    ensures token.Some? ==> h == "Bearer " + token.value
    ensures token.None? ==> h == "Bearer null"
  {
    "Bearer " + (if token.Some? then token.value else "null")
  }

  /** How the verification request ended: it threw (network or JSON failure),
      or a body came back whose `success` field is `true`, `false`, or something
      else (absent, or not a boolean). */
  datatype VerifyOutcome = Threw | Replied(success: Option<bool>)

  /** `verifyAdminToken`. `server` maps the `Authorization` header to the
      outcome of the request; `sent` is the header actually sent, `None` when
      no request was made. */
  method VerifyAdminToken(store: CookieStore, server: string -> VerifyOutcome)
    returns (valid: bool, sent: Option<string>)
    ensures !Truthy(GetAdminToken(store)) ==> !valid && sent == None
    ensures Truthy(GetAdminToken(store)) ==> sent == Some(Bearer(GetAdminToken(store)))
    ensures valid <==> sent.Some? && server(sent.value) == Replied(Some(true))
  {
    var token := GetAdminToken(store);
    if !Truthy(token) {
      return false, None;
    }
    sent := Some(Bearer(token));
    var outcome := server(sent.value);
    match outcome
    case Threw =>
      valid := false;
    case Replied(success) =>
      valid := success == Some(true);
  }

  /** The optional numeric and status arguments of `fetchAdminOrders`. */
  datatype OrdersArgs = OrdersArgs(page: Option<int>, limit: Option<int>, status: Option<string>)

  /** A numeric argument is sent when it is given and not zero. */
  function NumberParam(n: Option<int>): (o: Option<string>)
    ensures o.Some? <==> n.Some? && n.value != 0
    ensures o.Some? ==> ParseNumber(o.value) == Num(n.value)
  {
    if n.Some? && n.value != 0 then (IntToStringRoundTrip(n.value); Some(IntToString(n.value))) else None
  }

  /** The status filter is sent when it is non-empty and not "all". */
  function StatusParam(status: Option<string>): (o: Option<string>)
    ensures o.Some? <==> Truthy(status) && status.value != "all"
    ensures o.Some? ==> o == status
  {
    if Truthy(status) && status.value != "all" then status else None
  }

  /** The pairs `fetchAdminOrders` sends: `page`, `limit` and `status`, each
      exactly when its argument is sent. */
  function OrdersQueryMap(args: OrdersArgs): (m: map<string, string>)
    ensures m.Keys <= {"page", "limit", "status"}
    ensures ("page" in m <==> NumberParam(args.page).Some?) && ("page" in m ==> m["page"] == NumberParam(args.page).value)
    ensures ("limit" in m <==> NumberParam(args.limit).Some?) && ("limit" in m ==> m["limit"] == NumberParam(args.limit).value)
    ensures ("status" in m <==> StatusParam(args.status).Some?) && ("status" in m ==> m["status"] == StatusParam(args.status).value)
  {
    Put(Put(Put(map[], "page", NumberParam(args.page)), "limit", NumberParam(args.limit)), "status", StatusParam(args.status))
  }

  /** `m` with `k` bound to the value of `o` when there is one. */
  function Put(m: map<string, string>, k: string, o: Option<string>): map<string, string> {
    if o.Some? then m[k := o.value] else m
  }

  /** The query string of `fetchAdminOrders`: `page`, `limit` and `status`,
      each at most once, each present exactly when its argument is sent, and
      nothing else. */
  method AdminOrdersQuery(args: OrdersArgs) returns (query: Params)
    ensures Represents(query, OrdersQueryMap(args))
    ensures Names(query) <= {"page", "limit", "status"}
    ensures Get(query, "page") == NumberParam(args.page)
    ensures Get(query, "limit") == NumberParam(args.limit)
    ensures Get(query, "status") == StatusParam(args.status)
    ensures Count(query, "page") <= 1 && Count(query, "limit") <= 1 && Count(query, "status") <= 1
  {
    var page, limit, status := NumberParam(args.page), NumberParam(args.limit), StatusParam(args.status);
    ghost var m: map<string, string> := map[];
    query := [];
    query := SetWhenTruthy(query, m, "page", page);
    m := Put(m, "page", page);
    query := SetWhenTruthy(query, m, "limit", limit);
    m := Put(m, "limit", limit);
    query := SetWhenTruthy(query, m, "status", status);
    m := Put(m, "status", status);
    ProjectRepresents(query, m, "page");
    ProjectRepresents(query, m, "limit");
    ProjectRepresents(query, m, "status");
  }

  /** The pairs `fetchAdminProducts` sends: `page` and `limit` always, with
      defaults "1" and "12"; `search` and `category` when non-empty; nothing
      else. An absent query is the query whose fields are all absent. */
  function ProductsQueryMap(q: ProductQuery): (m: map<string, string>)
    ensures m.Keys <= {"page", "limit", "search", "category"}
    ensures "page" in m && m["page"] == OrElse(q.page, "1")
    ensures "limit" in m && m["limit"] == OrElse(q.limit, "12")
    ensures "search" in m <==> Truthy(q.search)
    ensures "search" in m ==> m["search"] == q.search.value
    ensures "category" in m <==> Truthy(q.category)
    ensures "category" in m ==> m["category"] == q.category.value
  {
    var base := map["page" := OrElse(q.page, "1"), "limit" := OrElse(q.limit, "12")];
    var withSearch := if Truthy(q.search) then base["search" := q.search.value] else base;
    if Truthy(q.category) then withSearch["category" := q.category.value] else withSearch
  }

  /** The `if (value) params.set(name, value)` step of the admin query
      builders: a present, non-empty value is set, anything else is skipped. */
  method SetWhenTruthy(params: Params, ghost m: map<string, string>, k: string, o: Option<string>)
    returns (r: Params)
    requires Represents(params, m)
    ensures Represents(r, if Truthy(o) then m[k := o.value] else m)
  {
    r := params;
    if Truthy(o) {
      SetRepresents(params, m, k, o.value);
      r := Set(params, k, o.value);
    }
  }

  /** `fetchAdminProducts` builds its query string with `set` calls; the list
      holds exactly the pairs of `ProductsQueryMap`, each name once. */
  method AdminProductsQuery(q: ProductQuery) returns (params: Params)
    ensures Represents(params, ProductsQueryMap(q))
  {
    var page, limit := OrElse(q.page, "1"), OrElse(q.limit, "12");
    SetRepresents([], map[], "page", page);
    params := Set([], "page", page);
    SetRepresents(params, map["page" := page], "limit", limit);
    params := Set(params, "limit", limit);
    ghost var m := map["page" := page, "limit" := limit];
    params := SetWhenTruthy(params, m, "search", q.search);
    if Truthy(q.search) {
      m := m["search" := q.search.value];
    }
    params := SetWhenTruthy(params, m, "category", q.category);
  }
}
