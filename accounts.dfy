/** The three account handlers of `api/account.go` as decisions: each takes the raw
    request and the outcome(s) the store gives for the queries it issues, and yields the
    queries it issued together with the status and body it writes. The store outcomes
    are parameters; a handler that never queries the store ignores them. The list
    handler's two concurrent lookups become two independent outcomes, both of which
    are in hand before the response is chosen. */
module Accounts {
  import opened Store
  import opened Binding
  import opened Pagination

  const STATUS_OK: int := 200
  const STATUS_CREATED: int := 201
  const STATUS_BAD_REQUEST: int := 400
  const STATUS_NOT_FOUND: int := 404
  const STATUS_INTERNAL_SERVER_ERROR: int := 500

  /** The error a response carries: the binding failure, the store's "no rows" error,
      or any other store error. */
  datatype Error = BindFailure(bindError: BindError) | NoRows | StoreFailure(message: string)

  datatype Body =
    | ErrorBody(error: Error)
    | AccountBody(account: Account)
    | AccountPageBody(accounts: seq<Account>, page: int, pageSize: int, total: int)

  datatype Response = Response(status: int, body: Body)

  /** The queries a handler issued (unordered) and the response it wrote. */
  datatype Handled = Handled(calls: multiset<Call>, response: Response)

  /** The error value behind a failed store outcome. */
  function StoreError<T>(o: Outcome<T>): (e: Error)
    requires !o.Ok?
    ensures e.NoRows? <==> o.NotFound?
    ensures o.Err? ==> e == StoreFailure(o.message)
  {
    match o
    case NotFound => NoRows
    case Err(m) => StoreFailure(m)
  }

  function BadRequest(e: BindError): Handled {
    Handled(multiset{}, Response(STATUS_BAD_REQUEST, ErrorBody(BindFailure(e))))
  }

  // ---------------------------------------------------------------- create

  /** The arguments an accepted create request passes to the store. */
  function CreateArgs(req: CreateAccountRequest): CreateAccountParams {
    CreateAccountParams(req.owner, req.currency, 0)
  }

  /** POST /accounts. A rejected body gives 400 without a store call; otherwise the
      store is asked to create an account with the request's owner and currency and a
      zero balance, and its outcome gives 201 with the account as returned, or 500. */
  function CreateAccount(body: CreateBody, created: Outcome<Account>): (h: Handled)
    ensures h.response.status in {STATUS_CREATED, STATUS_BAD_REQUEST, STATUS_INTERNAL_SERVER_ERROR}
    ensures h.response.status == STATUS_BAD_REQUEST <==> BindCreate(body).Rejected?
    ensures h.response.status == STATUS_BAD_REQUEST ==>
      && h.calls == multiset{}
      && h.response.body == ErrorBody(BindFailure(BindCreate(body).error))
    ensures BindCreate(body).Accepted? ==>
      && body.Json?
      && ParseCurrency(body.currency).Some?
      && h.calls == multiset{CreateAccountCall(CreateAccountParams(body.owner, ParseCurrency(body.currency).value, 0))}
    ensures h.response.status == STATUS_CREATED <==> BindCreate(body).Accepted? && created.Ok?
    ensures h.response.status == STATUS_CREATED ==> h.response.body == AccountBody(created.value)
    ensures h.response.status == STATUS_INTERNAL_SERVER_ERROR ==>
      !created.Ok? && h.response.body == ErrorBody(StoreError(created))
  {
    match BindCreate(body)
    case Rejected(e) => BadRequest(e)
    case Accepted(req) =>
      var calls := multiset{CreateAccountCall(CreateArgs(req))};
      match created
      case Ok(account) => Handled(calls, Response(STATUS_CREATED, AccountBody(account)))
      case _ => Handled(calls, Response(STATUS_INTERNAL_SERVER_ERROR, ErrorBody(StoreError(created))))
  }

  // ---------------------------------------------------------------- get

  /** GET /accounts/:id. An id that is not an int64 of at least 1 gives 400 without a
      store call; otherwise the store is asked for that id, and "no rows" gives 404,
      any other error 500, and success 200 with the account as returned. */
  function GetAccount(id: Param, fetched: Outcome<Account>): (h: Handled)
    ensures h.response.status in {STATUS_OK, STATUS_BAD_REQUEST, STATUS_NOT_FOUND, STATUS_INTERNAL_SERVER_ERROR}
    ensures h.response.status == STATUS_BAD_REQUEST <==> !(id.Integer? && 1 <= id.value <= Int64.MAX)
    ensures h.response.status == STATUS_BAD_REQUEST ==>
      && h.calls == multiset{}
      && h.response.body == ErrorBody(BindFailure(BindGet(id).error))
    ensures h.response.status != STATUS_BAD_REQUEST ==> h.calls == multiset{GetAccountCall(id.value)}
    ensures h.response.status != STATUS_BAD_REQUEST ==>
      && (h.response.status == STATUS_OK <==> fetched.Ok?)
      && (h.response.status == STATUS_NOT_FOUND <==> fetched.NotFound?)
      && (h.response.status == STATUS_INTERNAL_SERVER_ERROR <==> fetched.Err?)
    ensures h.response.status == STATUS_OK ==> h.response.body == AccountBody(fetched.value)
    ensures h.response.status == STATUS_NOT_FOUND ==> h.response.body == ErrorBody(NoRows)
    ensures h.response.status == STATUS_INTERNAL_SERVER_ERROR ==>
      h.response.body == ErrorBody(StoreFailure(fetched.message))
  {
    match BindGet(id)
    case Rejected(e) => BadRequest(e)
    case Accepted(req) =>
      var calls := multiset{GetAccountCall(req.id)};
      match fetched
      case Ok(account) => Handled(calls, Response(STATUS_OK, AccountBody(account)))
      case NotFound => Handled(calls, Response(STATUS_NOT_FOUND, ErrorBody(NoRows)))
      case Err(m) => Handled(calls, Response(STATUS_INTERNAL_SERVER_ERROR, ErrorBody(StoreFailure(m))))
  }

  // ---------------------------------------------------------------- list

  /** The page window the list handler asks the store for. */
  function Window(req: ListAccountsRequest): ListAccountsParams
    requires ValidListRequest(req)
  {
    ListAccountsParams(Limit(req), Offset(req))
  }

  /** The decision taken once both lookups have reported: the page fetch's error wins
      over the count's, and only two successes give 200 with the page and the total as
      the store returned them and the page number and size echoed. */
  function JoinListResults(req: ListAccountsRequest, listed: Outcome<seq<Account>>, counted: Outcome<int>): (r: Response)
    ensures r.status in {STATUS_OK, STATUS_INTERNAL_SERVER_ERROR}
    ensures r.status == STATUS_OK <==> listed.Ok? && counted.Ok?
    ensures !listed.Ok? ==> r.body == ErrorBody(StoreError(listed))
    ensures listed.Ok? && !counted.Ok? ==> r.body == ErrorBody(StoreError(counted))
    ensures r.status == STATUS_OK ==>
      r.body == AccountPageBody(listed.value, req.page, req.pageSize, counted.value)
  {
    if !listed.Ok? then Response(STATUS_INTERNAL_SERVER_ERROR, ErrorBody(StoreError(listed)))
    else if !counted.Ok? then Response(STATUS_INTERNAL_SERVER_ERROR, ErrorBody(StoreError(counted)))
    else Response(STATUS_OK, AccountPageBody(listed.value, req.page, req.pageSize, counted.value))
  }

  /** GET /accounts?page=&pageSize=. A query breaking the rules gives 400 without a
      store call; otherwise both the page fetch and the count are issued, and the
      joined outcomes decide the response. */
  function ListAccounts(page: Param, pageSize: Param, listed: Outcome<seq<Account>>, counted: Outcome<int>): (h: Handled)
    ensures h.response.status in {STATUS_OK, STATUS_BAD_REQUEST, STATUS_INTERNAL_SERVER_ERROR}
    ensures h.response.status == STATUS_BAD_REQUEST <==> !ListRulesHold(page, pageSize)
    ensures h.response.status == STATUS_BAD_REQUEST ==>
      && h.calls == multiset{}
      && h.response.body == ErrorBody(BindFailure(BindList(page, pageSize).error))
    ensures ListRulesHold(page, pageSize) ==>
      var req := ListAccountsRequest(QueryValue(page, DEFAULT_PAGE), QueryValue(pageSize, DEFAULT_PAGE_SIZE));
      && ValidListRequest(req)
      && h.calls == multiset{ListAccountsCall(Window(req)), CountAccountsCall}
      && h.response == JoinListResults(req, listed, counted)
  {
    match BindList(page, pageSize)
    case Rejected(e) => BadRequest(e)
    case Accepted(req) =>
      Handled(multiset{ListAccountsCall(Window(req)), CountAccountsCall}, JoinListResults(req, listed, counted))
  }

  // ---------------------------------------------------------------- properties

  /** A rejected list query is answered the same whatever the store would have said. */
  lemma ListRejectionIgnoresStore(page: Param, pageSize: Param,
                                  listed: Outcome<seq<Account>>, counted: Outcome<int>,
                                  listed': Outcome<seq<Account>>, counted': Outcome<int>)
    requires !ListRulesHold(page, pageSize)
    ensures ListAccounts(page, pageSize, listed, counted) == ListAccounts(page, pageSize, listed', counted')
  {
  }

  /** Error precedence: once the page fetch has failed, the count's outcome does not
      matter, and the response is 500 carrying the page fetch's error. */
  lemma PageFetchErrorWins(page: Param, pageSize: Param, listed: Outcome<seq<Account>>,
                           counted: Outcome<int>, counted': Outcome<int>)
    requires ListRulesHold(page, pageSize) && !listed.Ok?
    ensures ListAccounts(page, pageSize, listed, counted) == ListAccounts(page, pageSize, listed, counted')
    ensures ListAccounts(page, pageSize, listed, counted).response
         == Response(STATUS_INTERNAL_SERVER_ERROR, ErrorBody(StoreError(listed)))
  {
  }

  /** The window a valid list query asks the store for: the page size as the limit,
      and the int64 offset of the request, which is `(page - 1) * pageSize` exactly while
      the page is at most `MaxPage(pageSize)`; it is then a non-negative multiple of the
      limit and the start of that page when pages are laid one after another. */
  lemma ListWindow(page: Param, pageSize: Param, listed: Outcome<seq<Account>>, counted: Outcome<int>)
    requires ListRulesHold(page, pageSize)
    ensures var p, s := QueryValue(page, DEFAULT_PAGE), QueryValue(pageSize, DEFAULT_PAGE_SIZE);
      var offset := Offset(ListAccountsRequest(p, s));
      && ListAccountsCall(ListAccountsParams(s, offset)) in ListAccounts(page, pageSize, listed, counted).calls
      && (offset == (p - 1) * s <==> p <= MaxPage(s))
      && (p <= MaxPage(s) ==> 0 <= offset && offset % s == 0 && offset == PageStart(p, s))
  {
    PageStartIsProduct(QueryValue(page, DEFAULT_PAGE), QueryValue(pageSize, DEFAULT_PAGE_SIZE));
    OffsetExact(ListAccountsRequest(QueryValue(page, DEFAULT_PAGE), QueryValue(pageSize, DEFAULT_PAGE_SIZE)));
  }

  /** A query that gives neither parameter asks for the first ten accounts. */
  lemma ListDefaults(listed: Outcome<seq<Account>>, counted: Outcome<int>)
    ensures ListAccounts(Absent, Absent, listed, counted).calls
         == multiset{ListAccountsCall(ListAccountsParams(DEFAULT_PAGE_SIZE, 0)), CountAccountsCall}
  {
  }
}
