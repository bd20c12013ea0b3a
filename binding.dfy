/** The request types of the three account handlers and the rules their struct tags
    declare (`binding:"required,oneof=USD EUR VND"`, `binding:"required,min=1"`,
    `form:"page,default=1" binding:"min=1"`, `form:"pageSize,default=10"
    binding:"min=5,max=20"`). Binding happens in two phases, as in the web framework:
    the raw text is first decoded into the struct's fields (a decode failure stops
    there), then each field's rules are checked in tag order up to the first that
    fails, and the failures of all fields are reported. */
module Binding {
  import Int64
  import Store

  /** A raw uri or query parameter: not given, text that reads as the integer
      `value`, or text that is not an integer at all. */
  datatype Param = Absent | Integer(value: int) | NotInteger

  /** A failed rule, named by the field's key and the tag that failed. */
  datatype Violation =
    | Required(key: string)
    | Min(key: string, bound: int)
    | Max(key: string, bound: int)
    | OneOf(key: string, options: seq<string>)

  datatype BindError =
    | MalformedBody                       // the JSON body does not decode into the request
    | Unparsable(key: string)             // a parameter is not an int64
    | Invalid(violations: seq<Violation>) // the decoded request breaks some rules

  datatype Validated<T> = Accepted(req: T) | Rejected(error: BindError)

  const CURRENCY_OPTIONS: seq<string> := ["USD", "EUR", "VND"]
  const DEFAULT_PAGE: int := 1
  const MIN_PAGE: int := 1
  const DEFAULT_PAGE_SIZE: int := 10
  const MIN_PAGE_SIZE: int := 5
  const MAX_PAGE_SIZE: int := 20

  /** Whether a raw parameter decodes into an int64 field. */
  predicate Decodes(p: Param) {
    p.Absent? || (p.Integer? && Int64.InRange(p.value))
  }

  /** Decoding one int64 field: an absent parameter takes the field's default, which
      for a field without one is Go's zero value. */
  function DecodeInt64(p: Param, key: string, default: int): (v: Validated<int>)
    requires Int64.InRange(default)
    ensures v.Accepted? <==> Decodes(p)
    ensures v.Accepted? && p.Absent? ==> v.req == default
    ensures v.Accepted? && p.Integer? ==> v.req == p.value
    ensures v.Rejected? ==> v.error == Unparsable(key)
  {
    match p
    case Absent => Accepted(default)
    case Integer(n) => if Int64.InRange(n) then Accepted(n) else Rejected(Unparsable(key))
    case NotInteger => Rejected(Unparsable(key))
  }

  // ---------------------------------------------------------------- create

  /** The JSON body of a create request; a key missing from the JSON decodes as "". */
  datatype CreateBody = MalformedJson | Json(owner: string, currency: string)

  datatype CreateAccountRequest = CreateAccountRequest(owner: string, currency: Store.Currency)

  function OwnerViolations(owner: string): seq<Violation> {
    if owner == "" then [Required("owner")] else []
  }

  function CurrencyViolations(currency: string): seq<Violation> {
    if currency == "" then [Required("currency")]
    else if currency !in CURRENCY_OPTIONS then [OneOf("currency", CURRENCY_OPTIONS)]
    else []
  }

  /** A create request is accepted exactly when the body decodes, the owner is not
      empty and the currency is one of USD, EUR and VND; the accepted request carries
      that owner and currency, and a rejection names, for each field, the first of its
      rules that failed. */
  function BindCreate(body: CreateBody): (v: Validated<CreateAccountRequest>)
    ensures v.Accepted? <==> body.Json? && body.owner != "" && body.currency in {"USD", "EUR", "VND"}
    ensures v.Accepted? ==> v.req.owner == body.owner && Store.Code(v.req.currency) == body.currency
    ensures body.MalformedJson? ==> v == Rejected(MalformedBody)
    ensures body.Json? && v.Rejected? ==>
      && v.error.Invalid?
      && v.error.violations != []
      && (Required("owner") in v.error.violations <==> body.owner == "")
      && (Required("currency") in v.error.violations <==> body.currency == "")
  {
    match body
    case MalformedJson => Rejected(MalformedBody)
    case Json(owner, currency) =>
      var violations := OwnerViolations(owner) + CurrencyViolations(currency);
      var parsed := Store.ParseCurrency(currency);
      if violations == [] && parsed.Some? then Accepted(CreateAccountRequest(owner, parsed.value))
      else Rejected(Invalid(violations))
  }

  // ---------------------------------------------------------------- get

  datatype GetAccountRequest = GetAccountRequest(id: int)

  /** `required` fails on the zero value, `min=1` on anything else below 1. */
  function IdViolations(id: int): seq<Violation> {
    if id == 0 then [Required("id")]
    else if id < 1 then [Min("id", 1)]
    else []
  }

  /** A get request is accepted exactly when the id is an int64 of at least 1. */
  function BindGet(id: Param): (v: Validated<GetAccountRequest>)
    ensures v.Accepted? <==> id.Integer? && 1 <= id.value <= Int64.MAX
    ensures v.Accepted? ==> v.req.id == id.value
    ensures id.Integer? && Int64.MIN <= id.value < 1 ==> v.Rejected? && v.error.Invalid?
    ensures id.NotInteger? || (id.Integer? && !Int64.InRange(id.value)) ==> v == Rejected(Unparsable("id"))
    ensures id.Absent? ==> v == Rejected(Invalid([Required("id")]))
  {
    match DecodeInt64(id, "id", 0)
    case Rejected(e) => Rejected(e)
    case Accepted(n) =>
      var violations := IdViolations(n);
      if violations == [] then Accepted(GetAccountRequest(n)) else Rejected(Invalid(violations))
  }

  // ---------------------------------------------------------------- list

  datatype ListAccountsRequest = ListAccountsRequest(page: int, pageSize: int)

  /** What a list request is after binding: an int64 page of at least 1 and a page
      size from 5 to 20. */
  predicate ValidListRequest(req: ListAccountsRequest) {
    && 1 <= req.page <= Int64.MAX
    && MIN_PAGE_SIZE <= req.pageSize <= MAX_PAGE_SIZE
  }

  function PageViolations(page: int): seq<Violation> {
    if page < MIN_PAGE then [Min("page", MIN_PAGE)] else []
  }

  function PageSizeViolations(pageSize: int): seq<Violation> {
    if pageSize < MIN_PAGE_SIZE then [Min("pageSize", MIN_PAGE_SIZE)]
    else if pageSize > MAX_PAGE_SIZE then [Max("pageSize", MAX_PAGE_SIZE)]
    else []
  }

  /** The value a query parameter stands for, its default when it is absent. */
  function QueryValue(p: Param, default: int): int {
    if p.Integer? then p.value else default
  }

  /** The rules of a list request, stated on the raw parameters. */
  predicate ListRulesHold(page: Param, pageSize: Param) {
    && !page.NotInteger? && !pageSize.NotInteger?
    && MIN_PAGE <= QueryValue(page, DEFAULT_PAGE) <= Int64.MAX
    && MIN_PAGE_SIZE <= QueryValue(pageSize, DEFAULT_PAGE_SIZE) <= MAX_PAGE_SIZE
  }

  /** A list request is accepted exactly when its rules hold; missing parameters take
      page 1 and page size 10; a query whose parameters decode but break a bound is
      rejected naming, for each field, the first of its rules that failed. */
  function BindList(page: Param, pageSize: Param): (v: Validated<ListAccountsRequest>)
    ensures v.Accepted? <==> ListRulesHold(page, pageSize)
    ensures v.Accepted? ==> ValidListRequest(v.req)
    ensures v.Accepted? ==>
      v.req == ListAccountsRequest(QueryValue(page, DEFAULT_PAGE), QueryValue(pageSize, DEFAULT_PAGE_SIZE))
    ensures !Decodes(page) ==> v == Rejected(Unparsable("page"))
    ensures Decodes(page) && !Decodes(pageSize) ==> v == Rejected(Unparsable("pageSize"))
    ensures Decodes(page) && Decodes(pageSize) && !ListRulesHold(page, pageSize) ==>
      v.Rejected? && v.error.Invalid?
    ensures v.Rejected? && v.error.Invalid? ==>
      && v.error.violations != []
      && (Min("page", MIN_PAGE) in v.error.violations <==> QueryValue(page, DEFAULT_PAGE) < MIN_PAGE)
      && (Min("pageSize", MIN_PAGE_SIZE) in v.error.violations
          <==> QueryValue(pageSize, DEFAULT_PAGE_SIZE) < MIN_PAGE_SIZE)
      && (Max("pageSize", MAX_PAGE_SIZE) in v.error.violations
          <==> QueryValue(pageSize, DEFAULT_PAGE_SIZE) > MAX_PAGE_SIZE)
  {
    match DecodeInt64(page, "page", DEFAULT_PAGE)
    case Rejected(e) => Rejected(e)
    case Accepted(p) =>
      match DecodeInt64(pageSize, "pageSize", DEFAULT_PAGE_SIZE)
      case Rejected(e) => Rejected(e)
      case Accepted(s) =>
        var violations := PageViolations(p) + PageSizeViolations(s);
        if violations == [] then Accepted(ListAccountsRequest(p, s)) else Rejected(Invalid(violations))
  }
}
