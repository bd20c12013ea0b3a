# Account handlers of a small bank ledger, modelled in Dafny

The HTTP layer of the ledger serves three account operations: create an account
(`POST /accounts`), fetch one by id (`GET /accounts/:id`) and list a page of accounts
with the total count (`GET /accounts?page=&pageSize=`). This project models the
decisions those handlers take. It covers which requests are accepted, which store
queries are issued and with what arguments, and which status and body are written
for each store outcome.

- `int64.dfy` (`Int64`): Go's int64 range and its wrapping subtraction and
  multiplication.
- `store.dfy` (`Store`): the store's records, the arguments of its four queries
  (`CreateAccount`, `GetAccount`, `ListAccounts`, `CountAccounts`) and a query's
  outcome as a tagged result: `Ok(value)`, `NotFound` (the "no rows" error) or
  `Err(message)`.
- `binding.dfy` (`Binding`): the rules the request structs' tags declare. Binding
  has two phases. First the raw text is decoded; a parameter that is not an int64
  stops binding there. Then each field's rules are checked in tag order up to the first
  that fails, and the failures of all fields are reported.
  A query parameter is modelled as absent, an integer, or text that is not an integer.
- `pagination.dfy` (`Pagination`): `limit = pageSize` and
  `offset = (page - 1) * pageSize`, evaluated in int64. The page number has no upper
  bound. So the offset is the true product only while
  `page <= MaxPage(pageSize) = INT64_MAX / pageSize + 1`. Past that the
  multiplication wraps, and `OffsetWrapsNegative` shows a page the rules accept
  (`2^60 + 1` with page size 8) whose offset is `INT64_MIN`.
- `accounts.dfy` (`Accounts`): the three handlers. Each takes the raw request and
  the outcome of every store query it may issue. It returns `Handled(calls, response)`:
  the multiset of queries it issued and the response it wrote. An empty `calls`
  means the store was never touched. The list handler runs its page fetch and its
  count concurrently and waits for both before choosing a response. That join is
  modelled as two independent outcome parameters. `calls` is a multiset because the
  two lookups have no order between them.

The id and the page are int64 fields (api/account.go:39, 63). So an id or page beyond
int64 fails to decode (400), and a large enough page makes the offset wrap.

## Model

| member | source | states |
|---|---|---|
| `Int64.Mul` | api/account.go:83 | Go's int64 product is the in-range value congruent to the true product modulo 2^64, so it equals the true product exactly when that fits |
| `Int64.Sub` | api/account.go:83 | Go's int64 difference is the in-range value congruent to the true difference modulo 2^64, so it equals the true difference exactly when that fits |
| `Store.ParseCurrency` | api/account.go:14 | a currency text is accepted exactly when it is USD, EUR or VND, and the parsed currency is written the same way |
| `Store.ParseCode` | api/account.go:26 | every currency's text parses back to that currency |
| `Binding.DecodeInt64` | api/account.go:63-64 | an absent parameter takes the field's default; an integer is kept when it fits int64; anything else is a decode failure for that key |
| `Binding.BindCreate` | api/account.go:12-22 | a create body is accepted exactly when it decodes, the owner is non-empty and the currency is one of USD/EUR/VND; the accepted request carries that owner and currency; a rejection names whether the owner or the currency was missing |
| `Binding.BindGet` | api/account.go:38-48 | a get request is accepted exactly when the id is an int64 of at least 1, and then keeps that id; ids below 1 break a rule (a missing id fails `required`); non-integers and integers beyond int64 fail to decode |
| `Binding.BindList` | api/account.go:62-73 | a list query is accepted exactly when both parameters decode, the page is at least 1 and the page size is in [5, 20], with page 1 and size 10 for missing parameters; a page that does not decode is reported before a page size that does not; a query whose parameters decode but break a bound is rejected as invalid, naming exactly the bounds that were broken |
| `Pagination.Limit` | api/account.go:82 | the limit of a valid request lies in [5, 20] |
| `Pagination.Offset` | api/account.go:83 | the offset is an int64 value |
| `Pagination.OffsetExact` | api/account.go:81-84 | the offset is the true product `(page - 1) * pageSize` exactly when `page <= INT64_MAX / pageSize + 1`; in that range it is non-negative and the `(page - 1)`-th multiple of the limit |
| `Pagination.PageStartIsProduct` | api/account.go:83 | the start of page `p` when pages of `pageSize` rows follow one another from row 0 is `(p - 1) * pageSize`, the product the offset is meant to be |
| `Pagination.OffsetWrapsNegative` | api/account.go:83 | page `2^60 + 1` with page size 8 passes the rules, yet its offset wraps to `INT64_MIN` |
| `Accounts.StoreError` | api/account.go:51-55 | a failed outcome's error is "no rows" exactly when the store reported no rows; any other failure keeps its message |
| `Accounts.CreateAccount` | api/account.go:17-36 | a rejected body gives 400 carrying the binding error and no store call; an accepted one issues exactly one create with the body's owner, its currency and balance 0; then 201 with the store's account unchanged exactly when the store succeeded, else 500 with the store's error |
| `Accounts.GetAccount` | api/account.go:42-60 | 400 carrying the binding error and no store call exactly when the id is not an int64 of at least 1; otherwise exactly one lookup of that id, and 200 / 404 / 500 correspond one-to-one to success / no rows / other error; 200 carries the account as returned |
| `Accounts.JoinListResults` | api/account.go:105-119 | 200 exactly when both lookups succeeded; a failed page fetch's error is reported whatever the count did; the count's error is reported only when the page fetch succeeded; 200 echoes page and page size and returns the accounts and total unchanged |
| `Accounts.ListAccounts` | api/account.go:67-120 | 400 carrying the binding error and no store call exactly when the query breaks the rules; otherwise exactly one page fetch with that request's window and one count, joined as `JoinListResults` decides |
| `Accounts.ListRejectionIgnoresStore` | api/account.go:70-73 | a rejected list query gets the same response whatever the store outcomes would be |
| `Accounts.PageFetchErrorWins` | api/account.go:110-117 | once the page fetch failed, changing the count's outcome does not change the response, which is 500 with the page fetch's error |
| `Accounts.ListWindow` | api/account.go:81-84 | a valid query fetches with limit = page size and the request's int64 offset, which equals `(page - 1) * pageSize` exactly when the page is at most `MaxPage`, and is then a non-negative multiple of the limit and the start of that page when pages follow one another |
| `Accounts.ListDefaults` | api/account.go:63-64 | a query with neither parameter fetches limit 10 at offset 0, plus the count |

## Left out

- Request decoding by the web framework is reduced to its outcome. The model does not capture JSON syntax, a JSON value of the wrong type (both are a `MalformedJson` body), or query text that is present but empty. Error message texts are not modelled either. A JSON key missing from the body decodes as the empty string, as Go's zero value.
- `errorResponse` and `Server` are defined in files that are not part of this model. An error body is modelled as the error value it wraps.
- JSON encoding of responses (`ctx.JSON`) is not modelled. A response is a status and a body value.
- The store's implementation, its SQL and the identity comparison with `sql.ErrNoRows` are not modelled. The store is represented only by the outcomes it returns. Which accounts a page holds and whether the total matches them is the store's business; the handler checks neither.
- The goroutines and the four buffered channels of the list handler are not modelled. Each task delivers exactly one outcome, and the handler reads both before deciding, so two outcome parameters capture it. The placeholder values a failed task sends (`nil` accounts, total `0`) are never used and are not modelled.
- The request context, cancellation and timeouts are not modelled; the code only passes the context through.
- `db.Account` is defined in a file that is not part of this model. Only its id, owner, balance and currency are represented, and the handlers pass it through without looking inside.
