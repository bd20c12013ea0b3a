/** What the handlers see of the `db` store: its records, the arguments of its four
    queries, and the outcome of a query as a tagged result. The store itself (SQL,
    connections, the generated query code) is not part of this model. */
module Store {

  datatype Option<T> = None | Some(value: T)

  /** The enumerated `db.Currency`. */
  datatype Currency = USD | EUR | VND

  /** The text a currency is written as, in requests and in the database. */
  function Code(c: Currency): string {
    match c
    case USD => "USD"
    case EUR => "EUR"
    case VND => "VND"
  }

  /** The currency written as `s`, if `s` names one. */
  function ParseCurrency(s: string): (r: Option<Currency>)
    ensures r.Some? <==> s in {"USD", "EUR", "VND"}
    ensures r.Some? ==> Code(r.value) == s
  {
    if s == "USD" then Some(USD)
    else if s == "EUR" then Some(EUR)
    else if s == "VND" then Some(VND)
    else None
  }

  /** Every currency's code parses back to that currency. */
  lemma ParseCode(c: Currency)
    ensures ParseCurrency(Code(c)) == Some(c)
  {
    match c
    case USD =>
    case EUR =>
    case VND =>
  }

  /** A stored account as the store returns it; the handlers never look inside. */
  datatype Account = Account(id: int, owner: string, balance: int, currency: Currency)

  datatype CreateAccountParams = CreateAccountParams(owner: string, currency: Currency, balance: int)

  datatype ListAccountsParams = ListAccountsParams(limit: int, offset: int)

  /** One query issued to the store, with its arguments. */
  datatype Call =
    | CreateAccountCall(createParams: CreateAccountParams)
    | GetAccountCall(id: int)
    | ListAccountsCall(listParams: ListAccountsParams)
    | CountAccountsCall

  /** The result of one query: a value, the "no rows" error, or any other error. */
  datatype Outcome<T> = Ok(value: T) | NotFound | Err(message: string)
}
