# Openbank session and pagination engine, modelled in Dafny

This project models the core of the Openbank client of `bank_scrap`
(`lib/bank_scrap/banks/openbank/bank.rb`): a stateful client for the bank's
SOAP-like API that logs in, lists accounts and pages through an account's
transactions.

- **Session state** (`SessionState`, `Openbank.Bank`). The client keeps a cookie
  credential, a security token and the user-data block. `parse_context` runs after
  every response. It overwrites a field only when the response carries it, so a
  field once captured is never cleared. `Updated` is the pure update and `Replay`
  applies it over a run of responses. `Bank.ParseContext` is the in-place method
  that performs it on the object's three fields.
- **Defaulting lookup** (`Xml`). A response is abstracted as the elements its
  XPath queries find. `value_at_xpath` returns the whitespace-stripped text when
  the path matches and the given default otherwise. Stripping follows Ruby's
  `String#strip`, characterised by `Text.StrippedFrom` and proved unique.
- **Request builders** (`Envelopes`). Each envelope is reduced to its ordered
  meaningful fields. `xml_date` emits day, month and year as three elements,
  proved readable back to the date. `xml_account` raises when no user data was
  captured. Its continuation flag is `S` exactly when a `repo` cursor is given.
- **Pagination** (`Openbank.Bank.FetchTransactionsFor`). The server is a sequence
  of answers: request `k` is answered by `server[k]`. The loop posts exactly
  `PageCount(server)` requests, stopping after the first page whose `finLista` is
  not `N`. Each request is the one `PageRequest` describes, carrying the previous
  page's cursor. The result is every page's mapped movements, concatenated in
  fetch order.
- **Domain mappers** (`Mappers`). `build_account` strips spaces from the IBAN
  and raises without `contratoIDViejo`. Its description is the alias lookup
  result. `build_transaction` reads fixed paths. `money` deletes every `.`.

In four places the code behaves otherwise than its intent might suggest, and
the model follows the code:
- `description` never falls back to the contract name. The alias lookup returns
  `''`, not `nil`, when there is no alias, and `''` is truthy in Ruby
  (`Mappers.DescriptionIgnoresName`).
- The code raises no "malformed response" error. `Nokogiri::XML` recovers from
  bad input, so the model has no such error path.
- Pages fetched before an error are not rolled back. In the model the only
  error in the fetch (no user data) happens before the first post.
- The user name is upper-cased, not case-folded.

## Model

| member | source | states |
|---|---|---|
| Text.Strip | lib/bank_scrap/banks/openbank/bank.rb:221 | the result is `s` minus leading and trailing whitespace (Ruby's set: NUL, tab, LF, VT, FF, CR, space), a contiguous slice of `s`; it is empty exactly when `s` is all whitespace |
| Text.StrippedFromUnique | lib/bank_scrap/banks/openbank/bank.rb:221 | the stripping characterisation admits one result only, so `Strip` is fully specified by its contract |
| Text.StripIdempotent | lib/bank_scrap/banks/openbank/bank.rb:221 | stripping a stripped value changes nothing |
| Xml.ValueAtOr | lib/bank_scrap/banks/openbank/bank.rb:219-222 | absent path gives the (possibly nil) default; present path gives the stripped content; absence never fails |
| Xml.ValueAt | lib/bank_scrap/banks/openbank/bank.rb:219-222 | same lookup with a string default (`''` when none is given); an all-whitespace element reads as `''` |
| SessionState.Updated | lib/bank_scrap/banks/openbank/bank.rb:98-104 | each of cookie, token and user data becomes the response's (stripped) value when present and keeps the previous value otherwise; a set field is never cleared |
| SessionState.SilentResponseKeepsSession | lib/bank_scrap/banks/openbank/bank.rb:100-102 | a response carrying none of the three fields leaves the session unchanged |
| SessionState.UpdatedIdempotent | lib/bank_scrap/banks/openbank/bank.rb:98-104 | processing the same response twice equals processing it once |
| SessionState.FullResponseOverrides | lib/bank_scrap/banks/openbank/bank.rb:100-102 | a response carrying all three fields determines the session regardless of the earlier state |
| SessionState.ReplayNeverClears | lib/bank_scrap/banks/openbank/bank.rb:100-102 | over any run of responses a captured cookie, token or user data stays captured |
| SessionState.ReplaySilent | lib/bank_scrap/banks/openbank/bank.rb:100-102 | a run of responses none of which carries a session field leaves the session as it was |
| SessionState.ReplayTokenFromLastSender | lib/bank_scrap/banks/openbank/bank.rb:101 | after a run of responses the token is the stripped token of the last response that carried one |
| Openbank.Bank.ParseContext | lib/bank_scrap/banks/openbank/bank.rb:98-104 | updates the three fields in place exactly as `Updated` says and returns the document |
| Openbank.Bank.constructor | lib/bank_scrap/banks/openbank/bank.rb:14-28 | stores the upper-cased user, password and public address, then the session is the login response applied to an empty session |
| Openbank.Bank.Login | lib/bank_scrap/banks/openbank/bank.rb:92-96 | posts to the login listener (`BASE_ENDPOINT + LOGIN_ENDPOINT`) the login envelope built from user, password and address, and applies the answer to the session |
| Openbank.Bank.FetchAccounts | lib/bank_scrap/banks/openbank/bank.rb:32-40 | posts to the products listener the products envelope with the pre-call token, updates the session from the answer, then maps the account nodes (failing as `MapAccounts` does) |
| Openbank.Bank.FetchTransactionsFor | lib/bank_scrap/banks/openbank/bank.rb:47-67 | without user data: fails before posting, session unchanged; otherwise exactly `PageCount` posts, all to the account listener, each request as `PageRequest` builds it, result the concatenation of every page's mapped movements in order, session replayed over those pages |
| Openbank.PageCount | lib/bank_scrap/banks/openbank/bank.rb:55-63 | the number of posts is one more than the number of leading pages whose marker is `N`; the last page fetched is the first whose marker is anything else, absence included |
| Openbank.FirstRequestHasNoCursor | lib/bank_scrap/banks/openbank/bank.rb:49-56 | the first request carries no `repo` and no `importeCta` and has `esUnaPaginacion` = `N` |
| Openbank.NextRequestCarriesCursor | lib/bank_scrap/banks/openbank/bank.rb:56-62 | request k+1 carries exactly page k's `repo` and `importeCta` nodes, and its flag is `S` iff that `repo` was present |
| Openbank.EmptyPageContinues | lib/bank_scrap/banks/openbank/bank.rb:55-63 | a page with no movements whose marker is `N` does not stop the loop |
| Openbank.ThreePages | lib/bank_scrap/banks/openbank/bank.rb:55-63 | with markers `N`, `N`, `Y` exactly three requests are posted |
| Openbank.SentToAccountListener | lib/bank_scrap/banks/openbank/bank.rb:56 | every request built as `PageRequest` says is addressed to `BASE_ENDPOINT + ACCOUNT_ENDPOINT` |
| Envelopes.XmlDate | lib/bank_scrap/banks/openbank/bank.rb:159-161 | three elements `dia`, `mes`, `anyo`, in that order, whose texts are the decimal forms of day, month and year and read back to the date |
| Envelopes.XmlAccount | lib/bank_scrap/banks/openbank/bank.rb:163-186 | fails iff no user data was captured; a `listaMovCuentasFechas_LIP` call for the account listener; flag `S` iff `repo` given; `repo` and `importeCta` copied as markup (empty when nil); token, header, user data, contract id and both dates carried |
| Envelopes.FormatUser | lib/bank_scrap/banks/openbank/bank.rb:88-90 | same length; each lower-case letter becomes its capital (code minus 32), every other character is kept, none lower-case remains; formatting twice is formatting once |
| Envelopes.TokenText | lib/bank_scrap/banks/openbank/bank.rb:106-114 | the security header carries the session token, or nothing when none has been received |
| Envelopes.TokenTextAfterResponse | lib/bank_scrap/banks/openbank/bank.rb:101 | after a response the header carries that response's stripped token when it sent one, the earlier token otherwise |
| Envelopes.DatosCabecera | lib/bank_scrap/banks/openbank/bank.rb:116-124 | the header block is `version` 3.0.4, `terminalID` Android, `idioma` es-ES, in that order |
| Envelopes.XmlProducts | lib/bank_scrap/banks/openbank/bank.rb:126-137 | an `obtenerPosGlobal_LIP` call for the products listener carrying the session token and the fixed header |
| Envelopes.XmlLogin | lib/bank_scrap/banks/openbank/bank.rb:139-157 | an `authenticateCredential` call for the login listener carrying the user, document type `N`, the password and the public address |
| Text.Upcase | lib/bank_scrap/banks/openbank/bank.rb:89 | each lower-case ASCII letter becomes its capital, every other character is kept |
| Text.Decimal | lib/bank_scrap/banks/openbank/bank.rb:160 | non-empty, digits only, no leading zero |
| Text.DecimalRoundTrip | lib/bank_scrap/banks/openbank/bank.rb:160 | reading a number's decimal text gives the number back |
| Text.Delete | lib/bank_scrap/banks/openbank/bank.rb:197 | the deleted character no longer occurs and the string does not grow |
| Text.DeleteCounts | lib/bank_scrap/banks/openbank/bank.rb:225 | exactly the occurrences of the deleted character go; every other character keeps its count |
| Text.DeleteConcat | lib/bank_scrap/banks/openbank/bank.rb:197 | deletion works piecewise, so the kept characters keep their order |
| Text.DeleteSeparator | lib/bank_scrap/banks/openbank/bank.rb:197 | deleting a single separator joins the two sides |
| Mappers.IbanExample | lib/bank_scrap/banks/openbank/bank.rb:197 | `"ES12 3456"` becomes `"ES123456"` |
| Mappers.Money | lib/bank_scrap/banks/openbank/bank.rb:224-226 | the amount text handed on is the input with every `.` deleted, so none remains and every other character keeps its count; the currency is passed through |
| Mappers.MoneyExample | lib/bank_scrap/banks/openbank/bank.rb:225 | `"1.234"` is handed on as `"1234"` |
| Mappers.BuildAccount | lib/bank_scrap/banks/openbank/bank.rb:189-201 | fails iff `contratoIDViejo` is absent; id, name, available balance, balance and currency read from their fixed paths; IBAN is the `IBAN` text with spaces deleted; contract id is that node's children; description is the alias lookup, `''` without an alias |
| Mappers.AccountIbanExample | lib/bank_scrap/banks/openbank/bank.rb:197 | an account node whose IBAN reads `"ES12 3456"` yields the account IBAN `"ES123456"` |
| Mappers.DescriptionIgnoresName | lib/bank_scrap/banks/openbank/bank.rb:198 | with no alias and a non-empty contract name the description is still `''` |
| Mappers.MapAccounts | lib/bank_scrap/banks/openbank/bank.rb:39 | succeeds iff every account node has `contratoIDViejo`; then one account per node, in node order |
| Mappers.BuildTransaction | lib/bank_scrap/banks/openbank/bank.rb:204-217 | the transaction belongs to the given account; id, description, date and currency come from their paths; the amount is `money` of `importe/IMPORTE` in the movement currency, the balance `money` of `importeSaldo/IMPORTE` in its own currency, both without `.` |
| Mappers.MapTransactions | lib/bank_scrap/banks/openbank/bank.rb:59 | one transaction per movement node, in node order |
| Mappers.CollectedConcat | lib/bank_scrap/banks/openbank/bank.rb:59 | collecting two runs of pages equals collecting each and concatenating, so pages appear in fetch order |
| Mappers.CollectedLength | lib/bank_scrap/banks/openbank/bank.rb:59 | the result has exactly one transaction per movement node over all pages |

## Left out

- `public_ip`: the HTTP call to the address service is not modelled. The address is a constructor parameter.
- `post`, `initialize_connection`, `set_headers`, `default_headers`, `log` and `super`: transport and logging live in a superclass that is not part of this model. A post is its answer, taken from the given documents. Transport failures are not modelled.
- XML parsing and XPath evaluation: a response is given as the elements each query finds (`Xml.Document`). Well-formedness is not modelled.
- Envelope text: the heredocs' whitespace, namespaces and attributes are not modelled. Each envelope is the ordered list of values it carries.
- `Money.new` and `Date.strptime`: foreign library calls. The model keeps their argument texts (`MoneyText`, `effectiveDate`), so amount arithmetic and date validation errors are not modelled.
- `Openbank::Account` and `Transaction`: their classes are not part of this model. They are plain records, and the `bank: self` back-reference is dropped.
- `fetch_transactions_for` default dates (`Date.today`, one month earlier): the clock is not modelled. Both dates are parameters.
- `FetchTransactionsFor`: the server's answers are a fixed sequence that does not depend on the request, and must end the fetch at some page. The source would loop forever against a server that always answers `N`.
- `FormatUser`: maps only ASCII `a`–`z`. Ruby's `upcase` also maps non-ASCII letters.
- `XmlDate`: years are non-negative. Dates before year 0 are not modelled.
- `lib/bank_scrap/cli.rb`: command-line options, environment defaults, terminal output and bank-class lookup are not part of this model.
