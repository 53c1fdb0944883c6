# Airtable HTTP client — a verified model

This project models the HTTP client of the `wt_airtable_client` package
(`wt_airtable_client/airtable_http_client.py`). The client talks to one
Airtable table. The model covers these parts of it:

- how the client is constructed: the route
  `https://api.airtable.com/v0/<base_id>/<table>` and the bearer
  `Authorization` header;
- the query parameter lists that `list_records`, `get_record` and
  `get_records_by_fields` build, including the cell-format parameters that
  `_handle_cell_format_params` appends in place after its assertion;
- the two filter formulas, `FIND('<id>', {<id column>}) != 0` and
  `AND({k}='v',...)`, and their encoding with `urllib.parse.quote_plus`;
- the status and body checks that `get_record` applies to a response;
- the body and headers of the POST that `create_record` sends.

The model is made of these modules:

- `Wrappers`: `Option` and `Result`.
- `Text`:
  - `"sep".join` and its inverse `split`;
  - the code-point order that `sorted` uses on `str` keys, and `sorted` itself;
  - `str(int)` and its inverse.
- `FormEncoding`:
  - `quote_plus`: UTF-8 first, then percent-encoding as in sections 2.1 and 2.3 of RFC 3986, with the space written as `+`;
  - a reference decoder, which the encoder is proved against.
- `JsonValue`:
  - parsed JSON values;
  - Python's truthiness, `in` and `[]` on them.
- `AirtableHttpClient`, the client itself:
  - The request-building steps are pure functions.
  - The Python list `params` is the class `ParamList`, whose `items` field is reassigned by `Append`.
  - `_handle_cell_format_params` and the four request methods are methods.
  - The network is a parameter `server: Request -> Response`. Each method returns the requests it sent.
- `ClientProperties`: the properties the client promises, proved for all inputs.
- `ClientExamples`: the repository's test cases, stated as facts about the model.

## Model

| member | source | states |
|---|---|---|
| AirtableHttpClient.NewClient | wt_airtable_client/airtable_http_client.py:46-50 | the route is the API root, the base id and the table name joined by `/`; the only header is `Authorization: Bearer <api_key>`; the id column is kept |
| ClientProperties.ClientRouteSegments | wt_airtable_client/airtable_http_client.py:46-48 | when neither the base id nor the table name holds `/`, splitting the route at `/` gives the root's segments, then the base id, then the table name; the header dict has exactly the one key `Authorization`, holding `"Bearer " + api_key` |
| Text.SplitJoin | wt_airtable_client/airtable_http_client.py:46 | `split(sep)` inverts `sep.join(parts)` when no part holds the separator |
| Text.SplitJoinFirst | wt_airtable_client/airtable_http_client.py:109 | the first piece of a split join is the first part, whatever the later parts hold |
| AirtableHttpClient.CheckResponse | wt_airtable_client/airtable_http_client.py:53-55 | an error exactly when the status is not 200, and that error is ApiError |
| AirtableHttpClient.CellFormatParams | wt_airtable_client/airtable_http_client.py:64-71 | the assertion fails exactly when the cell format is `string` and the time zone or the locale is missing or empty; the error is AssertionError with the source's message; with `string` the three parameters `cellFormat=string`, `timeZone=<tz>`, `userLocale=<loc>` come in that order; otherwise none |
| AirtableHttpClient.ParamList.constructor | wt_airtable_client/airtable_http_client.py:83 | the list starts with the one element given |
| AirtableHttpClient.ParamList.Append | wt_airtable_client/airtable_http_client.py:69-71 | `list.append`: the old items, then the new one, nothing else changed |
| AirtableHttpClient.HandleCellFormatParams | wt_airtable_client/airtable_http_client.py:58-71 | on a failed assertion the list is untouched and the AssertionError is reported; otherwise the list is its old items followed by the cell-format parameters |
| ClientProperties.CellFormatAssertionFirst | wt_airtable_client/airtable_http_client.py:64-66 | a failed assertion means the cell format was `string`; then `list_records` and `get_record` raise the AssertionError and send nothing; `get_records_by_fields` raises it too, unless its formula already raised a TypeError |
| AirtableHttpClient.ListRecords | wt_airtable_client/airtable_http_client.py:73-95 | builds the parameter list step by step. On an assertion failure nothing is sent. Otherwise exactly one GET is sent, to `route?` plus the `&`-joined parameters, with the client's headers, and the raw response is returned |
| ClientProperties.ListRecordsMaxRecordsFirst | wt_airtable_client/airtable_http_client.py:83 | the first parameter is always `maxRecords=`: `maxRecords=None` when none is given, otherwise text that `int()` reads back as the number given |
| ClientProperties.ListRecordsParamOrder | wt_airtable_client/airtable_http_client.py:83-91 | after `maxRecords` comes `pageSize=<n>` exactly when a page size is given (read back by `int()`), then `offset=<o>` exactly when an offset is given, then the cell-format parameters, which end the list |
| ClientProperties.ListRecordsUrlQuery | wt_airtable_client/airtable_http_client.py:93-95 | the request is a GET with the client's headers; its URL is the route, `?`, and a query that splits at `&` back into exactly the parameters built |
| Text.IntToDecimalRoundTrip | wt_airtable_client/airtable_http_client.py:83-86 | `int(str(n)) == n` for every integer, negative ones included |
| Text.IntToDecimalCharacters | wt_airtable_client/airtable_http_client.py:83-86 | `str(n)` holds only digits and a minus sign, so never `&` |
| AirtableHttpClient.GetRecord | wt_airtable_client/airtable_http_client.py:97-124 | on an assertion failure nothing is sent. Otherwise one GET filtered by the encoded formula is sent, and the status check, then the body check, decide the result |
| ClientProperties.GetRecordFilter | wt_airtable_client/airtable_http_client.py:105-109 | the request is a GET with the client's headers to `route?...`; decoding its first parameter, named `filterByFormula`, gives back `FIND('<id>', {<id column>}) != 0` |
| ClientProperties.GetRecordUrlQuery | wt_airtable_client/airtable_http_client.py:105-109 | the URL is the route, `?`, and a query that splits at `&` into exactly `filterByFormula=<quote_plus(FIND formula)>` followed by the cell-format parameters |
| ClientProperties.FilteredQuery | wt_airtable_client/airtable_http_client.py:106-109 | `route?` plus the `&`-join of the filter parameter and further parameters free of `&` splits back into exactly those parameters |
| ClientProperties.CellFormatParamsNoAmpersand | wt_airtable_client/airtable_http_client.py:69-71 | the cell-format parameters hold no `&` when the time zone and the locale hold none |
| ClientProperties.FilterParamReadBack | wt_airtable_client/airtable_http_client.py:106-109 | in `route?filterByFormula=<quote_plus(f)>&...`, the first parameter decodes to `f`, whatever parameters follow |
| ClientProperties.EncodedParamFirst | wt_airtable_client/airtable_http_client.py:106 | a parameter `name=<quote_plus(v)>` placed first in an `&`-join is read back as `v`, because encoded text holds no `&` |
| FormEncoding.QuotePlusRoundTrip | wt_airtable_client/airtable_http_client.py:105 | decoding the output of `quote_plus(s)` gives `s` back, for every string |
| FormEncoding.Utf8RoundTrip | wt_airtable_client/airtable_http_client.py:105 | UTF-8 decoding inverts the encoding `quote_plus` applies first |
| FormEncoding.Utf8CharShape | wt_airtable_client/airtable_http_client.py:105 | a character's UTF-8 bytes are a leading byte announcing their number, then continuation bytes, and they carry the character's value |
| FormEncoding.QuotePlusFormEncoded | wt_airtable_client/airtable_http_client.py:137 | `quote_plus` produces only unreserved characters, `+`, and `%` followed by two upper-case hex digits |
| FormEncoding.FormEncodedCharacters | wt_airtable_client/airtable_http_client.py:137-141 | such text holds no character but unreserved ones, `+` and `%`, so no `&`, `=`, `?` or space |
| FormEncoding.QuotePlusAppend | wt_airtable_client/airtable_http_client.py:105 | `quote_plus(a + b) == quote_plus(a) + quote_plus(b)` |
| FormEncoding.QuotePlusUnreserved | wt_airtable_client/airtable_http_client.py:105 | text made of unreserved characters passes through unchanged |
| FormEncoding.SpecialCharacters | wt_airtable_client/airtable_http_client.py:105 | space becomes `+`; `+ % & = / : ! ( ) { } [ ] ' ,` become `%2B %25 %26 %3D %2F %3A %21 %28 %29 %7B %7D %5B %5D %27 %2C` |
| FormEncoding.EscapedAscii | wt_airtable_client/airtable_http_client.py:105 | any other ASCII character outside the unreserved set becomes `%` and its two upper-case hex digits |
| JsonValue.Contains | wt_airtable_client/airtable_http_client.py:117 | `key in v` is defined exactly for dicts, lists and strings, where Python does not raise a TypeError; on a dict it is key membership |
| JsonValue.Lookup | wt_airtable_client/airtable_http_client.py:118-124 | `v[key]` succeeds exactly on a dict holding the key, and gives its value |
| AirtableHttpClient.SingleRecordFields | wt_airtable_client/airtable_http_client.py:115-124 | the body is accepted exactly when it is a dict whose `records` is a one-element list whose element is a dict holding `fields`; the result is then that `fields`. Otherwise the result is BadResponseError, or a TypeError wherever `in` or `[]` meets a value of the wrong kind; a body that is no container always raises the TypeError |
| ClientProperties.SingleRecordTypeError | wt_airtable_client/airtable_http_client.py:116-124 | the body check raises a TypeError, not BadResponseError, exactly when `in` meets a body that is no container, `[]` meets a list or string body that holds `records`, or, on the single record, `in` meets a record that is no container or `[]` a list or string record that holds `fields` |
| ClientProperties.GetRecordStatusFirst | wt_airtable_client/airtable_http_client.py:111-124 | the result is ApiError exactly when the status is not 200 (the body check never raises it); at 200 the body check alone decides |
| Text.SortedKeys | wt_airtable_client/airtable_http_client.py:135 | `sorted(keys)` lists every key exactly once, strictly ascending in code-point order |
| Text.StrictlySortedUnique | wt_airtable_client/airtable_http_client.py:135 | two strictly ascending listings of the same keys are equal, so `sorted` has one answer |
| Text.SortedKeysPair | wt_airtable_client/airtable_http_client.py:135 | `sorted` of two keys puts the smaller first |
| Text.LexLeTotal | wt_airtable_client/airtable_http_client.py:135 | any two strings are comparable in code-point order |
| Text.LexLeAntisymmetric | wt_airtable_client/airtable_http_client.py:135 | strings that each come no later than the other are equal |
| Text.LexLeTransitive | wt_airtable_client/airtable_http_client.py:135 | code-point order is transitive |
| ClientProperties.IncludedKeys | wt_airtable_client/airtable_http_client.py:135 | the keys filtered on are strictly ascending and are exactly those whose values are truthy |
| ClientProperties.FieldClausesFail | wt_airtable_client/airtable_http_client.py:135 | the comprehension raises exactly when some truthy value is not a string, and what it raises is a TypeError |
| ClientProperties.FieldClausesValue | wt_airtable_client/airtable_http_client.py:135 | otherwise it yields `{k}='v'` for exactly the truthy keys, in ascending order |
| ClientProperties.FieldsFormulaMeaning | wt_airtable_client/airtable_http_client.py:134-136 | the formula raises a TypeError exactly when a truthy value is not a string; otherwise it is `AND(` + the `,`-joined clauses of the truthy keys in ascending order + `)` |
| ClientProperties.AllFalsyFormula | wt_airtable_client/airtable_http_client.py:134-136 | with no truthy value the formula is `AND()` |
| ClientProperties.FieldsFormulaPair | wt_airtable_client/airtable_http_client.py:134-136 | two non-empty string values give both clauses, the smaller key first |
| ClientProperties.FieldsFormulaSkipsFalsy | wt_airtable_client/airtable_http_client.py:135 | a falsy value contributes no clause, whichever side of the other key it sorts on |
| ClientProperties.GetRecordsByFieldsFilter | wt_airtable_client/airtable_http_client.py:134-141 | for string-valued fields the request is a GET with the client's headers to `route?...`, and decoding its first parameter, `filterByFormula`, gives the formula back |
| ClientProperties.GetRecordsByFieldsUrlQuery | wt_airtable_client/airtable_http_client.py:134-141 | for string-valued fields the URL is the route, `?`, and a query that splits at `&` into exactly `filterByFormula=<quote_plus(AND formula)>` followed by the cell-format parameters |
| AirtableHttpClient.GetRecordsByFields | wt_airtable_client/airtable_http_client.py:126-143 | the formula is built first, then the cell-format assertion is checked; a failure of either sends nothing; otherwise exactly one GET is sent and its raw response returned |
| AirtableHttpClient.JsonContentHeaders | wt_airtable_client/airtable_http_client.py:148 | `{**headers, "Content-Type": "application/json"}`: every given header is kept, and the content type is added or overridden |
| AirtableHttpClient.CreateRecordRequest | wt_airtable_client/airtable_http_client.py:145-150 | a POST to the route itself, with the client's headers plus the JSON content type, whose body is a dict with the one key `records` |
| AirtableHttpClient.CreateRecord | wt_airtable_client/airtable_http_client.py:145-150 | exactly one request, that POST, is sent, and its raw response is returned |
| ClientProperties.CreateRecordBodyShape | wt_airtable_client/airtable_http_client.py:146 | the body is a one-element `records` list whose `fields` is the input unchanged, exactly what `get_record`'s body check accepts |
| ClientExamples.TestClientState | test/test_airtable_http_client.py:14-26 | the client of the tests has route `https://api.airtable.com/v0/base_id/MyTable` and the single header `Authorization: Bearer api_key` |
| ClientExamples.ListRecordsTestUrl | test/test_airtable_http_client.py:29-47 | page size 3, offset `rec123` and 10 records give `?maxRecords=10&pageSize=3&offset=rec123` |
| ClientExamples.ListRecordsDefaultsUrl | wt_airtable_client/airtable_http_client.py:76-93 | with the defaults the query is `maxRecords=None&pageSize=100` |
| ClientExamples.RecordIdFormulaEncoded | wt_airtable_client/airtable_http_client.py:105 | the encoded `FIND` formula is `FIND%28%27<id>%27%2C+%7B<column>%7D%29+%21%3D+0`, with the id and the column encoded in place |
| ClientExamples.GetRecordTestUrl | test/test_airtable_http_client.py:52-58 | `get_record("id123")` requests exactly the URL the test expects, with the test's header |
| ClientExamples.GetRecordFound | test/test_airtable_http_client.py:53-81 | the test's one-record body gives back its fields |
| ClientExamples.GetRecordNotFound | test/test_airtable_http_client.py:84-93 | a 404 is an ApiError, whatever the body |
| ClientExamples.GetRecordBadResponses | test/test_airtable_http_client.py:95-115 | the five malformed bodies served with status 200 are each a BadResponseError |
| ClientExamples.GetRecordTypeErrors | wt_airtable_client/airtable_http_client.py:116-124 | a record that is a number, a list body holding `"records"`, a record that is a list holding `"fields"` and a string body containing `records` each raise a TypeError at status 200 |
| ClientExamples.GetRecordsByFieldsTestFormula | test/test_airtable_http_client.py:119-121 | the test's two fields give the clause for `Coverage [Web: Link]` first, then the one for `Subject [ISO Code]` |
| ClientExamples.GetRecordsByFieldsTestUrl | test/test_airtable_http_client.py:117-139 | the test's two fields give a GET to the test's route plus `?filterByFormula=AND%28%7BCoverage+%5BWeb%3A+Link%5D%7D%3D%27http%3A%2F%2Fwww.baayaga.narod.ru%27%2C%7BSubject+%5BISO+Code%5D%7D%3D%27sah%27%29`, written as fragments that join to that literal, with the bearer header |
| ClientExamples.CoverageKeyEncoded | test/test_airtable_http_client.py:121-124 | `Coverage [Web: Link]` encodes as `Coverage+%5BWeb%3A+Link%5D` |
| ClientExamples.SubjectKeyEncoded | test/test_airtable_http_client.py:121-124 | `Subject [ISO Code]` encodes as `Subject+%5BISO+Code%5D` |
| ClientExamples.ResourceUrlEncoded | test/test_airtable_http_client.py:120-124 | `http://www.baayaga.narod.ru` encodes as `http%3A%2F%2Fwww.baayaga.narod.ru`: only `:` and `/` are escaped |
| ClientExamples.PairPlainUrl | wt_airtable_client/airtable_http_client.py:134-141 | two string values, in whichever order the dict is written, give the route, `?filterByFormula=AND%28`, the smaller key's encoded clause, `%2C`, the other's, and `%29` |
| ClientExamples.PairFormulaEncoded | test/test_airtable_http_client.py:122-126 | the encoded formula for two string values is `AND%28`, the first encoded clause, `%2C`, the second, then `%29` |
| ClientExamples.GetRecordsByFieldsNullTestFormula | test/test_airtable_http_client.py:145-146 | the key whose value is `None` contributes no clause |
| ClientExamples.GetRecordsByFieldsNullTestUrl | test/test_airtable_http_client.py:143-165 | with a `None` subject, the request is a GET to the test's route plus `?filterByFormula=AND%28%7BCoverage+%5BWeb%3A+Link%5D%7D%3D%27http%3A%2F%2Fwww.baayaga.narod.ru%27%29`, written as fragments that join to that literal, with the bearer header |
| ClientExamples.SingleFormulaEncoded | test/test_airtable_http_client.py:147-151 | one string value beside a falsy one encodes as `AND%28` plus one encoded clause plus `%29` |
| ClientExamples.ByFieldsPlainUrl | wt_airtable_client/airtable_http_client.py:137-141 | without cell-format arguments the URL is the route, `?filterByFormula=`, and the encoded formula |
| ClientExamples.CreateRecordTest | test/test_airtable_http_client.py:169-193 | the test client posts to its route with both headers; the body's `records` is a list of one record whose `fields` is the dict given |

## Left out

- The network: `requests.get` and `requests.post` are the `server` parameter, and a response is reduced to its status code and body.
- `json.loads` is not modelled. The body arrives already parsed, and `response.text` is not modelled.
- JSON numbers are integers. Floats are not modelled.
- Python run with `-O` drops the `assert` in `_handle_cell_format_params`. The model always performs the check.
- `airtable_connection_info.py` and `airtable_table_info.py` are not part of this model. Their classes become the plain datatypes `ConnectionInfo` and `TableInfo`.
- The keys of `fields` are strings. A non-`str` key may make `sorted` or `"{" + key` raise; the model does not represent such keys.
- Dafny's `char` is a Unicode scalar value, so the lone surrogates that make Python's UTF-8 encoder raise cannot occur.
- `ListRecordsUrlQuery`: only for an offset, time zone and locale that hold no `&`. The code sends these three values unescaped, so one holding `&` splits into extra parameters. The model sends them unescaped too.
- `ClientProperties.GetRecordUrlQuery`: only for a time zone and locale that hold no `&`, because the code appends them unescaped.
- `ClientProperties.GetRecordsByFieldsUrlQuery`: only for a time zone and locale that hold no `&`, for the same reason.
- `FormEncoding.UnquotePlus` is a strict reference decoder. It refuses malformed escapes and non-ASCII input, which Python's `unquote_plus` tolerates. It serves only as the inverse that `quote_plus` is proved against.
- `ClientExamples.GetRecordsByFieldsTestUrl` and `ClientExamples.GetRecordsByFieldsNullTestUrl`: the expected query is written as consecutive literal fragments rather than as one literal. Joined, the fragments are exactly the tests' literals.
- The documented behaviour differs from the code, and the model follows the code:
  - `_check_response` accepts status 200 only, not every 2xx status;
  - `list_records`, `get_records_by_fields` and `create_record` return the raw response, with no pagination and no typed record;
  - `list_records` always sends `maxRecords`, as `maxRecords=None` when none is given;
  - there is no `update_record`;
  - a body of the wrong kind is meant to be a BadResponseError, but `get_record` raises a TypeError wherever `in` or `[]` meets a value of the wrong kind (`SingleRecordTypeError` states exactly when).
