/** The HTTP client for one Airtable table: the route and authorization
    header fixed at construction, the query strings and filter formulas
    each request carries, the body and headers of a record creation, and
    the checks applied to the response of a single-record lookup.

    The network is a parameter `server: Request -> Response`: each method
    hands its one request to it and reports, in `sent`, which requests it
    issued.  A response is its status code and its already-parsed JSON
    body. */
module AirtableHttpClient {

  import opened Wrappers
  import opened Text
  import opened FormEncoding
  import opened JsonValue

  // ---------------------------------------------------------------------
  // Configuration, errors and wire values

  /** `CellFormat.JSON` (value "json") and `CellFormat.STRING` (value "string"). */
  datatype CellFormat = JsonCells | StringCells {
    function Value(): string {
      if JsonCells? then "json" else "string"
    }
  }

  /** `AirtableHttpClientError` and its two subclasses. */
  datatype HttpClientError = ApiError | BadResponseError

  /** What a call raises instead of returning: an error of the client's own
      taxonomy, the AssertionError of the cell-format check, or the
      TypeError Python raises when an operator meets a value of the wrong
      type (`"records" in 5`, `"}='" + 3`). */
  datatype Failure =
    | ClientError(error: HttpClientError)
    | AssertionError(message: string)
    | TypeError

  const CellFormatMessage := "time_zone and user_locale are required if cell_format is string"

  /** `AirtableConnectionInfo`: the base and the key that opens it. */
  datatype ConnectionInfo = ConnectionInfo(baseId: string, apiKey: string)

  /** `AirtableTableInfo`: the table and the column holding record identifiers. */
  datatype TableInfo = TableInfo(name: string, idColumn: string)

  datatype Request =
    | Get(url: string, headers: map<string, string>)
    | Post(url: string, headers: map<string, string>, body: Json)

  datatype Response = Response(status: int, body: Json)

  const BaseUrl := "https://api.airtable.com/v0"

  /** The default of `list_records`' `page_size`. */
  const DefaultPageSize := 100

  /** The state an `AirtableHttpClient` keeps; fixed at construction. */
  datatype Client = Client(route: string, headers: map<string, string>, idColumn: string)

  /** `AirtableHttpClient.__init__`. */
  function NewClient(conn: ConnectionInfo, table: TableInfo): (c: Client)
    ensures c.route == BaseUrl + "/" + conn.baseId + "/" + table.name
    ensures c.headers == map["Authorization" := "Bearer " + conn.apiKey]
    ensures c.idColumn == table.idColumn
  {
    var parts := [BaseUrl, conn.baseId, table.name];
    assert parts[1..][1..] == parts[2..] == [table.name];
    assert Join('/', parts[1..]) == conn.baseId + "/" + table.name;
    Client(Join('/', parts), map["Authorization" := "Bearer " + conn.apiKey], table.idColumn)
  }

  // ---------------------------------------------------------------------
  // Query parameters

  /** Python's `bool(s)` for an `Optional[str]`. */
  predicate TruthyText(s: Option<string>) {
    s.Some? && s.value != ""
  }

  /** The assertion `_handle_cell_format_params` starts with. */
  predicate CellFormatArgsValid(cellFormat: Option<CellFormat>, timeZone: Option<string>, userLocale: Option<string>) {
    cellFormat != Some(StringCells) || (TruthyText(timeZone) && TruthyText(userLocale))
  }

  /** The parameters `_handle_cell_format_params` appends, or the
      AssertionError it raises before appending anything. */
  function CellFormatParams(cellFormat: Option<CellFormat>, timeZone: Option<string>, userLocale: Option<string>)
    : (r: Result<seq<string>, Failure>)
    ensures r.Err? <==> !CellFormatArgsValid(cellFormat, timeZone, userLocale)
    ensures r.Err? ==> r.error == AssertionError(CellFormatMessage)
    ensures r.Ok? && cellFormat == Some(StringCells) ==>
              |r.value| == 3 && r.value[0] == "cellFormat=string" &&
              r.value[1] == "timeZone=" + timeZone.value && r.value[2] == "userLocale=" + userLocale.value
    ensures r.Ok? && cellFormat != Some(StringCells) ==> r.value == []
  {
    if !CellFormatArgsValid(cellFormat, timeZone, userLocale) then
      Err(AssertionError(CellFormatMessage))
    else if cellFormat == Some(StringCells) then
      Ok(["cellFormat=" + StringCells.Value(), "timeZone=" + timeZone.value, "userLocale=" + userLocale.value])
    else
      Ok([])
  }

  /** The Python list `params` a request method builds and hands on. */
  class ParamList {
    var items: seq<string>

    constructor (first: string)
      ensures items == [first]
    {
      items := [first];
    }

    method Append(p: string)
      modifies this
      ensures items == old(items) + [p]
    {
      items := items + [p];
    }
  }

  /** `_handle_cell_format_params`: checks the cell-format arguments, then
      appends the three string-format parameters to `params` in place. */
  method HandleCellFormatParams(
    params: ParamList, cellFormat: Option<CellFormat>, timeZone: Option<string>, userLocale: Option<string>)
    returns (failure: Option<Failure>)
    modifies params
    ensures match CellFormatParams(cellFormat, timeZone, userLocale)
            case Err(e) => failure == Some(e) && params.items == old(params.items)
            case Ok(extra) => failure == None && params.items == old(params.items) + extra
  {
    if !CellFormatArgsValid(cellFormat, timeZone, userLocale) {
      return Some(AssertionError(CellFormatMessage));
    }
    failure := None;
    if cellFormat == Some(StringCells) {
      params.Append("cellFormat=" + StringCells.Value());
      params.Append("timeZone=" + timeZone.value);
      params.Append("userLocale=" + userLocale.value);
    }
  }

  /** Python's `str(v)` for an `Optional[int]`. */
  function OptionalIntText(v: Option<int>): string {
    match v
    case None => "None"
    case Some(n) => IntToDecimal(n)
  }

  /** `f'{route}?{"&".join(params)}'`. */
  function QueryUrl(route: string, params: seq<string>): string {
    route + "?" + Join('&', params)
  }

  /** The parameters `list_records` sends, in order. */
  function ListRecordsParams(
    pageSize: Option<int>, offset: Option<string>, maxRecords: Option<int>,
    cellFormat: Option<CellFormat>, timeZone: Option<string>, userLocale: Option<string>)
    : Result<seq<string>, Failure>
  {
    var paging :=
      ["maxRecords=" + OptionalIntText(maxRecords)]
      + (if pageSize.Some? then ["pageSize=" + IntToDecimal(pageSize.value)] else [])
      + (if offset.Some? then ["offset=" + offset.value] else []);
    match CellFormatParams(cellFormat, timeZone, userLocale)
    case Err(e) => Err(e)
    case Ok(extra) => Ok(paging + extra)
  }

  /** The GET `list_records` issues, or what it raises before issuing it. */
  function ListRecordsRequest(
    c: Client, pageSize: Option<int>, offset: Option<string>, maxRecords: Option<int>,
    cellFormat: Option<CellFormat>, timeZone: Option<string>, userLocale: Option<string>)
    : Result<Request, Failure>
  {
    match ListRecordsParams(pageSize, offset, maxRecords, cellFormat, timeZone, userLocale)
    case Err(e) => Err(e)
    case Ok(params) => Ok(Get(QueryUrl(c.route, params), c.headers))
  }

  /** `list_records`: builds the parameter list step by step and sends one
      GET; the raw response is the result. */
  method ListRecords(
    c: Client, server: Request -> Response,
    nameonly pageSize: Option<int> := Some(DefaultPageSize), nameonly offset: Option<string> := None,
    nameonly maxRecords: Option<int> := None, nameonly cellFormat: Option<CellFormat> := None,
    nameonly timeZone: Option<string> := None, nameonly userLocale: Option<string> := None)
    returns (r: Result<Response, Failure>, sent: seq<Request>)
    ensures match ListRecordsRequest(c, pageSize, offset, maxRecords, cellFormat, timeZone, userLocale)
            case Err(e) => r == Err(e) && sent == []
            case Ok(request) => r == Ok(server(request)) && sent == [request]
  {
    var params := new ParamList("maxRecords=" + OptionalIntText(maxRecords));
    if pageSize.Some? {
      params.Append("pageSize=" + IntToDecimal(pageSize.value));
    }
    if offset.Some? {
      params.Append("offset=" + offset.value);
    }
    assert params.items ==
      ["maxRecords=" + OptionalIntText(maxRecords)]
      + (if pageSize.Some? then ["pageSize=" + IntToDecimal(pageSize.value)] else [])
      + (if offset.Some? then ["offset=" + offset.value] else []);
    var failure := HandleCellFormatParams(params, cellFormat, timeZone, userLocale);
    if failure.Some? {
      return Err(failure.value), [];
    }
    var request := Get(QueryUrl(c.route, params.items), c.headers);
    r, sent := Ok(server(request)), [request];
  }

  // ---------------------------------------------------------------------
  // get_record

  /** The formula `get_record` filters by, before encoding. */
  function RecordIdFormula(id: string, idColumn: string): string {
    "FIND('" + id + "', {" + idColumn + "}) != 0"
  }

  /** The GET `get_record` issues, or what it raises before issuing it. */
  function GetRecordRequest(
    c: Client, id: string, cellFormat: Option<CellFormat>, timeZone: Option<string>, userLocale: Option<string>)
    : Result<Request, Failure>
  {
    var filter := "filterByFormula=" + QuotePlus(RecordIdFormula(id, c.idColumn));
    match CellFormatParams(cellFormat, timeZone, userLocale)
    case Err(e) => Err(e)
    case Ok(extra) => Ok(Get(QueryUrl(c.route, [filter] + extra), c.headers))
  }

  /** `_check_response`: anything but status 200 is an ApiError. */
  function CheckResponse(response: Response): (r: Option<Failure>)
    ensures r.Some? <==> response.status != 200
    ensures r.Some? ==> r.value == ClientError(ApiError)
  {
    if response.status != 200 then Some(ClientError(ApiError)) else None
  }

  /** A dict whose `records` is a list of exactly one dict holding `fields`. */
  predicate WellShaped(body: Json) {
    && body.Object? && "records" in body.members
    && body.members["records"].Array? && |body.members["records"].items| == 1
    && body.members["records"].items[0].Object?
    && "fields" in body.members["records"].items[0].members
  }

  /** The body check of `get_record`, evaluated the way Python evaluates
      its `or` chain: `records` must be in the body, be a list of exactly
      one element, and that element must hold `fields`, whose value is the
      result.  Wherever `in` or `[]` meets a value of the wrong kind,
      Python raises a TypeError instead: `in` on a body or a record that is
      no container, `[]` on a list or string that holds the key. */
  function SingleRecordFields(body: Json): (r: Result<Json, Failure>)
    ensures r.Ok? <==> WellShaped(body)
    ensures r.Ok? ==> r.value == body.members["records"].items[0].members["fields"]
    ensures r.Err? ==> r.error in {ClientError(BadResponseError), TypeError}
    ensures body.Object? && !WellShaped(body) &&
            ("records" in body.members && body.members["records"].Array? && |body.members["records"].items| == 1
             ==> body.members["records"].items[0].Object?)
            ==> r == Err(ClientError(BadResponseError))
    ensures body.Null? || body.Bool? || body.Number? ==> r == Err(TypeError)
  {
    match Contains(body, "records")
    case None => Err(TypeError)
    case Some(false) => Err(ClientError(BadResponseError))
    case Some(true) =>
      match Lookup(body, "records")
      case None => Err(TypeError)
      case Some(records) =>
        if !records.Array? || |records.items| != 1 then Err(ClientError(BadResponseError))
        else
          var record := records.items[0];
          match Contains(record, "fields")
          case None => Err(TypeError)
          case Some(false) => Err(ClientError(BadResponseError))
          case Some(true) =>
            match Lookup(record, "fields")
            case None => Err(TypeError)
            case Some(fields) => Ok(fields)
  }

  /** What `get_record` makes of the response it received. */
  function GetRecordResult(response: Response): Result<Json, Failure> {
    match CheckResponse(response)
    case Some(e) => Err(e)
    case None => SingleRecordFields(response.body)
  }

  /** `get_record`: one GET filtered on the identifier column, then the
      status and body checks. */
  method GetRecord(
    c: Client, id: string, server: Request -> Response,
    nameonly cellFormat: Option<CellFormat> := None, nameonly timeZone: Option<string> := None,
    nameonly userLocale: Option<string> := None)
    returns (r: Result<Json, Failure>, sent: seq<Request>)
    ensures match GetRecordRequest(c, id, cellFormat, timeZone, userLocale)
            case Err(e) => r == Err(e) && sent == []
            case Ok(request) => r == GetRecordResult(server(request)) && sent == [request]
  {
    var formula := QuotePlus(RecordIdFormula(id, c.idColumn));
    var params := new ParamList("filterByFormula=" + formula);
    var failure := HandleCellFormatParams(params, cellFormat, timeZone, userLocale);
    if failure.Some? {
      return Err(failure.value), [];
    }
    var request := Get(QueryUrl(c.route, params.items), c.headers);
    var response := server(request);
    sent := [request];
    var rejected := CheckResponse(response);
    if rejected.Some? {
      return Err(rejected.value), sent;
    }
    r := SingleRecordFields(response.body);
  }

  // ---------------------------------------------------------------------
  // get_records_by_fields

  /** `"{" + key + "}='" + value + "'"`. */
  function FieldClause(key: string, value: string): string {
    "{" + key + "}='" + value + "'"
  }

  /** The list comprehension of `get_records_by_fields`, over `keys` in the
      order given: falsy values are skipped, and a truthy value that is not
      a string makes the concatenation raise a TypeError. */
  function FieldClauses(keys: seq<string>, fields: map<string, Json>): Result<seq<string>, Failure>
    requires forall k :: k in keys ==> k in fields
  {
    if keys == [] then Ok([])
    else
      var value := fields[keys[0]];
      if !Truthy(value) then FieldClauses(keys[1..], fields)
      else if !value.Str? then Err(TypeError)
      else
        match FieldClauses(keys[1..], fields)
        case Err(e) => Err(e)
        case Ok(rest) => Ok([FieldClause(keys[0], value.s)] + rest)
  }

  /** The formula of `get_records_by_fields`, before encoding. */
  function FieldsFormula(fields: map<string, Json>): Result<string, Failure> {
    var keys := SortedKeys(fields.Keys);
    match FieldClauses(keys, fields)
    case Err(e) => Err(e)
    case Ok(clauses) => Ok("AND(" + Join(',', clauses) + ")")
  }

  /** The GET `get_records_by_fields` issues, or what it raises first. */
  function GetRecordsByFieldsRequest(
    c: Client, fields: map<string, Json>,
    cellFormat: Option<CellFormat>, timeZone: Option<string>, userLocale: Option<string>)
    : Result<Request, Failure>
  {
    match FieldsFormula(fields)
    case Err(e) => Err(e)
    case Ok(formula) =>
      match CellFormatParams(cellFormat, timeZone, userLocale)
      case Err(e) => Err(e)
      case Ok(extra) => Ok(Get(QueryUrl(c.route, ["filterByFormula=" + QuotePlus(formula)] + extra), c.headers))
  }

  /** `get_records_by_fields`: one GET filtered on the given field values;
      the raw response is the result. */
  method GetRecordsByFields(
    c: Client, fields: map<string, Json>, server: Request -> Response,
    nameonly cellFormat: Option<CellFormat> := None, nameonly timeZone: Option<string> := None,
    nameonly userLocale: Option<string> := None)
    returns (r: Result<Response, Failure>, sent: seq<Request>)
    ensures match GetRecordsByFieldsRequest(c, fields, cellFormat, timeZone, userLocale)
            case Err(e) => r == Err(e) && sent == []
            case Ok(request) => r == Ok(server(request)) && sent == [request]
  {
    var formula := FieldsFormula(fields);
    if formula.Err? {
      return Err(formula.error), [];
    }
    var params := new ParamList("filterByFormula=" + QuotePlus(formula.value));
    var failure := HandleCellFormatParams(params, cellFormat, timeZone, userLocale);
    if failure.Some? {
      return Err(failure.value), [];
    }
    var request := Get(QueryUrl(c.route, params.items), c.headers);
    r, sent := Ok(server(request)), [request];
  }

  // ---------------------------------------------------------------------
  // create_record

  /** `{"records": [{"fields": fields}]}`. */
  function CreateRecordBody(fields: map<string, Json>): Json {
    Object(map["records" := Array([Object(map["fields" := Object(fields)])])])
  }

  /** `{**headers, "Content-Type": "application/json"}`: a new dictionary
      holding every header given, with the content type set, whatever it
      was before. */
  function JsonContentHeaders(headers: map<string, string>): (h: map<string, string>)
    ensures h.Keys == headers.Keys + {"Content-Type"}
    ensures h["Content-Type"] == "application/json"
    ensures forall k :: k in headers && k != "Content-Type" ==> h[k] == headers[k]
  {
    headers["Content-Type" := "application/json"]
  }

  /** The POST `create_record` issues: to the route itself, never a query. */
  function CreateRecordRequest(c: Client, fields: map<string, Json>): (r: Request)
    ensures r.Post? && r.url == c.route && r.headers == JsonContentHeaders(c.headers)
    ensures r.body.Object? && r.body.members.Keys == {"records"}
  {
    Post(c.route, JsonContentHeaders(c.headers), CreateRecordBody(fields))
  }

  /** `create_record`: one POST to the route; the raw response is the result. */
  method CreateRecord(c: Client, fields: map<string, Json>, server: Request -> Response)
    returns (r: Response, sent: seq<Request>)
    ensures sent == [CreateRecordRequest(c, fields)] && r == server(sent[0])
  {
    var body := CreateRecordBody(fields);
    var headers := JsonContentHeaders(c.headers);
    var request := Post(c.route, headers, body);
    r, sent := server(request), [request];
  }
}
