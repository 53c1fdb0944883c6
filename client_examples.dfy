/** The repository's own test cases, restated as facts about the model:
    the client built from `base_id`, `api_key`, `MyTable` and
    `Identifier`, the URLs its requests carry, and what the body check
    makes of the responses the tests serve. */
module ClientExamples {

  import opened Wrappers
  import opened Text
  import opened FormEncoding
  import opened JsonValue
  import opened AirtableHttpClient
  import opened ClientProperties

  const TestConnection := ConnectionInfo("base_id", "api_key")
  const TestTable := TableInfo("MyTable", "Identifier")
  const TestRoute := "https://api.airtable.com/v0/base_id/MyTable"

  /** The client of the tests: its route and its one header. */
  lemma TestClientState()
    ensures NewClient(TestConnection, TestTable).route == TestRoute
    ensures NewClient(TestConnection, TestTable).headers == map["Authorization" := "Bearer api_key"]
  {
    assert "Bearer " + "api_key" == "Bearer api_key";
  }

  // ---------------------------------------------------------------------
  // get_record

  // The literal pieces below are handed over as parameters so that the
  // verifier does not unfold the encoder on a long literal all at once.

  lemma QuoteOpenQuote()
    ensures QuotePlus("('") == "%28%27"
  {
  }

  lemma QuoteFindPrefixParts(find: string, open: string)
    requires find == "FIND" && open == "('"
    ensures QuotePlus(find + open) == "FIND%28%27"
  {
    QuotePlusAppend(find, open);
    QuotePlusUnreserved(find);
    QuoteOpenQuote();
  }

  lemma QuoteFindPrefix()
    ensures QuotePlus("FIND('") == "FIND%28%27"
  {
    QuoteFindPrefixParts("FIND", "('");
    assert "FIND" + "('" == "FIND('";
  }

  lemma QuoteQuoteComma()
    ensures QuotePlus("',") == "%27%2C"
  {
  }

  lemma QuoteSpaceBrace()
    ensures QuotePlus(" {") == "+%7B"
  {
  }

  lemma QuoteFindMiddleParts(a: string, b: string)
    requires a == "'," && b == " {"
    ensures QuotePlus(a + b) == "%27%2C+%7B"
  {
    QuoteQuoteComma();
    QuoteSpaceBrace();
    QuotePlusAppend(a, b);
  }

  lemma QuoteFindMiddle()
    ensures QuotePlus("', {") == "%27%2C+%7B"
  {
    QuoteFindMiddleParts("',", " {");
    assert "'," + " {" == "', {";
  }

  lemma QuoteCloseBraceParen()
    ensures QuotePlus("})") == "%7D%29"
  {
  }

  lemma QuoteSpaceBang()
    ensures QuotePlus(" !") == "+%21"
  {
  }

  lemma QuoteEqualsZero()
    ensures QuotePlus("= 0") == "%3D+0"
  {
  }

  lemma QuoteFindSuffixParts(a: string, b: string, c: string)
    requires a == "})" && b == " !" && c == "= 0"
    ensures QuotePlus(a + b + c) == "%7D%29+%21%3D+0"
  {
    QuoteCloseBraceParen();
    QuoteSpaceBang();
    QuoteEqualsZero();
    QuotePlusAppend(a, b);
    QuotePlusAppend(a + b, c);
  }

  lemma QuoteFindSuffix()
    ensures QuotePlus("}) != 0") == "%7D%29+%21%3D+0"
  {
    QuoteFindSuffixParts("})", " !", "= 0");
    assert "})" + " !" + "= 0" == "}) != 0";
  }

  /** The encoded form of `FIND('<id>', {<column>}) != 0`: the fixed parts
      escaped once and for all, the identifier and the column encoded in
      place. */
  lemma RecordIdFormulaEncoded(id: string, idColumn: string)
    ensures QuotePlus(RecordIdFormula(id, idColumn))
            == "FIND%28%27" + QuotePlus(id) + "%27%2C+%7B" + QuotePlus(idColumn) + "%7D%29+%21%3D+0"
  {
    QuoteFindPrefix();
    QuoteFindMiddle();
    QuoteFindSuffix();
    QuotePlusAppend("FIND('", id);
    QuotePlusAppend("FIND('" + id, "', {");
    QuotePlusAppend("FIND('" + id + "', {", idColumn);
    QuotePlusAppend("FIND('" + id + "', {" + idColumn, "}) != 0");
  }

  /** Without cell-format arguments the query is the filter alone. */
  lemma FilterOnlyUrl(route: string, formula: string)
    ensures QueryUrl(route, ["filterByFormula=" + formula]) == route + "?filterByFormula=" + formula
  {
  }

  /** The request `get_record` makes without cell-format arguments, for an
      identifier and column that encode as themselves. */
  lemma GetRecordPlainUrl(c: Client, id: string)
    requires QuotePlus(id) == id && QuotePlus(c.idColumn) == c.idColumn
    ensures GetRecordRequest(c, id, None, None, None)
            == Ok(Get(c.route + "?filterByFormula=" + ("FIND%28%27" + id + "%27%2C+%7B" + c.idColumn + "%7D%29+%21%3D+0"),
                      c.headers))
  {
    assert CellFormatParams(None, None, None) == Ok([]);
    RecordIdFormulaEncoded(id, c.idColumn);
    FilterOnlyUrl(c.route, QuotePlus(RecordIdFormula(id, c.idColumn)));
  }

  /** `test_get_record`: the URL `get_record("id123")` requests, with the
      client of the tests. */
  lemma GetRecordTestUrl(c: Client)
    requires c == NewClient(TestConnection, TestTable)
    ensures GetRecordRequest(c, "id123", None, None, None)
            == Ok(Get(TestRoute + "?filterByFormula=" + "FIND%28%27id123%27%2C+%7BIdentifier%7D%29+%21%3D+0",
                      map["Authorization" := "Bearer api_key"]))
  {
    TestClientState();
    QuotePlusUnreserved("id123");
    QuoteTestColumn(c.idColumn);
    GetRecordPlainUrl(c, "id123");
    TestFormulaText(c.idColumn);
  }

  lemma QuoteTestColumn(column: string)
    requires column == "Identifier"
    ensures QuotePlus(column) == column
  {
    QuotePlusUnreserved(column);
  }

  lemma TestFormulaText(column: string)
    requires column == "Identifier"
    ensures "FIND%28%27" + "id123" + "%27%2C+%7B" + column + "%7D%29+%21%3D+0"
            == "FIND%28%27id123%27%2C+%7BIdentifier%7D%29+%21%3D+0"
  {
  }

  /** `test_get_record__error`: a 404 is an ApiError, whatever the body. */
  lemma GetRecordNotFound(body: Json)
    ensures GetRecordResult(Response(404, body)) == Err(ClientError(ApiError))
  {
  }

  /** `test_get_record`: the one record's fields come back as they are. */
  lemma GetRecordFound()
    ensures var fields := Object(map["Field 1" := Str("Value 1")]);
            GetRecordResult(Response(200, Object(map["records" := Array([Object(map["fields" := fields])])])))
            == Ok(fields)
  {
  }

  /** `test_get_record__bad_response`: the five malformed bodies served with
      status 200 are each a bad response. */
  lemma GetRecordBadResponses()
    ensures GetRecordResult(Response(200, Object(map[]))) == Err(ClientError(BadResponseError))
    ensures GetRecordResult(Response(200, Object(map["records" := Array([])])))
            == Err(ClientError(BadResponseError))
    ensures GetRecordResult(Response(200, Object(map["records" := Object(map[])])))
            == Err(ClientError(BadResponseError))
    ensures GetRecordResult(Response(200, Object(map["records" := Array([Object(map[])])])))
            == Err(ClientError(BadResponseError))
    ensures var record := Object(map["fields" := Object(map[])]);
            GetRecordResult(Response(200, Object(map["records" := Array([record, record])])))
            == Err(ClientError(BadResponseError))
  {
  }

  /** Bodies of the wrong kind make the body check raise a TypeError, not
      a bad response: a record that is a number, a list body naming
      `records`, and a record that is a list naming `fields`. */
  lemma GetRecordTypeErrors()
    ensures GetRecordResult(Response(200, Object(map["records" := Array([Number(5)])]))) == Err(TypeError)
    ensures GetRecordResult(Response(200, Array([Str("records")]))) == Err(TypeError)
    ensures GetRecordResult(Response(200, Object(map["records" := Array([Array([Str("fields")])])])))
            == Err(TypeError)
    ensures GetRecordResult(Response(200, Str("no records here"))) == Err(TypeError)
  {
  }

  // ---------------------------------------------------------------------
  // list_records

  /** `test_list_records`: page size 3, offset `rec123` and at most 10
      records give `?maxRecords=10&pageSize=3&offset=rec123` on the
      client's route, sent with the client's headers (for the client of
      the tests, `TestClientState` gives both). */
  lemma ListRecordsTestUrl(c: Client)
    ensures ListRecordsRequest(c, Some(3), Some("rec123"), Some(10), None, None, None)
            == Ok(Get(c.route + "?" + "maxRecords=10&pageSize=3&offset=rec123", c.headers))
  {
    ListRecordsTestParams();
    ListRecordsTestJoin();
  }

  lemma ListRecordsTestParams()
    ensures ListRecordsParams(Some(3), Some("rec123"), Some(10), None, None, None)
            == Ok(["maxRecords=10", "pageSize=3", "offset=rec123"])
  {
    assert CellFormatParams(None, None, None) == Ok([]);
    assert OptionalIntText(Some(10)) == "10";
    assert IntToDecimal(3) == "3";
    assert "maxRecords=" + "10" == "maxRecords=10";
    assert "pageSize=" + "3" == "pageSize=3";
    assert "offset=" + "rec123" == "offset=rec123";
    assert ["maxRecords=10"] + ["pageSize=3"] + ["offset=rec123"] + []
        == ["maxRecords=10", "pageSize=3", "offset=rec123"];
  }

  lemma ListRecordsTestJoin()
    ensures Join('&', ["maxRecords=10", "pageSize=3", "offset=rec123"]) == "maxRecords=10&pageSize=3&offset=rec123"
  {
    var ps := ["maxRecords=10", "pageSize=3", "offset=rec123"];
    assert ps[1..][1..] == ["offset=rec123"];
  }

  /** With its defaults (`page_size=100`, nothing else) `list_records`
      sends `maxRecords=None` and the default page size. */
  lemma ListRecordsDefaultsUrl(c: Client)
    ensures ListRecordsRequest(c, Some(DefaultPageSize), None, None, None, None, None)
            == Ok(Get(c.route + "?" + "maxRecords=None&pageSize=100", c.headers))
  {
    ListRecordsDefaultParams();
    ListRecordsDefaultJoin();
  }

  lemma ListRecordsDefaultParams()
    ensures ListRecordsParams(Some(DefaultPageSize), None, None, None, None, None)
            == Ok(["maxRecords=None", "pageSize=100"])
  {
    assert CellFormatParams(None, None, None) == Ok([]);
    assert IntToDecimal(100) == "100";
    assert "maxRecords=" + "None" == "maxRecords=None";
    assert "pageSize=" + "100" == "pageSize=100";
    assert ["maxRecords=None"] + ["pageSize=100"] + [] + [] == ["maxRecords=None", "pageSize=100"];
  }

  lemma ListRecordsDefaultJoin()
    ensures Join('&', ["maxRecords=None", "pageSize=100"]) == "maxRecords=None&pageSize=100"
  {
    var ps := ["maxRecords=None", "pageSize=100"];
    assert ps[1..] == ["pageSize=100"];
  }

  // ---------------------------------------------------------------------
  // get_records_by_fields

  /** The encoded form of a clause `{key}='value'`. */
  lemma FieldClauseEncoded(key: string, value: string)
    ensures QuotePlus(FieldClause(key, value)) == "%7B" + QuotePlus(key) + "%7D%3D%27" + QuotePlus(value) + "%27"
  {
    EscapedAscii('{');
    EscapedAscii('\'');
    QuoteCloseEqualsQuote();
    QuotePlusAppend("{", key);
    QuotePlusAppend("{" + key, "}='");
    QuotePlusAppend("{" + key + "}='", value);
    QuotePlusAppend("{" + key + "}='" + value, "'");
  }

  lemma QuoteCloseEqualsQuote()
    ensures QuotePlus("}='") == "%7D%3D%27"
  {
  }

  /** The encoded form of `AND(<clauses>)`. */
  lemma AndFormulaEncoded(clauses: string)
    ensures QuotePlus("AND(" + clauses + ")") == "AND%28" + QuotePlus(clauses) + "%29"
  {
    QuoteAndPrefix();
    EscapedAscii(')');
    QuotePlusAppend("AND(", clauses);
    QuotePlusAppend("AND(" + clauses, ")");
  }

  lemma QuoteAndOpen(and: string, open: string)
    requires and == "AND" && open == "("
    ensures QuotePlus(and + open) == "AND%28"
  {
    QuotePlusUnreserved(and);
    EscapedAscii('(');
    QuotePlusAppend(and, open);
  }

  lemma QuoteAndPrefix()
    ensures QuotePlus("AND(") == "AND%28"
  {
    QuoteAndOpen("AND", "(");
    assert "AND" + "(" == "AND(";
  }

  /** The encoded form of two clauses joined by a comma. */
  lemma CommaEncoded(a: string, b: string)
    ensures QuotePlus(a + "," + b) == QuotePlus(a) + "%2C" + QuotePlus(b)
  {
    EscapedAscii(',');
    QuotePlusAppend(a, ",");
    QuotePlusAppend(a + ",", b);
  }

  /** The encoded formula for two string values: both clauses, the smaller
      key first. */
  lemma PairFormulaEncoded(k1: string, v1: string, k2: string, v2: string)
    requires LexLt(k1, k2) && v1 != "" && v2 != ""
    ensures FieldsFormula(map[k1 := Str(v1), k2 := Str(v2)]).Ok?
    ensures QuotePlus(FieldsFormula(map[k1 := Str(v1), k2 := Str(v2)]).value)
            == "AND%28" + ("%7B" + QuotePlus(k1) + "%7D%3D%27" + QuotePlus(v1) + "%27")
               + "%2C" + ("%7B" + QuotePlus(k2) + "%7D%3D%27" + QuotePlus(v2) + "%27") + "%29"
  {
    FieldsFormulaPair(k1, v1, k2, v2);
    var c1, c2 := FieldClause(k1, v1), FieldClause(k2, v2);
    assert "AND(" + c1 + "," + c2 + ")" == "AND(" + (c1 + "," + c2) + ")";
    TwoClausesEncoded(c1, c2);
    FieldClauseEncoded(k1, v1);
    FieldClauseEncoded(k2, v2);
  }

  lemma TwoClausesEncoded(c1: string, c2: string)
    ensures QuotePlus("AND(" + (c1 + "," + c2) + ")") == "AND%28" + QuotePlus(c1) + "%2C" + QuotePlus(c2) + "%29"
  {
    AndFormulaEncoded(c1 + "," + c2);
    CommaEncoded(c1, c2);
  }

  /** Without cell-format arguments the request of `get_records_by_fields`
      carries the encoded formula alone. */
  lemma ByFieldsPlainUrl(c: Client, fields: map<string, Json>)
    requires FieldsFormula(fields).Ok?
    ensures GetRecordsByFieldsRequest(c, fields, None, None, None)
            == Ok(Get(c.route + "?filterByFormula=" + QuotePlus(FieldsFormula(fields).value), c.headers))
  {
    assert CellFormatParams(None, None, None) == Ok([]);
    FilterOnlyUrl(c.route, QuotePlus(FieldsFormula(fields).value));
  }

  /** The request for two string values without cell-format arguments,
      whichever order the dict is written in. */
  lemma PairPlainUrl(c: Client, k1: string, v1: string, k2: string, v2: string)
    requires LexLt(k1, k2) && v1 != "" && v2 != ""
    ensures GetRecordsByFieldsRequest(c, map[k2 := Str(v2), k1 := Str(v1)], None, None, None)
            == Ok(Get(c.route + "?filterByFormula="
                      + ("AND%28" + ("%7B" + QuotePlus(k1) + "%7D%3D%27" + QuotePlus(v1) + "%27")
                         + "%2C" + ("%7B" + QuotePlus(k2) + "%7D%3D%27" + QuotePlus(v2) + "%27") + "%29"),
                      c.headers))
  {
    SwapPair(k2, Str(v2), k1, Str(v1));
    PairFormulaEncoded(k1, v1, k2, v2);
    ByFieldsPlainUrl(c, map[k1 := Str(v1), k2 := Str(v2)]);
  }

  /** The encoded formula for one string value beside a falsy one. */
  lemma SingleFormulaEncoded(k1: string, v1: string, k2: string, v2: Json)
    requires k1 != k2 && v1 != "" && !Truthy(v2)
    ensures FieldsFormula(map[k1 := Str(v1), k2 := v2]).Ok?
    ensures QuotePlus(FieldsFormula(map[k1 := Str(v1), k2 := v2]).value)
            == "AND%28" + ("%7B" + QuotePlus(k1) + "%7D%3D%27" + QuotePlus(v1) + "%27") + "%29"
  {
    FieldsFormulaSkipsFalsy(k1, v1, k2, v2);
    AndFormulaEncoded(FieldClause(k1, v1));
    FieldClauseEncoded(k1, v1);
  }

  const CoverageKey := "Coverage [Web: Link]"
  const SubjectKey := "Subject [ISO Code]"
  const ResourceUrl := "http://www.baayaga.narod.ru"

  lemma QuoteSpaceBracket()
    ensures QuotePlus(" [") == "+%5B"
  {
  }

  lemma QuoteColonSpace()
    ensures QuotePlus(": ") == "%3A+"
  {
  }

  lemma QuoteCloseBracket()
    ensures QuotePlus("]") == "%5D"
  {
  }

  lemma QuoteSchemeSeparator()
    ensures QuotePlus("://") == "%3A%2F%2F"
  {
  }

  lemma CoverageKeyParts(a: string, b: string, c: string, d: string, e: string, f: string)
    requires a == "Coverage" && b == " [" && c == "Web" && d == ": " && e == "Link" && f == "]"
    ensures QuotePlus(a + b + c + d + e + f) == a + "+%5B" + c + "%3A+" + e + "%5D"
  {
    QuotePlusUnreserved(a);
    QuotePlusUnreserved(c);
    QuotePlusUnreserved(e);
    QuoteSpaceBracket();
    QuoteColonSpace();
    QuoteCloseBracket();
    QuotePlusAppend(a, b);
    QuotePlusAppend(a + b, c);
    QuotePlusAppend(a + b + c, d);
    QuotePlusAppend(a + b + c + d, e);
    QuotePlusAppend(a + b + c + d + e, f);
  }

  /** The link's key encodes as the test writes it. */
  lemma CoverageKeyEncoded()
    ensures QuotePlus(CoverageKey) == "Coverage" + "+%5B" + "Web" + "%3A+" + "Link" + "%5D"
  {
    CoverageKeyParts("Coverage", " [", "Web", ": ", "Link", "]");
    assert "Coverage" + " [" + "Web" + ": " + "Link" + "]" == CoverageKey;
  }

  lemma SubjectKeyParts(a: string, b: string, c: string, d: string, e: string, f: string)
    requires a == "Subject" && b == " [" && c == "ISO" && d == " " && e == "Code" && f == "]"
    ensures QuotePlus(a + b + c + d + e + f) == a + "+%5B" + c + "+" + e + "%5D"
  {
    QuotePlusUnreserved(a);
    QuotePlusUnreserved(c);
    QuotePlusUnreserved(e);
    QuoteSpaceBracket();
    SpecialCharacters();
    QuoteCloseBracket();
    QuotePlusAppend(a, b);
    QuotePlusAppend(a + b, c);
    QuotePlusAppend(a + b + c, d);
    QuotePlusAppend(a + b + c + d, e);
    QuotePlusAppend(a + b + c + d + e, f);
  }

  /** The subject's key encodes as the test writes it. */
  lemma SubjectKeyEncoded()
    ensures QuotePlus(SubjectKey) == "Subject" + "+%5B" + "ISO" + "+" + "Code" + "%5D"
  {
    SubjectKeyParts("Subject", " [", "ISO", " ", "Code", "]");
    assert "Subject" + " [" + "ISO" + " " + "Code" + "]" == SubjectKey;
  }

  lemma ResourceUrlParts(scheme: string, separator: string, host: string)
    requires scheme == "http" && separator == "://" && host == "www.baayaga.narod.ru"
    ensures QuotePlus(scheme + separator + host) == scheme + "%3A%2F%2F" + host
  {
    QuotePlusUnreserved(scheme);
    QuotePlusUnreserved(host);
    QuoteSchemeSeparator();
    QuotePlusAppend(scheme, separator);
    QuotePlusAppend(scheme + separator, host);
  }

  /** The link encodes as the test writes it: only `:` and `/` are
      escaped. */
  lemma ResourceUrlEncoded()
    ensures QuotePlus(ResourceUrl) == "http" + "%3A%2F%2F" + "www.baayaga.narod.ru"
  {
    ResourceUrlParts("http", "://", "www.baayaga.narod.ru");
    ResourceUrlText();
  }

  lemma ResourceUrlText()
    ensures "http" + "://" + "www.baayaga.narod.ru" == ResourceUrl
  {
  }

  /** `test_get_records_by_fields`, before encoding: the link's clause
      comes first because its key sorts first. */
  lemma GetRecordsByFieldsTestFormula()
    ensures FieldsFormula(map[SubjectKey := Str("sah"), CoverageKey := Str(ResourceUrl)])
            == Ok("AND(" + FieldClause(CoverageKey, ResourceUrl) + "," + FieldClause(SubjectKey, "sah") + ")")
  {
    TestKeysOrdered();
    SwapPair(SubjectKey, Str("sah"), CoverageKey, Str(ResourceUrl));
    FieldsFormulaPair(CoverageKey, ResourceUrl, SubjectKey, "sah");
  }

  /** `test_get_records_by_fields__null_value`: the key whose value is
      `None` contributes no clause. */
  lemma GetRecordsByFieldsNullTestFormula()
    ensures FieldsFormula(map[SubjectKey := Null, CoverageKey := Str(ResourceUrl)])
            == Ok("AND(" + FieldClause(CoverageKey, ResourceUrl) + ")")
  {
    TestKeysOrdered();
    SwapPair(SubjectKey, Null, CoverageKey, Str(ResourceUrl));
    FieldsFormulaSkipsFalsy(CoverageKey, ResourceUrl, SubjectKey, Null);
  }

  /** `test_get_records_by_fields`: the URL requested, with the client of
      the tests.  The expected query is written in the fragments the
      encoding produces; joined, they are the test's literal. */
  lemma GetRecordsByFieldsTestUrl(c: Client)
    requires c == NewClient(TestConnection, TestTable)
    ensures GetRecordsByFieldsRequest(c, map[SubjectKey := Str("sah"), CoverageKey := Str(ResourceUrl)], None, None, None)
            == Ok(Get(TestRoute + "?filterByFormula="
                      + ("AND%28"
                         + ("%7B" + ("Coverage" + "+%5B" + "Web" + "%3A+" + "Link" + "%5D") + "%7D%3D%27"
                            + ("http" + "%3A%2F%2F" + "www.baayaga.narod.ru") + "%27")
                         + "%2C"
                         + ("%7B" + ("Subject" + "+%5B" + "ISO" + "+" + "Code" + "%5D") + "%7D%3D%27" + "sah" + "%27")
                         + "%29"),
                      map["Authorization" := "Bearer api_key"]))
  {
    TestClientState();
    TestKeysOrdered();
    PairPlainUrl(c, CoverageKey, ResourceUrl, SubjectKey, "sah");
    CoverageKeyEncoded();
    SubjectKeyEncoded();
    ResourceUrlEncoded();
    QuoteIsoCode();
  }

  lemma QuoteIsoCode()
    ensures QuotePlus("sah") == "sah"
  {
  }

  /** `test_get_records_by_fields__null_value`: the URL requested, with
      the link's clause alone. */
  lemma GetRecordsByFieldsNullTestUrl(c: Client)
    requires c == NewClient(TestConnection, TestTable)
    ensures GetRecordsByFieldsRequest(c, map[SubjectKey := Null, CoverageKey := Str(ResourceUrl)], None, None, None)
            == Ok(Get(TestRoute + "?filterByFormula="
                      + ("AND%28"
                         + ("%7B" + ("Coverage" + "+%5B" + "Web" + "%3A+" + "Link" + "%5D") + "%7D%3D%27"
                            + ("http" + "%3A%2F%2F" + "www.baayaga.narod.ru") + "%27")
                         + "%29"),
                      map["Authorization" := "Bearer api_key"]))
  {
    TestClientState();
    SwapPair(SubjectKey, Null, CoverageKey, Str(ResourceUrl));
    SingleFormulaEncoded(CoverageKey, ResourceUrl, SubjectKey, Null);
    ByFieldsPlainUrl(c, map[CoverageKey := Str(ResourceUrl), SubjectKey := Null]);
    CoverageKeyEncoded();
    ResourceUrlEncoded();
  }

  lemma TestKeysOrdered()
    ensures LexLt(CoverageKey, SubjectKey)
  {
  }

  /** The order a two-entry dict is written in does not matter. */
  lemma SwapPair(ka: string, va: Json, kb: string, vb: Json)
    requires ka != kb
    ensures map[ka := va, kb := vb] == map[kb := vb, ka := va]
  {
  }

  // ---------------------------------------------------------------------
  // create_record

  /** `test_create_record`: one POST to the route, with the bearer header
      and the JSON content type, whose `records` is a list of one record
      whose `fields` is a dict. */
  lemma CreateRecordTest(c: Client)
    requires c == NewClient(TestConnection, TestTable)
    ensures var fields := map["a" := Str("a"), "b" := Str("b"), "c" := Str("c")];
            var r := CreateRecordRequest(c, fields);
            && r == Post(TestRoute, map["Authorization" := "Bearer api_key", "Content-Type" := "application/json"],
                         CreateRecordBody(fields))
            && SingleRecordFields(r.body) == Ok(Object(fields))
  {
    TestClientState();
  }
}
