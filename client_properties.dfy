/** What the Airtable client promises, proved about the model in
    AirtableHttpClient: the route and header built at construction, the
    order and content of the query parameters, the filter formulas and
    their encoding, the response-shape check, and the request body of a
    record creation. */
module ClientProperties {

  import opened Wrappers
  import opened Text
  import opened FormEncoding
  import opened JsonValue
  import opened AirtableHttpClient

  // ---------------------------------------------------------------------
  // Construction

  /** The route is the API root, the base and the table joined by `/`:
      split at `/`, its last two segments are the base and the table name;
      the only header is the bearer authorization. */
  lemma ClientRouteSegments(conn: ConnectionInfo, table: TableInfo)
    requires '/' !in conn.baseId && '/' !in table.name
    ensures Split(NewClient(conn, table).route, '/') == Split(BaseUrl, '/') + [conn.baseId, table.name]
    ensures NewClient(conn, table).headers.Keys == {"Authorization"}
    ensures NewClient(conn, table).headers["Authorization"] == "Bearer " + conn.apiKey
  {
    SplitPath(BaseUrl, conn.baseId, table.name);
  }

  lemma SplitPath(root: string, a: string, b: string)
    requires '/' !in a && '/' !in b
    ensures Split(root + "/" + a + "/" + b, '/') == Split(root, '/') + [a, b]
  {
    assert root + "/" + a + "/" + b == root + ['/'] + (a + ['/'] + b);
    SplitConcat(root, '/', a + ['/'] + b);
    SplitConcat(a, '/', b);
    SplitNoSeparator(a, '/');
    SplitNoSeparator(b, '/');
  }

  // ---------------------------------------------------------------------
  // Query parameters

  /** Number of parameters a present optional argument contributes. */
  function Count<T>(o: Option<T>): nat {
    if o.Some? then 1 else 0
  }

  /** `list_records` always starts with `maxRecords`, rendered `None` when
      absent and otherwise readable back as the number given. */
  lemma ListRecordsMaxRecordsFirst(
    pageSize: Option<int>, offset: Option<string>, maxRecords: Option<int>,
    cellFormat: Option<CellFormat>, timeZone: Option<string>, userLocale: Option<string>)
    requires CellFormatArgsValid(cellFormat, timeZone, userLocale)
    ensures ListRecordsParams(pageSize, offset, maxRecords, cellFormat, timeZone, userLocale).Ok?
    ensures var first := ListRecordsParams(pageSize, offset, maxRecords, cellFormat, timeZone, userLocale).value[0];
            && first[..11] == "maxRecords="
            && (maxRecords.None? ==> first == "maxRecords=None")
            && (maxRecords.Some? ==> ParseInt(first[11..]) == maxRecords)
  {
    var ps := ListRecordsParams(pageSize, offset, maxRecords, cellFormat, timeZone, userLocale).value;
    assert ps[0] == "maxRecords=" + OptionalIntText(maxRecords);
    if maxRecords.Some? {
      IntToDecimalRoundTrip(maxRecords.value);
      assert ps[0][11..] == IntToDecimal(maxRecords.value);
    }
  }

  /** After `maxRecords` come `pageSize` and `offset`, each exactly when it
      is given, and then the cell-format parameters, which end the list. */
  lemma ListRecordsParamOrder(
    pageSize: Option<int>, offset: Option<string>, maxRecords: Option<int>,
    cellFormat: Option<CellFormat>, timeZone: Option<string>, userLocale: Option<string>)
    requires CellFormatArgsValid(cellFormat, timeZone, userLocale)
    ensures var ps := ListRecordsParams(pageSize, offset, maxRecords, cellFormat, timeZone, userLocale).value;
            var n := 1 + Count(pageSize) + Count(offset);
            && |ps| == n + |CellFormatParams(cellFormat, timeZone, userLocale).value|
            && (pageSize.Some? ==> ps[1][..9] == "pageSize=" && ParseInt(ps[1][9..]) == pageSize)
            && (offset.Some? ==> ps[n - 1] == "offset=" + offset.value)
            && ps[n..] == CellFormatParams(cellFormat, timeZone, userLocale).value
  {
    var ps := ListRecordsParams(pageSize, offset, maxRecords, cellFormat, timeZone, userLocale).value;
    if pageSize.Some? {
      assert ps[1] == "pageSize=" + IntToDecimal(pageSize.value);
      IntToDecimalRoundTrip(pageSize.value);
      assert ps[1][9..] == IntToDecimal(pageSize.value);
    }
  }

  /** The query string of `list_records` splits at `&` back into exactly
      the parameters built, provided the caller's `offset`, time zone and
      locale, which are sent unescaped, hold no `&`. */
  lemma ListRecordsUrlQuery(
    c: Client, pageSize: Option<int>, offset: Option<string>, maxRecords: Option<int>,
    cellFormat: Option<CellFormat>, timeZone: Option<string>, userLocale: Option<string>)
    requires CellFormatArgsValid(cellFormat, timeZone, userLocale)
    requires offset.Some? ==> '&' !in offset.value
    requires cellFormat == Some(StringCells) ==> '&' !in timeZone.value && '&' !in userLocale.value
    ensures var r := ListRecordsRequest(c, pageSize, offset, maxRecords, cellFormat, timeZone, userLocale);
            var ps := ListRecordsParams(pageSize, offset, maxRecords, cellFormat, timeZone, userLocale).value;
            && r.Ok? && r.value.Get? && r.value.headers == c.headers
            && r.value.url[..|c.route| + 1] == c.route + "?"
            && Split(r.value.url[|c.route| + 1..], '&') == ps
  {
    var ps := ListRecordsParams(pageSize, offset, maxRecords, cellFormat, timeZone, userLocale).value;
    var url := QueryUrl(c.route, ps);
    assert url[|c.route| + 1..] == Join('&', ps);
    if maxRecords.Some? { IntToDecimalCharacters(maxRecords.value); }
    if pageSize.Some? { IntToDecimalCharacters(pageSize.value); }
    forall i | 0 <= i < |ps| ensures '&' !in ps[i] {
      NoAmpersand(ps, i, pageSize, offset, maxRecords, cellFormat, timeZone, userLocale);
    }
    SplitJoin('&', ps);
  }

  lemma NoAmpersand(
    ps: seq<string>, i: nat, pageSize: Option<int>, offset: Option<string>, maxRecords: Option<int>,
    cellFormat: Option<CellFormat>, timeZone: Option<string>, userLocale: Option<string>)
    requires CellFormatArgsValid(cellFormat, timeZone, userLocale)
    requires offset.Some? ==> '&' !in offset.value
    requires cellFormat == Some(StringCells) ==> '&' !in timeZone.value && '&' !in userLocale.value
    requires maxRecords.Some? ==> '&' !in IntToDecimal(maxRecords.value)
    requires pageSize.Some? ==> '&' !in IntToDecimal(pageSize.value)
    requires ps == ListRecordsParams(pageSize, offset, maxRecords, cellFormat, timeZone, userLocale).value
    requires i < |ps|
    ensures '&' !in ps[i]
  {
    var paging :=
      ["maxRecords=" + OptionalIntText(maxRecords)]
      + (if pageSize.Some? then ["pageSize=" + IntToDecimal(pageSize.value)] else [])
      + (if offset.Some? then ["offset=" + offset.value] else []);
    var extra := CellFormatParams(cellFormat, timeZone, userLocale).value;
    assert ps == paging + extra;
    if i < |paging| {
      PagingNoAmpersand(paging, i, pageSize, offset, maxRecords);
      assert ps[i] == paging[i];
    } else {
      assert ps[i] == extra[i - |paging|];
    }
  }

  lemma PagingNoAmpersand(
    paging: seq<string>, i: nat, pageSize: Option<int>, offset: Option<string>, maxRecords: Option<int>)
    requires offset.Some? ==> '&' !in offset.value
    requires maxRecords.Some? ==> '&' !in IntToDecimal(maxRecords.value)
    requires pageSize.Some? ==> '&' !in IntToDecimal(pageSize.value)
    requires paging ==
      ["maxRecords=" + OptionalIntText(maxRecords)]
      + (if pageSize.Some? then ["pageSize=" + IntToDecimal(pageSize.value)] else [])
      + (if offset.Some? then ["offset=" + offset.value] else [])
    requires i < |paging|
    ensures '&' !in paging[i]
  {
    NotInAppend('&', "maxRecords=", OptionalIntText(maxRecords));
    if pageSize.Some? {
      NotInAppend('&', "pageSize=", IntToDecimal(pageSize.value));
    }
    if offset.Some? {
      NotInAppend('&', "offset=", offset.value);
    }
  }

  lemma NotInAppend(c: char, a: string, b: string)
    requires c !in a && c !in b
    ensures c !in a + b
  {
    forall i | 0 <= i < |a + b|
      ensures (a + b)[i] != c
    {
      if i >= |a| { assert (a + b)[i] == b[i - |a|]; }
    }
  }

  // ---------------------------------------------------------------------
  // Filter formulas

  /** The value of the first parameter of `query` if it is named `name`,
      form-decoded. */
  function FirstParamDecoded(query: string, name: string): Option<string> {
    var first := Split(query, '&')[0];
    if |first| > |name| && first[..|name| + 1] == name + "=" then UnquotePlus(first[|name| + 1..]) else None
  }

  /** The first query parameter of a filtered request is the encoded
      formula, and decoding it gives the formula back. */
  lemma FilterParamReadBack(route: string, formula: string, extra: seq<string>)
    ensures var url := QueryUrl(route, ["filterByFormula=" + QuotePlus(formula)] + extra);
            && url[..|route| + 1] == route + "?"
            && FirstParamDecoded(url[|route| + 1..], "filterByFormula") == Some(formula)
  {
    var url := QueryUrl(route, ["filterByFormula=" + QuotePlus(formula)] + extra);
    assert url[|route| + 1..] == Join('&', ["filterByFormula=" + QuotePlus(formula)] + extra);
    assert "filterByFormula" + "=" == "filterByFormula=";
    EncodedParamFirst("filterByFormula", formula, extra);
  }

  /** A parameter whose value is form-encoded ends at the first `&`, and
      its value decodes back to what was encoded. */
  lemma EncodedParamFirst(name: string, value: string, extra: seq<string>)
    requires '&' !in name
    ensures FirstParamDecoded(Join('&', [name + "=" + QuotePlus(value)] + extra), name) == Some(value)
  {
    var encoded := QuotePlus(value);
    var param := name + "=" + encoded;
    var k := |name| + 1;
    QuotePlusFormEncoded(value);
    FormEncodedCharacters(encoded);
    assert '&' !in param by {
      forall i | 0 <= i < |param|
        ensures param[i] != '&'
      {
        if i < |name| { assert param[i] == name[i]; }
        else if i >= k { assert param[i] == encoded[i - k]; }
      }
    }
    SplitJoinFirst('&', [param] + extra);
    assert param[..k] == name + "=";
    assert param[k..] == encoded;
    QuotePlusRoundTrip(value);
  }

  /** `get_record` filters on `FIND('<id>', {<id column>}) != 0`, sent
      encoded as the first parameter and recoverable from the URL. */
  lemma GetRecordFilter(
    c: Client, id: string, cellFormat: Option<CellFormat>, timeZone: Option<string>, userLocale: Option<string>)
    requires CellFormatArgsValid(cellFormat, timeZone, userLocale)
    ensures var r := GetRecordRequest(c, id, cellFormat, timeZone, userLocale);
            && r.Ok? && r.value.Get? && r.value.headers == c.headers
            && r.value.url[..|c.route| + 1] == c.route + "?"
            && FirstParamDecoded(r.value.url[|c.route| + 1..], "filterByFormula")
               == Some("FIND('" + id + "', {" + c.idColumn + "}) != 0")
  {
    FilterParamReadBack(c.route, RecordIdFormula(id, c.idColumn), CellFormatParams(cellFormat, timeZone, userLocale).value);
  }

  /** The keys whose values are truthy, kept in the order given. */
  function TruthyKeys(keys: seq<string>, fields: map<string, Json>): (ks: seq<string>)
    requires forall k :: k in keys ==> k in fields
    requires StrictlySorted(keys)
    ensures StrictlySorted(ks)
    ensures forall k :: k in ks <==> k in keys && Truthy(fields[k])
  {
    if keys == [] then []
    else
      var rest := TruthyKeys(keys[1..], fields);
      assert forall j :: 0 <= j < |rest| ==> LexLt(keys[0], rest[j]) by {
        forall j | 0 <= j < |rest| ensures LexLt(keys[0], rest[j]) {
          assert rest[j] in keys[1..];
          var m :| 0 <= m < |keys[1..]| && keys[1..][m] == rest[j];
          assert keys[m + 1] == rest[j];
        }
      }
      if Truthy(fields[keys[0]]) then [keys[0]] + rest else rest
  }

  /** The keys `get_records_by_fields` filters on: those of `fields` whose
      values are truthy, in ascending code-point order. */
  function IncludedKeys(fields: map<string, Json>): (ks: seq<string>)
    ensures StrictlySorted(ks)
    ensures forall k :: k in ks <==> k in fields && Truthy(fields[k])
  {
    TruthyKeys(SortedKeys(fields.Keys), fields)
  }

  /** Every truthy value is a string, so the formula can be concatenated. */
  predicate TextValued(fields: map<string, Json>) {
    forall k :: k in fields && Truthy(fields[k]) ==> fields[k].Str?
  }

  /** `{key}='value'` for each of `keys`, in order. */
  function ClausesFor(keys: seq<string>, fields: map<string, Json>): seq<string>
    requires forall k :: k in keys ==> k in fields && fields[k].Str?
  {
    if keys == [] then [] else [FieldClause(keys[0], fields[keys[0]].s)] + ClausesFor(keys[1..], fields)
  }

  /** The comprehension raises exactly when some truthy value among `keys`
      is not a string. */
  lemma {:induction false} FieldClausesFail(keys: seq<string>, fields: map<string, Json>)
    requires forall k :: k in keys ==> k in fields
    ensures FieldClauses(keys, fields).Err? <==> exists k :: k in keys && Truthy(fields[k]) && !fields[k].Str?
    ensures FieldClauses(keys, fields).Err? ==> FieldClauses(keys, fields).error == TypeError
    decreases |keys|
  {
    if keys != [] {
      FieldClausesFail(keys[1..], fields);
      assert forall k :: k in keys <==> k == keys[0] || k in keys[1..];
    }
  }

  /** Otherwise it yields one clause per truthy key, in the order of `keys`. */
  lemma {:induction false} FieldClausesValue(keys: seq<string>, fields: map<string, Json>)
    requires forall k :: k in keys ==> k in fields
    requires StrictlySorted(keys)
    requires TextValued(fields)
    ensures FieldClauses(keys, fields) == Ok(ClausesFor(TruthyKeys(keys, fields), fields))
    decreases |keys|
  {
    if keys != [] {
      FieldClausesValue(keys[1..], fields);
    }
  }

  /** `get_records_by_fields` builds `AND(` + the `,`-joined `{k}='v'` for
      exactly the keys with truthy values, in ascending order, + `)`; a
      truthy value that is not a string makes it raise a TypeError. */
  lemma FieldsFormulaMeaning(fields: map<string, Json>)
    ensures FieldsFormula(fields).Err? <==> !TextValued(fields)
    ensures FieldsFormula(fields).Err? ==> FieldsFormula(fields).error == TypeError
    ensures TextValued(fields) ==>
              FieldsFormula(fields) == Ok("AND(" + Join(',', ClausesFor(IncludedKeys(fields), fields)) + ")")
  {
    var keys := SortedKeys(fields.Keys);
    FieldClausesFail(keys, fields);
    if TextValued(fields) {
      FieldClausesValue(keys, fields);
    }
  }

  /** With no truthy value the formula is `AND()`. */
  lemma AllFalsyFormula(fields: map<string, Json>)
    requires forall k :: k in fields ==> !Truthy(fields[k])
    ensures FieldsFormula(fields) == Ok("AND()")
  {
    assert TextValued(fields);
    FieldsFormulaMeaning(fields);
    assert IncludedKeys(fields) == [];
    assert "AND(" + Join(',', []) + ")" == "AND()";
  }

  /** Two string values give two clauses, the smaller key first, whatever
      order the dict was written in. */
  lemma FieldsFormulaPair(k1: string, v1: string, k2: string, v2: string)
    requires LexLt(k1, k2) && v1 != "" && v2 != ""
    ensures FieldsFormula(map[k1 := Str(v1), k2 := Str(v2)])
            == Ok("AND(" + FieldClause(k1, v1) + "," + FieldClause(k2, v2) + ")")
  {
    var fields := map[k1 := Str(v1), k2 := Str(v2)];
    assert fields.Keys == {k1, k2};
    SortedKeysPair(k1, k2);
    PairClauses(k1, v1, k2, v2, fields);
    var pair := [FieldClause(k1, v1), FieldClause(k2, v2)];
    assert pair[1..] == [FieldClause(k2, v2)];
    assert Join(',', pair) == FieldClause(k1, v1) + "," + FieldClause(k2, v2);
    assert FieldClauses(SortedKeys(fields.Keys), fields) == Ok(pair);
    assert "AND(" + (FieldClause(k1, v1) + "," + FieldClause(k2, v2)) + ")"
        == "AND(" + FieldClause(k1, v1) + "," + FieldClause(k2, v2) + ")";
  }

  lemma PairClauses(k1: string, v1: string, k2: string, v2: string, fields: map<string, Json>)
    requires k1 != k2 && v1 != "" && v2 != ""
    requires fields == map[k1 := Str(v1), k2 := Str(v2)]
    ensures FieldClauses([k1, k2], fields) == Ok([FieldClause(k1, v1), FieldClause(k2, v2)])
  {
    var keys := [k1, k2];
    assert keys[1..] == [k2] && keys[1..][1..] == [];
    assert FieldClauses([k2], fields) == Ok([FieldClause(k2, v2)]) by {
      assert [k2][1..] == [];
      assert [FieldClause(k2, v2)] + [] == [FieldClause(k2, v2)];
    }
    assert [FieldClause(k1, v1)] + [FieldClause(k2, v2)] == [FieldClause(k1, v1), FieldClause(k2, v2)];
  }

  /** A falsy value contributes no clause, on whichever side of the other
      key it sorts. */
  lemma FieldsFormulaSkipsFalsy(k1: string, v1: string, k2: string, v2: Json)
    requires k1 != k2 && v1 != "" && !Truthy(v2)
    ensures FieldsFormula(map[k1 := Str(v1), k2 := v2]) == Ok("AND(" + FieldClause(k1, v1) + ")")
  {
    var fields := map[k1 := Str(v1), k2 := v2];
    assert fields.Keys == {k1, k2};
    LexLeTotal(k1, k2);
    if LexLe(k1, k2) {
      SortedKeysPair(k1, k2);
      var keys := [k1, k2];
      assert keys[1..] == [k2] && keys[1..][1..] == [];
      assert [k2][1..] == [] && FieldClauses([], fields) == Ok([]);
      assert FieldClauses([k2], fields) == Ok([]);
      assert [FieldClause(k1, v1)] + [] == [FieldClause(k1, v1)];
      assert FieldClauses(keys, fields) == Ok([FieldClause(k1, v1)]);
    } else {
      assert {k1, k2} == {k2, k1};
      SortedKeysPair(k2, k1);
      var keys := [k2, k1];
      assert keys[1..] == [k1] && keys[1..][1..] == [];
      assert [k1][1..] == [] && FieldClauses([], fields) == Ok([]);
      assert [FieldClause(k1, v1)] + [] == [FieldClause(k1, v1)];
      assert FieldClauses([k1], fields) == Ok([FieldClause(k1, v1)]);
      assert FieldClauses(keys, fields) == Ok([FieldClause(k1, v1)]);
    }
  }

  /** The filter of `get_records_by_fields` is sent encoded as the first
      parameter and is recoverable from the URL. */
  lemma GetRecordsByFieldsFilter(
    c: Client, fields: map<string, Json>,
    cellFormat: Option<CellFormat>, timeZone: Option<string>, userLocale: Option<string>)
    requires TextValued(fields)
    requires CellFormatArgsValid(cellFormat, timeZone, userLocale)
    ensures var r := GetRecordsByFieldsRequest(c, fields, cellFormat, timeZone, userLocale);
            && r.Ok? && r.value.Get? && r.value.headers == c.headers
            && r.value.url[..|c.route| + 1] == c.route + "?"
            && FieldsFormula(fields).Ok?
            && FirstParamDecoded(r.value.url[|c.route| + 1..], "filterByFormula") == Some(FieldsFormula(fields).value)
  {
    FieldsFormulaMeaning(fields);
    FilterParamReadBack(c.route, FieldsFormula(fields).value, CellFormatParams(cellFormat, timeZone, userLocale).value);
  }

  /** The cell-format parameters hold no `&` unless the time zone or the
      locale, which are sent unescaped, holds one. */
  lemma CellFormatParamsNoAmpersand(cellFormat: Option<CellFormat>, timeZone: Option<string>, userLocale: Option<string>)
    requires CellFormatArgsValid(cellFormat, timeZone, userLocale)
    requires cellFormat == Some(StringCells) ==> '&' !in timeZone.value && '&' !in userLocale.value
    ensures var extra := CellFormatParams(cellFormat, timeZone, userLocale).value;
            forall i :: 0 <= i < |extra| ==> '&' !in extra[i]
  {
    if cellFormat == Some(StringCells) {
      NotInAppend('&', "timeZone=", timeZone.value);
      NotInAppend('&', "userLocale=", userLocale.value);
    }
  }

  /** A query made of the encoded filter and then parameters free of `&`
      splits at `&` back into exactly those parameters. */
  lemma FilteredQuery(route: string, formula: string, extra: seq<string>)
    requires forall i :: 0 <= i < |extra| ==> '&' !in extra[i]
    ensures var params := ["filterByFormula=" + QuotePlus(formula)] + extra;
            var url := QueryUrl(route, params);
            && url[..|route| + 1] == route + "?"
            && Split(url[|route| + 1..], '&') == params
  {
    var params := ["filterByFormula=" + QuotePlus(formula)] + extra;
    QuotePlusFormEncoded(formula);
    FormEncodedCharacters(QuotePlus(formula));
    NotInAppend('&', "filterByFormula=", QuotePlus(formula));
    forall i | 0 <= i < |params|
      ensures '&' !in params[i]
    {
      if i > 0 { assert params[i] == extra[i - 1]; }
    }
    assert QueryUrl(route, params)[|route| + 1..] == Join('&', params);
    SplitJoin('&', params);
  }

  /** The query of `get_record` is the encoded filter followed by exactly
      the cell-format parameters. */
  lemma GetRecordUrlQuery(
    c: Client, id: string, cellFormat: Option<CellFormat>, timeZone: Option<string>, userLocale: Option<string>)
    requires CellFormatArgsValid(cellFormat, timeZone, userLocale)
    requires cellFormat == Some(StringCells) ==> '&' !in timeZone.value && '&' !in userLocale.value
    ensures var r := GetRecordRequest(c, id, cellFormat, timeZone, userLocale);
            && r.Ok? && r.value.url[..|c.route| + 1] == c.route + "?"
            && Split(r.value.url[|c.route| + 1..], '&')
               == ["filterByFormula=" + QuotePlus(RecordIdFormula(id, c.idColumn))]
                  + CellFormatParams(cellFormat, timeZone, userLocale).value
  {
    CellFormatParamsNoAmpersand(cellFormat, timeZone, userLocale);
    FilteredQuery(c.route, RecordIdFormula(id, c.idColumn), CellFormatParams(cellFormat, timeZone, userLocale).value);
  }

  /** The query of `get_records_by_fields` is the encoded formula followed
      by exactly the cell-format parameters. */
  lemma GetRecordsByFieldsUrlQuery(
    c: Client, fields: map<string, Json>,
    cellFormat: Option<CellFormat>, timeZone: Option<string>, userLocale: Option<string>)
    requires TextValued(fields)
    requires CellFormatArgsValid(cellFormat, timeZone, userLocale)
    requires cellFormat == Some(StringCells) ==> '&' !in timeZone.value && '&' !in userLocale.value
    ensures var r := GetRecordsByFieldsRequest(c, fields, cellFormat, timeZone, userLocale);
            && FieldsFormula(fields).Ok? && r.Ok? && r.value.url[..|c.route| + 1] == c.route + "?"
            && Split(r.value.url[|c.route| + 1..], '&')
               == ["filterByFormula=" + QuotePlus(FieldsFormula(fields).value)]
                  + CellFormatParams(cellFormat, timeZone, userLocale).value
  {
    FieldsFormulaMeaning(fields);
    CellFormatParamsNoAmpersand(cellFormat, timeZone, userLocale);
    FilteredQuery(c.route, FieldsFormula(fields).value, CellFormatParams(cellFormat, timeZone, userLocale).value);
  }

  /** A string cell format without a time zone and a locale fails the
      assertion before any request is sent; `get_records_by_fields` builds
      its formula first, so a TypeError there wins. */
  lemma CellFormatAssertionFirst(
    c: Client, id: string, fields: map<string, Json>,
    pageSize: Option<int>, offset: Option<string>, maxRecords: Option<int>,
    cellFormat: Option<CellFormat>, timeZone: Option<string>, userLocale: Option<string>)
    requires !CellFormatArgsValid(cellFormat, timeZone, userLocale)
    ensures cellFormat == Some(StringCells)
    ensures ListRecordsRequest(c, pageSize, offset, maxRecords, cellFormat, timeZone, userLocale)
            == Err(AssertionError(CellFormatMessage))
    ensures GetRecordRequest(c, id, cellFormat, timeZone, userLocale) == Err(AssertionError(CellFormatMessage))
    ensures GetRecordsByFieldsRequest(c, fields, cellFormat, timeZone, userLocale)
            == if TextValued(fields) then Err(AssertionError(CellFormatMessage)) else Err(TypeError)
  {
    FieldsFormulaMeaning(fields);
  }

  // ---------------------------------------------------------------------
  // Responses of get_record

  /** `get_record` first rejects every status but 200 with an ApiError,
      which the body check never raises; at status 200 the body decides. */
  lemma GetRecordStatusFirst(response: Response)
    ensures GetRecordResult(response) == Err(ClientError(ApiError)) <==> response.status != 200
    ensures response.status == 200 ==> GetRecordResult(response) == SingleRecordFields(response.body)
  {
    assert SingleRecordFields(response.body) != Err(ClientError(ApiError));
  }

  /** The body check raises a TypeError, rather than reporting a bad
      response, exactly when `in` or `[]` meets a value of the wrong kind:
      `in` on a body that is no container; `[]` on a list or string body
      that holds `records`; or, on the single record, `in` on a record that
      is no container, or `[]` on a list or string record that holds
      `fields`. */
  lemma SingleRecordTypeError(body: Json)
    ensures SingleRecordFields(body) == Err(TypeError) <==>
            || Contains(body, "records").None?
            || (Contains(body, "records") == Some(true) && !body.Object?)
            || (&& body.Object? && "records" in body.members
                && body.members["records"].Array? && |body.members["records"].items| == 1
                && !body.members["records"].items[0].Object?
                && Contains(body.members["records"].items[0], "fields") != Some(false))
  {
  }

  // ---------------------------------------------------------------------
  // create_record

  /** The body `create_record` posts is one record holding the given
      fields, exactly what the body check of `get_record` accepts. */
  lemma CreateRecordBodyShape(fields: map<string, Json>)
    ensures WellShaped(CreateRecordBody(fields))
    ensures SingleRecordFields(CreateRecordBody(fields)) == Ok(Object(fields))
  {
  }
}
