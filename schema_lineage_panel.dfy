/** The schema lineage panel (frontend/components/SchemaLineagePanel.js): choose
    a connection, whose tables give the list of schemas, then start the bulk
    lineage analysis of one schema and show its outcome. */
module SchemaLineagePanel {
  import opened Common
  import opened Frontend
  import Schema
  import LineageBulk

  /** `t.split('.')[0]`: the schema part of a qualified table name. */
  function SchemaPart(table: string): string {
    BeforeFirst(table, '.')
  }

  /** `[...new Set(xs)]`: each value once, in order of first occurrence. */
  function Distinct(xs: seq<string>): (r: seq<string>)
    ensures forall x :: x in r <==> x in xs
    ensures forall i, j :: 0 <= i < j < |r| ==> r[i] != r[j]
    ensures |r| <= |xs|
    ensures |xs| > 0 ==> |r| > 0 && r[0] == xs[0]
    decreases |xs|
  {
    if |xs| == 0 then []
    else
      var init := Distinct(xs[..|xs| - 1]);
      var last := xs[|xs| - 1];
      if last in init then init else init + [last]
  }

  /** A list without repetitions is kept as it is. */
  lemma {:induction false} DistinctOfDistinct(xs: seq<string>)
    requires forall i, j :: 0 <= i < j < |xs| ==> xs[i] != xs[j]
    ensures Distinct(xs) == xs
    decreases |xs|
  {
    if |xs| > 0 {
      var init := xs[..|xs| - 1];
      DistinctOfDistinct(init);
      assert xs[|xs| - 1] !in init;
      assert init + [xs[|xs| - 1]] == xs;
    }
  }

  /** The schemas offered for a table list. */
  function UniqueSchemas(tables: seq<string>): (r: seq<string>)
    ensures forall s :: s in r <==> exists t :: t in tables && SchemaPart(t) == s
    ensures forall i, j :: 0 <= i < j < |r| ==> r[i] != r[j]
    ensures |tables| > 0 ==> |r| > 0 && r[0] == SchemaPart(tables[0])
  {
    var parts := seq(|tables|, i requires 0 <= i < |tables| => SchemaPart(tables[i]));
    assert forall s :: s in parts <==> exists t :: t in tables && SchemaPart(t) == s by {
      forall s | s in parts ensures exists t :: t in tables && SchemaPart(t) == s {
        var i :| 0 <= i < |parts| && parts[i] == s;
        assert tables[i] in tables;
      }
      forall s | exists t :: t in tables && SchemaPart(t) == s ensures s in parts {
        var t :| t in tables && SchemaPart(t) == s;
        var i :| 0 <= i < |tables| && tables[i] == t;
        assert parts[i] == s;
      }
    }
    Distinct(parts)
  }

  /** For the names the table listing returns, the schema part is the schema. */
  lemma SchemaOfListedTable(schema: string, table: string)
    requires '.' !in schema
    ensures SchemaPart(Schema.QualifiedName(schema, table)) == schema
  {
    IndexOfJoin(schema, '.', table);
    assert Schema.QualifiedName(schema, table)[..|schema|] == schema;
  }

  // ---------------------------------------------------------------------------
  // The analysis outcome

  const ProcessedPrefix: string := "✅ Processed "
  const ProcessedSuffix: string := " procedures."
  const ErrorPrefix: string := "❌ Error: "

  /** The status line shown once the bulk request is answered: the answer's
      `total`, or the answer's `detail` when it is truthy and else the
      rejection's message. */
  function StatusText(result: AxiosResult<JsonObject>): string {
    match result
    case Resolved(data) => ProcessedPrefix + FieldText(data, "total") + ProcessedSuffix
    case Rejected(message, data) =>
      if data.Some? && "detail" in data.value && Truthy(data.value["detail"])
      then ErrorPrefix + JsString(data.value["detail"])
      else ErrorPrefix + message
  }

  /** The message axios gives a rejection for a 500 answer. */
  const ServerErrorMessage: string := "Request failed with status code 500"

  /** What the browser receives from the bulk endpoint: its success body
      `{"status": "ok", "procedures_analyzed": n}`, or a 500 answer whose body
      carries the error text as `detail`. */
  function BulkAnswer(response: Result<nat>): AxiosResult<JsonObject> {
    match response
    case Ok(n) => Resolved(map["status" := JStr("ok"), "procedures_analyzed" := JInt(n)])
    case Err(e) => Rejected(ServerErrorMessage, Some(map["detail" := JStr(e)]))
  }

  /** The endpoint's success body has no `total`: whatever the number of
      procedures analyzed, the panel reports "undefined". */
  lemma SuccessNeverShowsCount(n: nat)
    ensures StatusText(BulkAnswer(Ok(n))) == ProcessedPrefix + "undefined" + ProcessedSuffix
  {
  }

  /** An error answer shows the backend's error text, or the generic axios
      message when that text is empty. */
  lemma ErrorShowsDetail(detail: string)
    ensures StatusText(BulkAnswer(Err(detail)))
            == ErrorPrefix + (if detail != "" then detail else ServerErrorMessage)
  {
  }

  /** The panel's status line for a whole bulk request. */
  lemma BulkRequestStatus(rows: seq<LineageBulk.Lineage.LineageMapRow>, req: LineageBulk.BulkLineageRequest,
                          catalog: Result<seq<LineageBulk.CatalogProc>>, env: LineageBulk.BulkEnv)
    ensures var o := LineageBulk.BulkSpec(rows, req, catalog, env);
      StatusText(BulkAnswer(o.response))
      == (if o.response.Ok? then ProcessedPrefix + "undefined" + ProcessedSuffix
          else ErrorPrefix + (if o.response.detail != "" then o.response.detail else ServerErrorMessage))
  {
  }

  // ---------------------------------------------------------------------------
  // The panel

  /** `!!x` for a selection that is null until chosen. */
  predicate Chosen(x: Option<string>) {
    x.Some? && x.value != ""
  }

  class Panel {
    var selectedConn: Option<string>
    var schemas: seq<string>
    var selectedSchema: Option<string>
    var status: Option<string>
    var loading: bool

    constructor ()
      ensures selectedConn == None && schemas == [] && selectedSchema == None && status == None && !loading
    {
      selectedConn := None;
      schemas := [];
      selectedSchema := None;
      status := None;
      loading := false;
    }

    /** The connection select's change, with the effect it triggers: the
        tables of the new connection are requested exactly when the value
        changed and is not the empty placeholder. */
    method SelectConnection(value: string) returns (requestTables: bool)
      modifies this
      ensures selectedConn == Some(value)
      ensures requestTables <==> old(selectedConn) != Some(value) && value != ""
      ensures schemas == old(schemas) && selectedSchema == old(selectedSchema)
      ensures status == old(status) && loading == old(loading)
    {
      requestTables := selectedConn != Some(value) && value != "";
      selectedConn := Some(value);
    }

    /** The schema select's change. */
    method SelectSchema(value: string)
      modifies this
      ensures selectedSchema == Some(value)
      ensures selectedConn == old(selectedConn) && schemas == old(schemas)
      ensures status == old(status) && loading == old(loading)
    {
      selectedSchema := Some(value);
    }

    /** The tables' answer: the schemas they name, the first one selected. A
        rejection is not handled and changes nothing. */
    method TablesLoaded(result: AxiosResult<seq<string>>)
      modifies this
      ensures result.Resolved? ==> schemas == UniqueSchemas(result.data)
      ensures result.Resolved? && |result.data| > 0 ==> selectedSchema == Some(SchemaPart(result.data[0]))
      ensures result.Rejected? || |result.data| == 0 ==> selectedSchema == old(selectedSchema)
      ensures result.Rejected? ==> schemas == old(schemas)
      ensures selectedConn == old(selectedConn) && status == old(status) && loading == old(loading)
    {
      if result.Resolved? {
        var unique := UniqueSchemas(result.data);
        schemas := unique;
        if |unique| > 0 {
          selectedSchema := Some(unique[0]);
        }
      }
    }

    /** `handleAnalyze` up to the post: nothing happens without a connection
        and a schema; otherwise the request names both. */
    method StartAnalyze() returns (request: Option<LineageBulk.BulkLineageRequest>)
      modifies this
      ensures selectedConn == old(selectedConn) && selectedSchema == old(selectedSchema) && schemas == old(schemas)
      ensures request.Some? <==> Chosen(selectedConn) && Chosen(selectedSchema)
      ensures request.Some? ==>
        request.value == LineageBulk.BulkLineageRequest(selectedConn.value, Some(selectedSchema.value))
        && loading && status == None
      ensures request.None? ==> loading == old(loading) && status == old(status)
    {
      if !Chosen(selectedConn) || !Chosen(selectedSchema) {
        return None;
      }
      loading := true;
      status := None;
      request := Some(LineageBulk.BulkLineageRequest(selectedConn.value, Some(selectedSchema.value)));
    }

    /** `handleAnalyze` once the post is answered. */
    method FinishAnalyze(result: AxiosResult<JsonObject>)
      modifies this
      ensures status == Some(StatusText(result)) && !loading
      ensures selectedConn == old(selectedConn) && selectedSchema == old(selectedSchema) && schemas == old(schemas)
    {
      status := Some(StatusText(result));
      loading := false;
    }
  }
}
