/** The exact stage-to-bronze matcher (backend/api/stage_bronze.py): every base
    table of the stage database whose (schema, name) pair, compared without
    regard to case, also names a bronze table is suggested for that bronze
    table. The router is not mounted by the application; it is modelled as a
    standalone handler. */
module StageBronze {
  import opened Common
  import Manager

  /** A row of `information_schema.tables`. */
  datatype TableRow = TableRow(tableName: string, tableSchema: string)

  /** One suggestion; `match` is always "exact". */
  datatype Suggestion = Suggestion(stageSchema: string, stageTable: string,
                                   bronzeSchema: string, bronzeTable: string, matchKind: string)

  /** The key tables are matched by: lower-cased schema and name. */
  function Key(row: TableRow): (string, string) {
    (Lower(row.tableSchema), Lower(row.tableName))
  }

  /** `bronze_lookup`: a dictionary comprehension, so a later row overwrites an
      earlier one with the same key. */
  function BronzeLookup(bronze: seq<TableRow>): map<(string, string), TableRow> {
    if |bronze| == 0 then map[]
    else
      var n := |bronze| - 1;
      BronzeLookup(bronze[..n])[Key(bronze[n]) := bronze[n]]
  }

  /** The lookup has an entry for a key exactly when some bronze table has that key. */
  lemma {:induction false} BronzeLookupKeys(bronze: seq<TableRow>, key: (string, string))
    ensures key in BronzeLookup(bronze) <==> exists i :: 0 <= i < |bronze| && Key(bronze[i]) == key
    decreases |bronze|
  {
    if |bronze| > 0 {
      var n := |bronze| - 1;
      var prefix := bronze[..n];
      BronzeLookupKeys(prefix, key);
      if key in BronzeLookup(prefix) {
        var i :| 0 <= i < n && Key(prefix[i]) == key;
        assert bronze[i] == prefix[i];
      }
      if exists i :: 0 <= i < |bronze| && Key(bronze[i]) == key {
        var i :| 0 <= i < |bronze| && Key(bronze[i]) == key;
        if i < n {
          assert prefix[i] == bronze[i];
        }
      }
    }
  }

  /** The entry for a key is the LAST bronze table with that key. */
  lemma {:induction false} BronzeLookupLastWins(bronze: seq<TableRow>, key: (string, string))
    requires key in BronzeLookup(bronze)
    ensures exists i :: 0 <= i < |bronze| && bronze[i] == BronzeLookup(bronze)[key] && Key(bronze[i]) == key &&
                        forall j :: i < j < |bronze| ==> Key(bronze[j]) != key
    decreases |bronze|
  {
    var n := |bronze| - 1;
    if Key(bronze[n]) != key {
      var prefix := bronze[..n];
      assert BronzeLookup(bronze)[key] == BronzeLookup(prefix)[key];
      BronzeLookupLastWins(prefix, key);
      var i :| 0 <= i < n && prefix[i] == BronzeLookup(prefix)[key] && Key(prefix[i]) == key &&
               forall j :: i < j < n ==> Key(prefix[j]) != key;
      assert bronze[i] == prefix[i];
      forall j | i < j < |bronze|
        ensures Key(bronze[j]) != key
      {
        if j < n {
          assert bronze[j] == prefix[j];
        }
      }
    }
  }

  /** The suggestion for one stage table, given the lookup. */
  function SuggestionFor(lookup: map<(string, string), TableRow>, row: TableRow): Option<Suggestion> {
    var key := Key(row);
    if key in lookup then
      Some(Suggestion(row.tableSchema, row.tableName, lookup[key].tableSchema, lookup[key].tableName, "exact"))
    else None
  }

  function Suggester(lookup: map<(string, string), TableRow>): TableRow -> Option<Suggestion> {
    row => SuggestionFor(lookup, row)
  }

  /** The suggestions for the two answered catalog queries. */
  function Suggestions(stage: seq<TableRow>, bronze: seq<TableRow>): seq<Suggestion> {
    Collect(stage, Suggester(BronzeLookup(bronze)))
  }

  /** The answer of the endpoint and the connection manager's cache afterwards. */
  datatype SuggestOutcome = SuggestOutcome(response: Result<seq<Suggestion>>, cache: map<string, Manager.Engine>)

  /** The endpoint in the order it fails: the Silver engine, the Bronze engine,
      the two connections (Silver first), the stage query, the bronze query.
      Every failure is the HTTP 500. */
  function SuggestSpec(connections: Connections, cache: map<string, Manager.Engine>, env: Env,
                       stageConnect: Option<string>, bronzeConnect: Option<string>,
                       stageQuery: Result<seq<TableRow>>, bronzeQuery: Result<seq<TableRow>>): SuggestOutcome {
    var silver := Manager.GetEngineSpec(connections, cache, "Silver", env);
    match silver.response
    case Raised(e) => SuggestOutcome(Err(ExceptionText(e)), silver.cache)
    case Returns(_) =>
      var bronze := Manager.GetEngineSpec(connections, silver.cache, "Bronze", env);
      var response :=
        match bronze.response
        case Raised(e) => Err(ExceptionText(e))
        case Returns(_) =>
          if stageConnect.Some? then Err(stageConnect.value)
          else if bronzeConnect.Some? then Err(bronzeConnect.value)
          else if stageQuery.Err? then Err(stageQuery.detail)
          else if bronzeQuery.Err? then Err(bronzeQuery.detail)
          else Ok(Suggestions(stageQuery.value, bronzeQuery.value));
      SuggestOutcome(response, bronze.cache)
  }

  /** `suggest_stage_to_bronze`: the loop over the stage tables. */
  method SuggestStageToBronze(mgr: Manager.ConnectionManager, env: Env,
                              stageConnect: Option<string>, bronzeConnect: Option<string>,
                              stageQuery: Result<seq<TableRow>>, bronzeQuery: Result<seq<TableRow>>)
    returns (r: Result<seq<Suggestion>>)
    modifies mgr
    ensures var o := SuggestSpec(mgr.connections, old(mgr.cache), env, stageConnect, bronzeConnect, stageQuery, bronzeQuery);
      r == o.response && mgr.cache == o.cache
  {
    var stageEngine := mgr.GetSqlalchemyEngine("Silver", env);
    if stageEngine.Raised? {
      return Err(ExceptionText(stageEngine.exception));
    }
    var bronzeEngine := mgr.GetSqlalchemyEngine("Bronze", env);
    if bronzeEngine.Raised? {
      return Err(ExceptionText(bronzeEngine.exception));
    }
    if stageConnect.Some? {
      return Err(stageConnect.value);
    }
    if bronzeConnect.Some? {
      return Err(bronzeConnect.value);
    }
    if stageQuery.Err? {
      return Err(stageQuery.detail);
    }
    if bronzeQuery.Err? {
      return Err(bronzeQuery.detail);
    }
    var stage := stageQuery.value;
    var lookup := BronzeLookup(bronzeQuery.value);
    var suggestions: seq<Suggestion> := [];
    for i := 0 to |stage|
      invariant suggestions == Collect(stage[..i], Suggester(lookup))
    {
      assert stage[..i + 1][..i] == stage[..i];
      var key := Key(stage[i]);
      if key in lookup {
        suggestions := suggestions + [Suggestion(stage[i].tableSchema, stage[i].tableName,
                                                 lookup[key].tableSchema, lookup[key].tableName, "exact")];
      }
    }
    assert stage[..|stage|] == stage;
    r := Ok(suggestions);
  }

  /** The endpoint answers exactly when both engines are obtained, both
      connections open and both queries succeed; the answer is then the
      suggestions for the two table lists. Otherwise the first failure in code
      order is the error: both connections are opened before either query runs. */
  lemma SuggestSucceedsIff(connections: Connections, cache: map<string, Manager.Engine>, env: Env,
                           stageConnect: Option<string>, bronzeConnect: Option<string>,
                           stageQuery: Result<seq<TableRow>>, bronzeQuery: Result<seq<TableRow>>)
    ensures var silver := Manager.GetEngineSpec(connections, cache, "Silver", env);
      var bronze := Manager.GetEngineSpec(connections, silver.cache, "Bronze", env);
      var o := SuggestSpec(connections, cache, env, stageConnect, bronzeConnect, stageQuery, bronzeQuery);
      && (o.response.Ok? <==> silver.response.Returns? && bronze.response.Returns? && stageConnect.None? &&
                              bronzeConnect.None? && stageQuery.Ok? && bronzeQuery.Ok?)
      && (o.response.Ok? ==> o.response.value == Suggestions(stageQuery.value, bronzeQuery.value))
      && (silver.response.Returns? && bronze.response.Returns? && stageConnect.None? && bronzeConnect.Some? ==>
            o.response == Err(bronzeConnect.value))
  {
  }

  /** A stage table is suggested if and only if a bronze table has its
      case-insensitive key; the suggestion keeps both sides' original casing,
      names the last such bronze table and is marked "exact". */
  lemma SuggestionIffKeyMatches(stage: seq<TableRow>, bronze: seq<TableRow>, i: nat)
    requires i < |stage|
    ensures var s := SuggestionFor(BronzeLookup(bronze), stage[i]);
      && (s.Some? <==> exists j :: 0 <= j < |bronze| && Key(bronze[j]) == Key(stage[i]))
      && (s.Some? ==>
            && s.value.stageSchema == stage[i].tableSchema && s.value.stageTable == stage[i].tableName
            && s.value.matchKind == "exact"
            && exists j :: 0 <= j < |bronze| && Key(bronze[j]) == Key(stage[i])
                 && s.value.bronzeSchema == bronze[j].tableSchema && s.value.bronzeTable == bronze[j].tableName
                 && forall k :: j < k < |bronze| ==> Key(bronze[k]) != Key(stage[i]))
  {
    BronzeLookupKeys(bronze, Key(stage[i]));
    if Key(stage[i]) in BronzeLookup(bronze) {
      BronzeLookupLastWins(bronze, Key(stage[i]));
    }
  }

  /** The answer lists the suggestions of earlier stage tables before those of
      later ones, at most one per stage table. */
  lemma SuggestionsInStageOrder(stage1: seq<TableRow>, stage2: seq<TableRow>, bronze: seq<TableRow>)
    ensures var all := Suggestions(stage1 + stage2, bronze);
      && all == Suggestions(stage1, bronze) + Suggestions(stage2, bronze)
      && |all| <= |stage1| + |stage2|
  {
    CollectAppend(stage1, stage2, Suggester(BronzeLookup(bronze)));
  }

  /** Every suggestion comes from some stage table, and every stage table with a
      matching key contributes its suggestion. */
  lemma SuggestionsAreStageSuggestions(stage: seq<TableRow>, bronze: seq<TableRow>, s: Suggestion)
    ensures s in Suggestions(stage, bronze) <==>
      exists i :: 0 <= i < |stage| && SuggestionFor(BronzeLookup(bronze), stage[i]) == Some(s)
  {
    CollectMembers(stage, Suggester(BronzeLookup(bronze)), s);
  }
}
