/** The fuzzy stage-to-bronze matcher (backend/api/stage_to_bronze.py): a stage
    table whose name is also a bronze table name is matched to itself; any other
    stage table is matched to the bronze table whose lower-cased name is most
    similar to its own, provided the similarity reaches 80. The similarity
    (`rapidfuzz.fuzz.ratio`) is a parameter. The router is not mounted by the
    application; it is modelled as a standalone handler. The handler catches
    nothing: an exception leaves it as the exception. */
module StageToBronze {
  import opened Common
  import Manager

  /** `fuzz.ratio` on two strings. */
  type Ratio = (string, string) -> real

  datatype MatchType = Exact | Fuzzy

  datatype Suggestion = Suggestion(stageTable: string, bronzeTable: string, matchType: MatchType, score: real)

  /** The least best score a fuzzy suggestion needs. */
  const Threshold: real := 80.0

  /** The score an exact match carries. */
  const ExactScore: real := 100.0

  /** `best_match` and `best_score` of the inner loop. */
  datatype Best = Best(table: Option<string>, score: real)

  function Score(stageTable: string, bronzeTable: string, ratio: Ratio): real {
    ratio(Lower(stageTable), Lower(bronzeTable))
  }

  /** The inner loop's state after scanning `bronze`: a candidate replaces the
      best so far only when its score is strictly greater. */
  function BestOf(stageTable: string, bronze: seq<string>, ratio: Ratio): (r: Best)
    ensures r.table.None? ==> r.score == 0.0
    ensures r.table.Some? ==> r.score > 0.0
  {
    if |bronze| == 0 then Best(None, 0.0)
    else
      var n := |bronze| - 1;
      var before := BestOf(stageTable, bronze[..n], ratio);
      var score := Score(stageTable, bronze[n], ratio);
      if score > before.score then Best(Some(bronze[n]), score) else before
  }

  /** The best is the EARLIEST bronze table of maximal score, when that score is
      positive; with no positive score there is none and the score stays 0. */
  lemma {:induction false} BestIsEarliestMaximum(stageTable: string, bronze: seq<string>, ratio: Ratio)
    ensures var b := BestOf(stageTable, bronze, ratio);
      && (forall j :: 0 <= j < |bronze| ==> Score(stageTable, bronze[j], ratio) <= b.score)
      && (b.table.None? <==> forall j :: 0 <= j < |bronze| ==> Score(stageTable, bronze[j], ratio) <= 0.0)
      && (b.table.Some? ==>
            exists k :: 0 <= k < |bronze| && bronze[k] == b.table.value && Score(stageTable, bronze[k], ratio) == b.score &&
                        forall j :: 0 <= j < k ==> Score(stageTable, bronze[j], ratio) < b.score)
    decreases |bronze|
  {
    if |bronze| > 0 {
      var n := |bronze| - 1;
      var prefix := bronze[..n];
      var before := BestOf(stageTable, prefix, ratio);
      var b := BestOf(stageTable, bronze, ratio);
      BestIsEarliestMaximum(stageTable, prefix, ratio);
      assert forall j :: 0 <= j < n ==> bronze[j] == prefix[j];
      if Score(stageTable, bronze[n], ratio) > before.score {
        assert b.table.Some? && bronze[n] == b.table.value;
      } else if b.table.Some? {
        var k :| 0 <= k < n && prefix[k] == b.table.value && Score(stageTable, prefix[k], ratio) == b.score &&
                 forall j :: 0 <= j < k ==> Score(stageTable, prefix[j], ratio) < b.score;
        assert bronze[k] == prefix[k];
      }
    }
  }

  /** The suggestion for one stage table: exact (case-sensitive) first, then the
      fuzzy best when it reaches the threshold. */
  function SuggestionFor(bronze: seq<string>, ratio: Ratio, stageTable: string): Option<Suggestion> {
    if stageTable in bronze then Some(Suggestion(stageTable, stageTable, Exact, ExactScore))
    else
      var b := BestOf(stageTable, bronze, ratio);
      if b.score >= Threshold then Some(Suggestion(stageTable, b.table.value, Fuzzy, b.score)) else None
  }

  function Suggester(bronze: seq<string>, ratio: Ratio): string -> Option<Suggestion> {
    s => SuggestionFor(bronze, ratio, s)
  }

  /** The inner loop. */
  method BestMatch(stageTable: string, bronze: seq<string>, ratio: Ratio) returns (best: Option<string>, bestScore: real)
    ensures Best(best, bestScore) == BestOf(stageTable, bronze, ratio)
  {
    best := None;
    bestScore := 0.0;
    for i := 0 to |bronze|
      invariant Best(best, bestScore) == BestOf(stageTable, bronze[..i], ratio)
    {
      assert bronze[..i + 1][..i] == bronze[..i];
      var score := ratio(Lower(stageTable), Lower(bronze[i]));
      if score > bestScore {
        best := Some(bronze[i]);
        bestScore := score;
      }
    }
    assert bronze[..|bronze|] == bronze;
  }

  /** The outer loop over the stage table names. */
  method CollectSuggestions(stage: seq<string>, bronze: seq<string>, ratio: Ratio) returns (suggestions: seq<Suggestion>)
    ensures suggestions == Collect(stage, Suggester(bronze, ratio))
  {
    suggestions := [];
    for i := 0 to |stage|
      invariant suggestions == Collect(stage[..i], Suggester(bronze, ratio))
    {
      assert stage[..i + 1][..i] == stage[..i];
      var stageTable := stage[i];
      if stageTable in bronze {
        suggestions := suggestions + [Suggestion(stageTable, stageTable, Exact, ExactScore)];
      } else {
        var best, bestScore := BestMatch(stageTable, bronze, ratio);
        if bestScore >= Threshold {
          suggestions := suggestions + [Suggestion(stageTable, best.value, Fuzzy, bestScore)];
        }
      }
    }
    assert stage[..|stage|] == stage;
  }

  /** `SELECT TABLE_NAME ... WHERE TABLE_TYPE = 'BASE TABLE'` on a connection
      opened on an engine: the names in the order the rows arrive, or the
      exception connecting or running it raises. */
  type TableNames = Manager.Engine -> Raises<seq<string>>

  datatype SuggestOutcome = SuggestOutcome(response: Raises<seq<Suggestion>>, cache: map<string, Manager.Engine>)

  /** One call of `suggest_stage_to_bronze_map`: the "Silver" engine, then the
      "Bronze" engine, then the table names on each. */
  function SuggestSpec(connections: Connections, cache: map<string, Manager.Engine>, env: Env, tables: TableNames,
                       ratio: Ratio): SuggestOutcome {
    var silver := Manager.GetEngineSpec(connections, cache, "Silver", env);
    match silver.response
    case Raised(e) => SuggestOutcome(Raised(e), silver.cache)
    case Returns(stageEngine) =>
      var bronze := Manager.GetEngineSpec(connections, silver.cache, "Bronze", env);
      match bronze.response
      case Raised(e) => SuggestOutcome(Raised(e), bronze.cache)
      case Returns(bronzeEngine) =>
        match tables(stageEngine)
        case Raised(e) => SuggestOutcome(Raised(e), bronze.cache)
        case Returns(stageTables) =>
          match tables(bronzeEngine)
          case Raised(e) => SuggestOutcome(Raised(e), bronze.cache)
          case Returns(bronzeTables) =>
            SuggestOutcome(Returns(Collect(stageTables, Suggester(bronzeTables, ratio))), bronze.cache)
  }

  /** `suggest_stage_to_bronze_map`. */
  method SuggestStageToBronzeMap(mgr: Manager.ConnectionManager, env: Env, tables: TableNames, ratio: Ratio)
    returns (r: Raises<seq<Suggestion>>)
    modifies mgr
    ensures var o := SuggestSpec(mgr.connections, old(mgr.cache), env, tables, ratio);
      r == o.response && mgr.cache == o.cache
  {
    var stageEngine := mgr.GetSqlalchemyEngine("Silver", env);
    if stageEngine.Raised? {
      return Raised(stageEngine.exception);
    }
    var bronzeEngine := mgr.GetSqlalchemyEngine("Bronze", env);
    if bronzeEngine.Raised? {
      return Raised(bronzeEngine.exception);
    }
    var stageTables := tables(stageEngine.value);
    if stageTables.Raised? {
      return Raised(stageTables.exception);
    }
    var bronzeTables := tables(bronzeEngine.value);
    if bronzeTables.Raised? {
      return Raised(bronzeTables.exception);
    }
    var suggestions := CollectSuggestions(stageTables.value, bronzeTables.value, ratio);
    r := Returns(suggestions);
  }

  /** Without a "Silver" entry in connections.json (and no cached engine) the
      handler raises ValueError naming the alias before reading any table. */
  lemma MissingSilverRaises(connections: Connections, cache: map<string, Manager.Engine>, env: Env, tables: TableNames,
                            ratio: Ratio)
    requires "Silver" !in cache
    requires forall i :: 0 <= i < |connections| ==> connections[i].0 != "Silver"
    ensures SuggestSpec(connections, cache, env, tables, ratio)
         == SuggestOutcome(Raised(ValueError("Unsupported connection: Silver")), cache)
  {
    Manager.UnknownAliasRaises(connections, cache, "Silver", env);
    assert "Unsupported connection: " + "Silver" == "Unsupported connection: Silver";
  }

  /** When both engines are built and both queries answer, the response is the
      collected suggestions of the stage names against the bronze names, and
      both engines are cached. */
  lemma SuggestAnswersWhenConnected(connections: Connections, cache: map<string, Manager.Engine>, env: Env,
                                    tables: TableNames, ratio: Ratio)
    requires SuggestSpec(connections, cache, env, tables, ratio).response.Returns?
    ensures var o := SuggestSpec(connections, cache, env, tables, ratio);
      && "Silver" in o.cache && "Bronze" in o.cache
      && tables(o.cache["Silver"]).Returns? && tables(o.cache["Bronze"]).Returns?
      && o.response.value == Collect(tables(o.cache["Silver"]).value, Suggester(tables(o.cache["Bronze"]).value, ratio))
  {
    var silver := Manager.GetEngineSpec(connections, cache, "Silver", env);
    Manager.CacheOnlyOnSuccess(connections, cache, "Silver", env);
    Manager.CacheOnlyOnSuccess(connections, silver.cache, "Bronze", env);
  }

  /** A stage table that is also a bronze table name (same case) is matched to
      itself with score 100, whatever the similarities. */
  lemma ExactMatchWins(bronze: seq<string>, ratio: Ratio, stageTable: string)
    requires stageTable in bronze
    ensures SuggestionFor(bronze, ratio, stageTable) == Some(Suggestion(stageTable, stageTable, Exact, 100.0))
  {
  }

  /** Otherwise there is a suggestion if and only if some bronze table scores at
      least 80, and it names the earliest bronze table of maximal score. */
  lemma FuzzyMatchIsEarliestBest(bronze: seq<string>, ratio: Ratio, stageTable: string)
    requires stageTable !in bronze
    ensures var s := SuggestionFor(bronze, ratio, stageTable);
      && (s.Some? <==> exists j :: 0 <= j < |bronze| && Score(stageTable, bronze[j], ratio) >= 80.0)
      && (s.Some? ==>
            && s.value.stageTable == stageTable && s.value.matchType == Fuzzy && s.value.score >= 80.0
            && exists k :: 0 <= k < |bronze| && bronze[k] == s.value.bronzeTable &&
                 Score(stageTable, bronze[k], ratio) == s.value.score &&
                 (forall j :: 0 <= j < k ==> Score(stageTable, bronze[j], ratio) < s.value.score) &&
                 (forall j :: 0 <= j < |bronze| ==> Score(stageTable, bronze[j], ratio) <= s.value.score))
  {
    BestIsEarliestMaximum(stageTable, bronze, ratio);
    var b := BestOf(stageTable, bronze, ratio);
    if exists j :: 0 <= j < |bronze| && Score(stageTable, bronze[j], ratio) >= 80.0 {
      var j :| 0 <= j < |bronze| && Score(stageTable, bronze[j], ratio) >= 80.0;
      assert b.score >= 80.0;
    }
  }

  /** A stage table that is not a bronze table name gets no suggestion when no
      bronze table scores above 0, in particular when there are no bronze tables. */
  lemma NoFuzzyMatchWithoutPositiveScore(bronze: seq<string>, ratio: Ratio, stageTable: string)
    requires stageTable !in bronze
    requires forall j :: 0 <= j < |bronze| ==> Score(stageTable, bronze[j], ratio) <= 0.0
    ensures SuggestionFor(bronze, ratio, stageTable) == None
  {
    BestIsEarliestMaximum(stageTable, bronze, ratio);
  }

  /** The suggestions follow the order of the stage tables, at most one each. */
  lemma SuggestionsInStageOrder(stage1: seq<string>, stage2: seq<string>, bronze: seq<string>, ratio: Ratio)
    ensures var all := Collect(stage1 + stage2, Suggester(bronze, ratio));
      && all == Collect(stage1, Suggester(bronze, ratio)) + Collect(stage2, Suggester(bronze, ratio))
      && |all| <= |stage1| + |stage2|
  {
    CollectAppend(stage1, stage2, Suggester(bronze, ratio));
  }
}
