/** Stage-to-bronze mappings (backend/api/stage_to_bronze_map.py): suggesting a
    bronze table for every stage table of `source_to_stage_map` that no row of
    `stage_to_bronze_map` covers yet, compared without regard to case, and
    saving a batch of confirmed mappings in one transaction. */
module StageToBronzeMap {
  import opened Common
  import opened SourceToStage
  import Manager

  /** A (schema, table) pair after lower-casing. */
  type Pair = (string, string)

  /** `StageToBronzeMapping`. */
  datatype StageToBronzeMapping = StageToBronzeMapping(
    stageDatabase: string, stageSchema: string, stageTable: string,
    bronzeDatabase: string, bronzeSchema: string, bronzeTable: string)

  /** A row of `stage_to_bronze_map`: the mapping and its creation time. */
  datatype StageBronzeRow = StageBronzeRow(mapping: StageToBronzeMapping, createdAt: Timestamp)

  /** One suggestion: the stage pair, proposed as its own bronze pair. */
  datatype Suggestion = Suggestion(stageSchema: string, stageTable: string, bronzeSchema: string, bronzeTable: string)

  // ---------------------------------------------------------------------------
  // The two sets

  /** A stage row whose schema or table is NULL makes `.lower()` raise. */
  predicate HasNullStagePart(row: SourceStageRow) {
    row.stageSchema.None? || row.stageTable.None?
  }

  const NullLowerDetail: string := "'NoneType' object has no attribute 'lower'"

  function StageKey(row: SourceStageRow): Pair
    requires !HasNullStagePart(row)
  {
    (Lower(row.stageSchema.value), Lower(row.stageTable.value))
  }

  /** `stage_set`: the lower-cased stage pairs. */
  function StagePairs(stageRows: seq<SourceStageRow>): set<Pair>
    requires forall i :: 0 <= i < |stageRows| ==> !HasNullStagePart(stageRows[i])
  {
    set i | 0 <= i < |stageRows| :: StageKey(stageRows[i])
  }

  function BronzeKey(row: StageBronzeRow): Pair {
    (Lower(row.mapping.bronzeSchema), Lower(row.mapping.bronzeTable))
  }

  /** `bronze_set`: the lower-cased bronze pairs. */
  function BronzePairs(bronzeRows: seq<StageBronzeRow>): set<Pair> {
    set i | 0 <= i < |bronzeRows| :: BronzeKey(bronzeRows[i])
  }

  /** The pairs that deserve a suggestion. */
  function UncoveredPairs(stageRows: seq<SourceStageRow>, bronzeRows: seq<StageBronzeRow>): set<Pair>
    requires forall i :: 0 <= i < |stageRows| ==> !HasNullStagePart(stageRows[i])
  {
    StagePairs(stageRows) - BronzePairs(bronzeRows)
  }

  function SuggestionOf(p: Pair): Suggestion {
    Suggestion(p.0, p.1, p.0, p.1)
  }

  /** The stage pair a suggestion is about. */
  function PairOf(s: Suggestion): Pair {
    (s.stageSchema, s.stageTable)
  }

  /** Both parts of every stage pair are lower-case. */
  lemma StagePairsAreLowerCase(stageRows: seq<SourceStageRow>, p: Pair)
    requires forall i :: 0 <= i < |stageRows| ==> !HasNullStagePart(stageRows[i])
    requires p in StagePairs(stageRows)
    ensures IsLowerCase(p.0) && IsLowerCase(p.1)
  {
    var i :| 0 <= i < |stageRows| && p == StageKey(stageRows[i]);
    LowerIsLowerCase(stageRows[i].stageSchema.value);
    LowerIsLowerCase(stageRows[i].stageTable.value);
  }

  // ---------------------------------------------------------------------------
  // Suggesting

  /** Visiting one more stage pair adds it to the uncovered pairs seen so far
      exactly when no bronze pair equals it. */
  lemma UncoveredStep(stageSet: set<Pair>, bronzeSet: set<Pair>, remaining: set<Pair>, p: Pair)
    requires p in remaining && remaining <= stageSet
    ensures p !in (stageSet - remaining) - bronzeSet
    ensures (stageSet - (remaining - {p})) - bronzeSet
         == if p in bronzeSet then (stageSet - remaining) - bronzeSet else ((stageSet - remaining) - bronzeSet) + {p}
  {
  }

  /** The suggestions made so far are those of the pairs `done`, once each:
      suggesting a new pair keeps it so. */
  predicate SuggestsExactly(suggestions: seq<Suggestion>, done: set<Pair>) {
    && (forall i, j :: 0 <= i < j < |suggestions| ==> suggestions[i] != suggestions[j])
    && (forall k :: 0 <= k < |suggestions| ==>
          suggestions[k] == SuggestionOf(PairOf(suggestions[k])) && PairOf(suggestions[k]) in done)
    && (forall p :: p in done ==> SuggestionOf(p) in suggestions)
  }

  /** What the predicate says about the list: no repetition, and a suggestion
      for exactly the pairs of `done`. */
  lemma SuggestsExactlyMeans(suggestions: seq<Suggestion>, done: set<Pair>)
    requires SuggestsExactly(suggestions, done)
    ensures forall i, j :: 0 <= i < j < |suggestions| ==> suggestions[i] != suggestions[j]
    ensures forall s :: s in suggestions <==> exists p :: p in done && s == SuggestionOf(p)
  {
    forall s | s in suggestions ensures exists p :: p in done && s == SuggestionOf(p) {
      var k :| 0 <= k < |suggestions| && suggestions[k] == s;
      assert PairOf(s) in done;
    }
  }

  lemma AppendSuggestion(suggestions: seq<Suggestion>, done: set<Pair>, p: Pair)
    requires SuggestsExactly(suggestions, done) && p !in done
    ensures SuggestsExactly(suggestions + [SuggestionOf(p)], done + {p})
    ensures |done + {p}| == |done| + 1
  {
    var s' := suggestions + [SuggestionOf(p)];
    forall q | q in done + {p} ensures SuggestionOf(q) in s' {
      if q != p {
        assert SuggestionOf(q) in suggestions;
      } else {
        assert s'[|suggestions|] == SuggestionOf(p);
      }
    }
  }

  /** The loop over `stage_set`, visited in the set's own (unspecified) order. */
  method SuggestUncovered(stageSet: set<Pair>, bronzeSet: set<Pair>) returns (suggestions: seq<Suggestion>)
    ensures SuggestsExactly(suggestions, stageSet - bronzeSet)
    ensures |suggestions| == |stageSet - bronzeSet|
  {
    suggestions := [];
    var remaining := stageSet;
    ghost var done: set<Pair> := {};
    while remaining != {}
      invariant remaining <= stageSet
      invariant done == (stageSet - remaining) - bronzeSet
      invariant SuggestsExactly(suggestions, done)
      invariant |suggestions| == |done|
      decreases |remaining|
    {
      var p :| p in remaining;
      UncoveredStep(stageSet, bronzeSet, remaining, p);
      if p !in bronzeSet {
        AppendSuggestion(suggestions, done, p);
        suggestions := suggestions + [SuggestionOf(p)];
        done := done + {p};
      }
      remaining := remaining - {p};
    }
  }

  /** `suggest_stage_to_bronze`: the "lineage" engine comes from the connection
      manager; `stageQuery` and `bronzeQuery` are the two SELECTs on the
      connection opened on it: their rows, or the error that connecting or
      running them raises. Every exception becomes the error. */
  method SuggestStageToBronze(mgr: Manager.ConnectionManager, env: Env,
                              stageQuery: Result<seq<SourceStageRow>>, bronzeQuery: Result<seq<StageBronzeRow>>)
    returns (r: Result<seq<Suggestion>>)
    modifies mgr
    ensures var got := Manager.GetEngineSpec(mgr.connections, old(mgr.cache), "lineage", env);
      && mgr.cache == got.cache
      && (got.response.Raised? ==> r == Err(ExceptionText(got.response.exception)))
      && (got.response.Returns? && stageQuery.Err? ==> r == Err(stageQuery.detail))
      && (got.response.Returns? && stageQuery.Ok? && bronzeQuery.Err? ==> r == Err(bronzeQuery.detail))
    ensures Manager.GetEngineSpec(mgr.connections, old(mgr.cache), "lineage", env).response.Returns? &&
            stageQuery.Ok? && bronzeQuery.Ok? ==>
      var stageRows, bronzeRows := stageQuery.value, bronzeQuery.value;
      && (r.Err? <==> exists i :: 0 <= i < |stageRows| && HasNullStagePart(stageRows[i]))
      && (r.Err? ==> r == Err(NullLowerDetail))
      && (r.Ok? ==>
            && (forall i, j :: 0 <= i < j < |r.value| ==> r.value[i] != r.value[j])
            && (forall s :: s in r.value <==> exists p :: p in UncoveredPairs(stageRows, bronzeRows) && s == SuggestionOf(p))
            && |r.value| == |UncoveredPairs(stageRows, bronzeRows)|)
  {
    var engine := mgr.GetSqlalchemyEngine("lineage", env);
    if engine.Raised? {
      return Err(ExceptionText(engine.exception));
    }
    if stageQuery.Err? {
      return Err(stageQuery.detail);
    }
    if bronzeQuery.Err? {
      return Err(bronzeQuery.detail);
    }
    var stageRows, bronzeRows := stageQuery.value, bronzeQuery.value;
    for i := 0 to |stageRows|
      invariant forall k :: 0 <= k < i ==> !HasNullStagePart(stageRows[k])
    {
      if HasNullStagePart(stageRows[i]) {
        return Err(NullLowerDetail);
      }
    }
    var stageSet := StagePairs(stageRows);
    var bronzeSet := BronzePairs(bronzeRows);
    var suggestions := SuggestUncovered(stageSet, bronzeSet);
    SuggestsExactlyMeans(suggestions, stageSet - bronzeSet);
    r := Ok(suggestions);
  }

  /** Every suggestion is lower-case and proposes the stage pair itself as the
      bronze pair; and a stage pair is suggested exactly when no bronze row has
      it, compared without regard to case. */
  lemma SuggestionShape(stageRows: seq<SourceStageRow>, bronzeRows: seq<StageBronzeRow>, p: Pair)
    requires forall i :: 0 <= i < |stageRows| ==> !HasNullStagePart(stageRows[i])
    requires p in StagePairs(stageRows)
    ensures p in UncoveredPairs(stageRows, bronzeRows) <==> forall j :: 0 <= j < |bronzeRows| ==> BronzeKey(bronzeRows[j]) != p
    ensures SuggestionOf(p).bronzeSchema == SuggestionOf(p).stageSchema == p.0
    ensures SuggestionOf(p).bronzeTable == SuggestionOf(p).stageTable == p.1
    ensures IsLowerCase(p.0) && IsLowerCase(p.1)
  {
    StagePairsAreLowerCase(stageRows, p);
    if p in BronzePairs(bronzeRows) {
      var j :| 0 <= j < |bronzeRows| && BronzeKey(bronzeRows[j]) == p;
    }
  }

  // ---------------------------------------------------------------------------
  // Saving a batch

  function BulkRow(m: StageToBronzeMapping, now: Timestamp): StageBronzeRow {
    StageBronzeRow(m, now)
  }

  /** The rows a batch writes, or the error of the first INSERT the database refuses. */
  function BulkRows(mappings: seq<StageToBronzeMapping>, now: Timestamp, check: InsertCheck<StageBronzeRow>): Result<seq<StageBronzeRow>> {
    if |mappings| == 0 then Ok([])
    else
      var row := BulkRow(mappings[0], now);
      match check(row)
      case Some(e) => Err(e)
      case None =>
        match BulkRows(mappings[1..], now, check)
        case Err(e) => Err(e)
        case Ok(rest) => Ok([row] + rest)
  }

  /** `pending + rest` when the rest succeeds. */
  function After(pending: seq<StageBronzeRow>, rest: Result<seq<StageBronzeRow>>): Result<seq<StageBronzeRow>> {
    match rest
    case Err(e) => Err(e)
    case Ok(r) => Ok(pending + r)
  }

  lemma AfterAfter(p: seq<StageBronzeRow>, q: seq<StageBronzeRow>, rest: Result<seq<StageBronzeRow>>)
    ensures After(p, After(q, rest)) == After(p + q, rest)
    ensures After([], rest) == rest
  {
    if rest.Ok? {
      assert p + (q + rest.value) == (p + q) + rest.value;
      assert [] + rest.value == rest.value;
    }
  }

  /** A batch is written in full exactly when the database accepts every row:
      then one row per mapping, in order, all with the call's time. */
  lemma {:induction false} BulkRowsIff(mappings: seq<StageToBronzeMapping>, now: Timestamp, check: InsertCheck<StageBronzeRow>)
    ensures BulkRows(mappings, now, check).Ok? <==> forall i :: 0 <= i < |mappings| ==> check(BulkRow(mappings[i], now)).None?
    ensures BulkRows(mappings, now, check).Ok? ==>
      var written := BulkRows(mappings, now, check).value;
      |written| == |mappings| && forall i :: 0 <= i < |mappings| ==> written[i] == StageBronzeRow(mappings[i], now)
    decreases |mappings|
  {
    if |mappings| > 0 {
      var tail := mappings[1..];
      BulkRowsIff(tail, now, check);
      assert forall i :: 1 <= i < |mappings| ==> mappings[i] == tail[i - 1];
      if BulkRows(mappings, now, check).Ok? {
        var written := BulkRows(mappings, now, check).value;
        forall i | 0 <= i < |mappings|
          ensures written[i] == StageBronzeRow(mappings[i], now)
        {
          if i > 0 {
            assert written[i] == BulkRows(tail, now, check).value[i - 1];
          }
        }
      }
      if forall i :: 0 <= i < |mappings| ==> check(BulkRow(mappings[i], now)).None? {
        forall i | 0 <= i < |tail|
          ensures check(BulkRow(tail[i], now)).None?
        {
          assert tail[i] == mappings[i + 1];
        }
      }
    }
  }

  /** The `stage_to_bronze_map` table. */
  class StageToBronzeTable {
    var rows: seq<StageBronzeRow>

    constructor (initial: seq<StageBronzeRow>)
      ensures rows == initial
    {
      rows := initial;
    }
  }

  datatype BulkOutcome = BulkOutcome(response: Result<nat>, rows: seq<StageBronzeRow>)

  /** One call of `save_stage_to_bronze_bulk`: `engine` is the answer of
      `get_sqlalchemy_engine("lineage")`, `now` is `datetime.utcnow()`,
      `beginError` the error opening the transaction raises, if any, and
      `check` the error each INSERT raises, if any. */
  function BulkSpec(rows: seq<StageBronzeRow>, mappings: seq<StageToBronzeMapping>, now: Timestamp,
                    engine: Raises<Manager.Engine>, beginError: Option<string>, check: InsertCheck<StageBronzeRow>): BulkOutcome {
    match engine
    case Raised(e) => BulkOutcome(Err(ExceptionText(e)), rows)
    case Returns(_) =>
      match beginError
      case Some(e) => BulkOutcome(Err(e), rows)
      case None =>
        match BulkRows(mappings, now, check)
        case Err(e) => BulkOutcome(Err(e), rows)
        case Ok(written) => BulkOutcome(Ok(|mappings|), rows + written)
  }

  /** `save_stage_to_bronze_bulk`: the INSERTs go to a pending transaction that
      is committed only when all of them succeeded. */
  method SaveStageToBronzeBulk(mgr: Manager.ConnectionManager, table: StageToBronzeTable, mappings: seq<StageToBronzeMapping>,
                               now: Timestamp, env: Env, beginError: Option<string>, check: InsertCheck<StageBronzeRow>)
    returns (r: Result<nat>)
    modifies mgr, table
    ensures var got := Manager.GetEngineSpec(mgr.connections, old(mgr.cache), "lineage", env);
      var o := BulkSpec(old(table.rows), mappings, now, got.response, beginError, check);
      r == o.response && table.rows == o.rows && mgr.cache == got.cache
  {
    var engine := mgr.GetSqlalchemyEngine("lineage", env);
    if engine.Raised? {
      return Err(ExceptionText(engine.exception));
    }
    if beginError.Some? {
      return Err(beginError.value);
    }
    ghost var cache := mgr.cache;
    var pending: seq<StageBronzeRow> := [];
    assert mappings[0..] == mappings;
    AfterAfter([], [], BulkRows(mappings, now, check));
    for i := 0 to |mappings|
      invariant BulkRows(mappings, now, check) == After(pending, BulkRows(mappings[i..], now, check))
      invariant table.rows == old(table.rows)
      invariant mgr.cache == cache
    {
      assert mappings[i..][1..] == mappings[i + 1..];
      var row := BulkRow(mappings[i], now);
      var error := check(row);
      if error.Some? {
        return Err(error.value);
      }
      var rest := BulkRows(mappings[i + 1..], now, check);
      assert BulkRows(mappings[i..], now, check) == After([row], rest);
      AfterAfter(pending, [row], rest);
      pending := pending + [row];
    }
    assert mappings[|mappings|..] == [];
    table.rows := table.rows + pending;
    r := Ok(|mappings|);
  }

  /** A bulk save succeeds exactly when the engine is built, the transaction
      opens and every INSERT is accepted; it then appends exactly one row per
      mapping, in order, all sharing the call's time, and answers with the number
      of mappings. A failed save writes nothing. */
  lemma BulkAppendsOneRowPerMapping(rows: seq<StageBronzeRow>, mappings: seq<StageToBronzeMapping>, now: Timestamp,
                                    engine: Raises<Manager.Engine>, beginError: Option<string>, check: InsertCheck<StageBronzeRow>)
    ensures var o := BulkSpec(rows, mappings, now, engine, beginError, check);
      && (o.response.Ok? <==>
            engine.Returns? && beginError.None? &&
            forall i :: 0 <= i < |mappings| ==> check(StageBronzeRow(mappings[i], now)).None?)
      && (o.response.Ok? ==>
            && o.response.value == |mappings| && |o.rows| == |rows| + |mappings| && o.rows[..|rows|] == rows
            && forall i :: 0 <= i < |mappings| ==> o.rows[|rows| + i] == StageBronzeRow(mappings[i], now))
      && (o.response.Err? ==> o.rows == rows)
  {
    BulkRowsIff(mappings, now, check);
    var o := BulkSpec(rows, mappings, now, engine, beginError, check);
    if o.response.Ok? {
      assert o.rows[..|rows|] == rows;
    }
  }

  /** An empty batch writes nothing but still fails when the engine cannot be
      built or the transaction cannot be opened. */
  lemma EmptyBatchStillConnects(rows: seq<StageBronzeRow>, now: Timestamp, engine: Raises<Manager.Engine>,
                                beginError: Option<string>, check: InsertCheck<StageBronzeRow>)
    ensures var o := BulkSpec(rows, [], now, engine, beginError, check);
      && o.rows == rows
      && (o.response == Ok(0) <==> engine.Returns? && beginError.None?)
  {
  }

  lemma BronzePairsAppend(a: seq<StageBronzeRow>, b: seq<StageBronzeRow>)
    ensures BronzePairs(a + b) == BronzePairs(a) + BronzePairs(b)
  {
    forall p | p in BronzePairs(a + b)
      ensures p in BronzePairs(a) + BronzePairs(b)
    {
      var i :| 0 <= i < |a + b| && BronzeKey((a + b)[i]) == p;
      if i < |a| {
        assert (a + b)[i] == a[i];
      } else {
        assert (a + b)[i] == b[i - |a|];
      }
    }
    forall p | p in BronzePairs(a) + BronzePairs(b)
      ensures p in BronzePairs(a + b)
    {
      if p in BronzePairs(a) {
        var i :| 0 <= i < |a| && BronzeKey(a[i]) == p;
        assert (a + b)[i] == a[i];
      } else {
        var i :| 0 <= i < |b| && BronzeKey(b[i]) == p;
        assert (a + b)[|a| + i] == b[i];
      }
    }
  }

  /** The lower-cased bronze pairs of a batch. */
  function SavedPairs(mappings: seq<StageToBronzeMapping>): set<Pair> {
    set i | 0 <= i < |mappings| :: (Lower(mappings[i].bronzeSchema), Lower(mappings[i].bronzeTable))
  }

  /** After a successful batch, exactly the batch's bronze pairs stop being
      suggested: saving the suggestions as proposed clears them. */
  lemma SavedPairsNoLongerSuggested(stageRows: seq<SourceStageRow>, rows: seq<StageBronzeRow>,
                                    mappings: seq<StageToBronzeMapping>, now: Timestamp, engine: Raises<Manager.Engine>,
                                    beginError: Option<string>, check: InsertCheck<StageBronzeRow>)
    requires forall i :: 0 <= i < |stageRows| ==> !HasNullStagePart(stageRows[i])
    requires BulkSpec(rows, mappings, now, engine, beginError, check).response.Ok?
    ensures UncoveredPairs(stageRows, BulkSpec(rows, mappings, now, engine, beginError, check).rows) ==
            UncoveredPairs(stageRows, rows) - SavedPairs(mappings)
  {
    BulkRowsIff(mappings, now, check);
    var written := BulkRows(mappings, now, check).value;
    BronzePairsAppend(rows, written);
    assert BronzePairs(written) == SavedPairs(mappings) by {
      forall p | p in BronzePairs(written)
        ensures p in SavedPairs(mappings)
      {
        var i :| 0 <= i < |written| && BronzeKey(written[i]) == p;
        assert written[i] == StageBronzeRow(mappings[i], now);
      }
      forall p | p in SavedPairs(mappings)
        ensures p in BronzePairs(written)
      {
        var i :| 0 <= i < |mappings| && p == (Lower(mappings[i].bronzeSchema), Lower(mappings[i].bronzeTable));
        assert written[i] == StageBronzeRow(mappings[i], now);
        assert BronzeKey(written[i]) == p;
      }
    }
  }
}
