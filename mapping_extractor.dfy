/** Mapping extraction from procedure text (backend/utils/mapping_extractor.py):
    a handful of case-insensitive regular-expression searches and a pass over the
    procedure's statements that remembers the source table, the temporary table,
    the target table and the column mappings it has seen. */
module MappingExtractor {
  import opened Common

  // ---------------------------------------------------------------------------
  // Matching primitives. Every pattern used here matches deterministically: each
  // `\s+`, `\w+` or `[\[\]\w\.]+` is followed by a character outside its class or
  // ends the pattern, so the greedy run is the only run that can succeed.

  /** The character classes of the patterns: `\s`, `\w` and `[\[\]\w\.]`. */
  datatype CharClass = Space | Word | TableChar

  predicate InClass(c: char, cls: CharClass) {
    match cls
    case Space => IsSpace(c)
    case Word => IsWordChar(c)
    case TableChar => IsWordChar(c) || c == '[' || c == ']' || c == '.'
  }

  /** The end of the longest run of `cls` characters starting at `p`. */
  function SpanEnd(s: string, p: nat, cls: CharClass): (q: nat)
    requires p <= |s|
    ensures p <= q <= |s|
    decreases |s| - p
  {
    if p < |s| && InClass(s[p], cls) then SpanEnd(s, p + 1, cls) else p
  }

  /** Every character of the run is in the class, and the one after it is not. */
  lemma {:induction false} SpanEndSpec(s: string, p: nat, cls: CharClass)
    requires p <= |s|
    ensures forall k :: p <= k < SpanEnd(s, p, cls) ==> InClass(s[k], cls)
    ensures SpanEnd(s, p, cls) == |s| || !InClass(s[SpanEnd(s, p, cls)], cls)
    decreases |s| - p
  {
    if p < |s| && InClass(s[p], cls) {
      SpanEndSpec(s, p + 1, cls);
    }
  }

  /** The longest run is the only run that stops at a character outside the class. */
  lemma {:induction false} SpanEndUnique(s: string, p: nat, cls: CharClass, q: nat)
    requires p <= q <= |s|
    requires forall k :: p <= k < q ==> InClass(s[k], cls)
    requires q == |s| || !InClass(s[q], cls)
    ensures SpanEnd(s, p, cls) == q
    decreases q - p
  {
    if p < q {
      SpanEndUnique(s, p + 1, cls, q);
    }
  }

  /** `cls+` at `p`: the end of the run, if it is not empty. */
  function Run(s: string, p: nat, cls: CharClass): (r: Option<nat>)
    requires p <= |s|
    ensures r.Some? ==> p < r.value <= |s|
  {
    var q := SpanEnd(s, p, cls);
    if q > p then Some(q) else None
  }

  /** A keyword at `p`, compared without regard to case (`word` is lower-case). */
  function Keyword(s: string, p: nat, word: string): (r: Option<nat>)
    requires p <= |s|
    ensures r.Some? ==> r.value == p + |word| <= |s|
  {
    if p + |word| <= |s| && Lower(s[p..p + |word|]) == word then Some(p + |word|) else None
  }

  /** One given character at `p`. */
  function Char(s: string, p: nat, c: char): (r: Option<nat>)
    requires p <= |s|
    ensures r.Some? ==> r.value == p + 1 <= |s|
  {
    if p < |s| && s[p] == c then Some(p + 1) else None
  }

  // ---------------------------------------------------------------------------
  // The patterns

  datatype Pattern =
    | TempTablePattern    // INTO\s+(#\w+)
    | AsPairPattern       // (\w+)\s+AS\s+(\w+)
    | SelectStarPattern   // SELECT\s+\*\s+INTO\s+(#\w+)\s+FROM\s+([\[\]\w\.]+)
    | FromPattern         // FROM\s+([\[\]\w\.]+)

  function GroupCount(pat: Pattern): nat {
    match pat
    case AsPairPattern => 2
    case SelectStarPattern => 2
    case _ => 1
  }

  /** A successful match: the captured groups and where the match ends. */
  datatype Match = Match(groups: seq<string>, end: nat)

  /** `INTO\s+(#\w+)` at `p`. */
  function MatchTempTable(s: string, p: nat): (r: Option<Match>)
    requires p <= |s|
    ensures r.Some? ==> p < r.value.end <= |s| && |r.value.groups| == 1
  {
    var a :- Keyword(s, p, "into");
    var b :- Run(s, a, Space);
    var c :- Char(s, b, '#');
    var d :- Run(s, c, Word);
    Some(Match([s[b..d]], d))
  }

  /** `(\w+)\s+AS\s+(\w+)` at `p`. */
  function MatchAsPair(s: string, p: nat): (r: Option<Match>)
    requires p <= |s|
    ensures r.Some? ==> p < r.value.end <= |s| && |r.value.groups| == 2
  {
    var a :- Run(s, p, Word);
    var b :- Run(s, a, Space);
    var c :- Keyword(s, b, "as");
    var d :- Run(s, c, Space);
    var e :- Run(s, d, Word);
    Some(Match([s[p..a], s[d..e]], e))
  }

  /** `SELECT\s+\*\s+INTO\s+(#\w+)\s+FROM\s+([\[\]\w\.]+)` at `p`. */
  function MatchSelectStar(s: string, p: nat): (r: Option<Match>)
    requires p <= |s|
    ensures r.Some? ==> p < r.value.end <= |s| && |r.value.groups| == 2
  {
    var a :- Keyword(s, p, "select");
    var b :- Run(s, a, Space);
    var c :- Char(s, b, '*');
    var d :- Run(s, c, Space);
    var e :- Keyword(s, d, "into");
    var f :- Run(s, e, Space);
    var g :- Char(s, f, '#');
    var h :- Run(s, g, Word);
    var i :- Run(s, h, Space);
    var j :- Keyword(s, i, "from");
    var k :- Run(s, j, Space);
    var l :- Run(s, k, TableChar);
    Some(Match([s[f..h], s[k..l]], l))
  }

  /** `FROM\s+([\[\]\w\.]+)` at `p`. */
  function MatchFrom(s: string, p: nat): (r: Option<Match>)
    requires p <= |s|
    ensures r.Some? ==> p < r.value.end <= |s| && |r.value.groups| == 1
  {
    var a :- Keyword(s, p, "from");
    var b :- Run(s, a, Space);
    var c :- Run(s, b, TableChar);
    Some(Match([s[b..c]], c))
  }

  /** A match of `pat` that starts at `p`. */
  function MatchAt(pat: Pattern, s: string, p: nat): (r: Option<Match>)
    requires p <= |s|
    ensures r.Some? ==> p < r.value.end <= |s| && |r.value.groups| == GroupCount(pat)
  {
    match pat
    case TempTablePattern => MatchTempTable(s, p)
    case AsPairPattern => MatchAsPair(s, p)
    case SelectStarPattern => MatchSelectStar(s, p)
    case FromPattern => MatchFrom(s, p)
  }

  /** Where `re.search` from position `p` finds its match: the first position
      at which the pattern matches. */
  function FirstMatchAt(pat: Pattern, s: string, p: nat): (r: Option<nat>)
    requires p <= |s|
    ensures r.Some? ==> p <= r.value <= |s| && MatchAt(pat, s, r.value).Some?
    decreases |s| - p
  {
    if MatchAt(pat, s, p).Some? then Some(p)
    else if p == |s| then None
    else FirstMatchAt(pat, s, p + 1)
  }

  /** `re.search` from position `p`: the match at the first matching position. */
  function Search(pat: Pattern, s: string, p: nat): Option<Match>
    requires p <= |s|
  {
    var q :- FirstMatchAt(pat, s, p);
    MatchAt(pat, s, q)
  }

  /** No position before the one found matches: the search finds the leftmost match. */
  lemma {:induction false} FirstMatchIsLeftmost(pat: Pattern, s: string, p: nat, q: nat)
    requires p <= q <= |s| && FirstMatchAt(pat, s, p).Some?
    requires q < FirstMatchAt(pat, s, p).value
    ensures MatchAt(pat, s, q).None?
    decreases q - p
  {
    if p < q {
      FirstMatchIsLeftmost(pat, s, p + 1, q);
    }
  }

  /** The search finds nothing only when no position from `p` on matches. */
  lemma {:induction false} NoFirstMatchNoMatch(pat: Pattern, s: string, p: nat, q: nat)
    requires p <= q <= |s| && FirstMatchAt(pat, s, p).None?
    ensures MatchAt(pat, s, q).None?
    decreases q - p
  {
    if p < q {
      NoFirstMatchNoMatch(pat, s, p + 1, q);
    }
  }

  /** `re.findall` from position `p`: the groups of successive non-overlapping
      matches, each search resuming where the previous match ended. */
  function FindAll(pat: Pattern, s: string, p: nat): (r: seq<seq<string>>)
    requires p <= |s|
    ensures forall i :: 0 <= i < |r| ==> |r[i]| == GroupCount(pat)
    decreases |s| - p
  {
    if p == |s| then []
    else
      match MatchAt(pat, s, p)
      case Some(m) => [m.groups] + FindAll(pat, s, m.end)
      case None => FindAll(pat, s, p + 1)
  }

  // ---------------------------------------------------------------------------
  // The extractors

  /** `extract_temp_table_name`. */
  function ExtractTempTableName(sql: string): (r: Option<string>)
    ensures r.Some? ==> |r.value| >= 2 && r.value[0] == '#' && forall k :: 1 <= k < |r.value| ==> IsWordChar(r.value[k])
  {
    var m :- Search(TempTablePattern, sql, 0);
    TempTableGroupShape(sql);
    Some(m.groups[0])
  }

  /** The group the temporary-table search captures is `#` and a run of word characters. */
  lemma TempTableGroupShape(sql: string)
    requires Search(TempTablePattern, sql, 0).Some?
    ensures var g := Search(TempTablePattern, sql, 0).value.groups[0];
      |g| >= 2 && g[0] == '#' && forall k :: 1 <= k < |g| ==> IsWordChar(g[k])
  {
    var q := FirstMatchAt(TempTablePattern, sql, 0).value;
    var a := Keyword(sql, q, "into").value;
    var b := Run(sql, a, Space).value;
    var c := Char(sql, b, '#').value;
    var d := Run(sql, c, Word).value;
    SpanEndSpec(sql, c, Word);
    var g := sql[b..d];
    assert Search(TempTablePattern, sql, 0).value.groups[0] == g;
    assert forall k :: 1 <= k < |g| ==> g[k] == sql[b + k];
  }

  /** `extract_select_mappings`. */
  function ExtractSelectMappings(sql: string): (r: seq<(string, string)>)
    ensures |r| == |FindAll(AsPairPattern, sql, 0)|
  {
    var found := FindAll(AsPairPattern, sql, 0);
    seq(|found|, i requires 0 <= i < |found| => (found[i][0], found[i][1]))
  }

  /** `extract_select_star_from`: (source, temporary table), the reverse of the
      order in which the pattern captures them. */
  function ExtractSelectStarFrom(sql: string): Option<(string, string)> {
    var m :- Search(SelectStarPattern, sql, 0);
    Some((m.groups[1], m.groups[0]))
  }

  /** The `FROM\s+([\[\]\w\.]+)` search of the SELECT ... INTO branch. */
  function ExtractFrom(sql: string): Option<string> {
    var m :- Search(FromPattern, sql, 0);
    Some(m.groups[0])
  }

  // ---------------------------------------------------------------------------
  // The statement pass

  /** The two target patterns backtrack through optional brackets and dots; they
      are given as functions, as is `sqlparse.split`. */
  type InsertTarget = string -> Option<string>
  type MergeTarget = string -> Option<(string, string)>
  type SplitStatements = string -> seq<string>

  /** The dictionary `extract_procedure_mappings` returns. */
  datatype Mappings = Mappings(sourceTable: Option<string>, tempTable: Option<string>, targetTable: Option<string>,
                               columnMappings: seq<(string, string)>)

  const Initial := Mappings(None, None, None, [])

  /** Python truthiness of an optional string. */
  predicate Present(v: Option<string>) {
    v.Some? && v.value != ""
  }

  predicate IsSelectInto(lower: string) {
    Contains(lower, "select") && Contains(lower, "into") && Contains(lower, "from")
  }

  /** One iteration of the statement loop. */
  function Step(st: Mappings, stmt: string, insertTarget: InsertTarget, mergeTarget: MergeTarget): Mappings {
    var lower := Lower(stmt);
    if IsSelectInto(lower) then
      if '*' in lower then
        match ExtractSelectStarFrom(stmt)
        case Some((source, temp)) => st.(sourceTable := Some(source), tempTable := Some(temp), columnMappings := [("*", "*")])
        case None => st
      else
        var from := ExtractFrom(stmt);
        st.(tempTable := ExtractTempTableName(stmt), columnMappings := ExtractSelectMappings(stmt),
            sourceTable := if from.Some? then from else st.sourceTable)
    else if Contains(lower, "insert into") && (Present(st.tempTable) || '#' !in lower) then
      st.(targetTable := insertTarget(stmt))
    else if Contains(lower, "merge into") && Contains(lower, "using") then
      match mergeTarget(stmt)
      case Some((target, mergeTemp)) =>
        st.(targetTable := Some(target), tempTable := if Present(st.tempTable) then st.tempTable else Some(mergeTemp))
      case None => st
    else st
  }

  /** The state after a sequence of statements. */
  function Fold(stmts: seq<string>, insertTarget: InsertTarget, mergeTarget: MergeTarget): Mappings {
    if |stmts| == 0 then Initial
    else Step(Fold(stmts[..|stmts| - 1], insertTarget, mergeTarget), stmts[|stmts| - 1], insertTarget, mergeTarget)
  }

  /** `extract_procedure_mappings`. */
  method ExtractProcedureMappings(sql: string, split: SplitStatements, insertTarget: InsertTarget, mergeTarget: MergeTarget)
    returns (r: Mappings)
    ensures r == Fold(split(sql), insertTarget, mergeTarget)
  {
    var parsed := split(sql);
    var sourceTable: Option<string> := None;
    var tempTable: Option<string> := None;
    var targetTable: Option<string> := None;
    var mappings: seq<(string, string)> := [];
    var i := 0;
    while i < |parsed|
      invariant 0 <= i <= |parsed|
      invariant Mappings(sourceTable, tempTable, targetTable, mappings) == Fold(parsed[..i], insertTarget, mergeTarget)
    {
      var stmt := parsed[i];
      var stmtLower := Lower(stmt);
      if Contains(stmtLower, "select") && Contains(stmtLower, "into") && Contains(stmtLower, "from") {
        if '*' in stmtLower {
          var star := ExtractSelectStarFrom(stmt);
          if star.Some? {
            sourceTable, tempTable := Some(star.value.0), Some(star.value.1);
            mappings := [("*", "*")];
          }
        } else {
          tempTable := ExtractTempTableName(stmt);
          mappings := ExtractSelectMappings(stmt);
          var from := ExtractFrom(stmt);
          if from.Some? {
            sourceTable := from;
          }
        }
      } else if Contains(stmtLower, "insert into") && (Present(tempTable) || '#' !in stmtLower) {
        targetTable := insertTarget(stmt);
      } else if Contains(stmtLower, "merge into") && Contains(stmtLower, "using") {
        var result := mergeTarget(stmt);
        if result.Some? {
          targetTable := Some(result.value.0);
          if !Present(tempTable) {
            tempTable := Some(result.value.1);
          }
        }
      }
      assert parsed[..i + 1][..i] == parsed[..i];
      i := i + 1;
    }
    assert parsed[..i] == parsed;
    r := Mappings(sourceTable, tempTable, targetTable, mappings);
  }

  // ---------------------------------------------------------------------------
  // Properties of the statement pass

  /** A statement that mentions none of the triggers changes nothing. */
  predicate Inert(stmt: string) {
    var lower := Lower(stmt);
    !IsSelectInto(lower) && !Contains(lower, "insert into") && !Contains(lower, "merge into")
  }

  /** With no statement that triggers a branch, all four entries keep their
      initial values: three nulls and an empty list. */
  lemma {:induction false} InertStatementsGiveInitial(stmts: seq<string>, insertTarget: InsertTarget, mergeTarget: MergeTarget)
    requires forall i :: 0 <= i < |stmts| ==> Inert(stmts[i])
    ensures Fold(stmts, insertTarget, mergeTarget) == Mappings(None, None, None, [])
  {
    if |stmts| > 0 {
      InertStatementsGiveInitial(stmts[..|stmts| - 1], insertTarget, mergeTarget);
    }
  }

  /** A statement mentioning "select", "into" and "from" in any case takes the
      SELECT ... INTO branch, even an INSERT INTO ... SELECT ... FROM: the target
      table is never touched by it. */
  lemma SelectIntoTakesPrecedence(st: Mappings, stmt: string, insertTarget: InsertTarget, mergeTarget: MergeTarget)
    requires IsSelectInto(Lower(stmt))
    ensures Step(st, stmt, insertTarget, mergeTarget).targetTable == st.targetTable
  {
  }

  /** A SELECT ... INTO statement without `*` decides the temporary table and the
      column mappings alone, whatever earlier statements set, and decides the
      source table too whenever its FROM pattern matches. */
  lemma SelectIntoOverwrites(st1: Mappings, st2: Mappings, stmt: string, insertTarget: InsertTarget, mergeTarget: MergeTarget)
    requires IsSelectInto(Lower(stmt)) && '*' !in Lower(stmt)
    ensures var a := Step(st1, stmt, insertTarget, mergeTarget);
      var b := Step(st2, stmt, insertTarget, mergeTarget);
      && a.tempTable == b.tempTable == ExtractTempTableName(stmt)
      && a.columnMappings == b.columnMappings == ExtractSelectMappings(stmt)
      && (ExtractFrom(stmt).Some? ==> a.sourceTable == b.sourceTable == ExtractFrom(stmt))
      && (ExtractFrom(stmt).None? ==> a.sourceTable == st1.sourceTable)
  {
  }

  /** An INSERT INTO statement (outside the SELECT ... INTO branch) sets the
      target table exactly when a temporary table has been seen or the statement
      has no '#'; otherwise, unless it is also a MERGE, it changes nothing. */
  lemma InsertGuard(st: Mappings, stmt: string, insertTarget: InsertTarget, mergeTarget: MergeTarget)
    requires !IsSelectInto(Lower(stmt)) && Contains(Lower(stmt), "insert into")
    ensures Present(st.tempTable) || '#' !in stmt ==>
      Step(st, stmt, insertTarget, mergeTarget) == st.(targetTable := insertTarget(stmt))
    ensures !(Present(st.tempTable) || '#' !in stmt) && !Contains(Lower(stmt), "merge into") ==>
      Step(st, stmt, insertTarget, mergeTarget) == st
  {
    assert '#' in stmt <==> '#' in Lower(stmt) by {
      if '#' in stmt {
        var k :| 0 <= k < |stmt| && stmt[k] == '#';
        assert Lower(stmt)[k] == '#';
      }
      if '#' in Lower(stmt) {
        var k :| 0 <= k < |stmt| && Lower(stmt)[k] == '#';
        assert stmt[k] == '#';
      }
    }
  }

  /** A MERGE INTO ... USING #t statement sets the target table, and the temporary
      table only when none has been seen. */
  lemma MergeKeepsFirstTemp(st: Mappings, stmt: string, insertTarget: InsertTarget, mergeTarget: MergeTarget, target: string, temp: string)
    requires !IsSelectInto(Lower(stmt)) && !Contains(Lower(stmt), "insert into")
    requires Contains(Lower(stmt), "merge into") && Contains(Lower(stmt), "using")
    requires mergeTarget(stmt) == Some((target, temp))
    ensures Step(st, stmt, insertTarget, mergeTarget).targetTable == Some(target)
    ensures Step(st, stmt, insertTarget, mergeTarget).tempTable == if Present(st.tempTable) then st.tempTable else Some(temp)
  {
  }

  // ---------------------------------------------------------------------------
  // Properties of the extractors

  predicate AllIn(s: string, cls: CharClass) {
    forall k :: 0 <= k < |s| ==> InClass(s[k], cls)
  }

  /** The leftmost match is found. */
  lemma SearchFindsFirst(pat: Pattern, s: string, m: Match)
    requires MatchAt(pat, s, 0) == Some(m)
    ensures Search(pat, s, 0) == Some(m)
  {
  }

  /** A run that ends where the class ends is the run `Run` finds. */
  lemma RunHit(s: string, p: nat, q: nat, cls: CharClass)
    requires p < q <= |s| && AllIn(s[p..q], cls)
    requires q == |s| || !InClass(s[q], cls)
    ensures Run(s, p, cls) == Some(q)
  {
    assert forall k :: p <= k < q ==> s[k] == s[p..q][k - p];
    SpanEndUnique(s, p, cls, q);
  }

  lemma RunMiss(s: string, p: nat, cls: CharClass)
    requires p <= |s|
    requires p == |s| || !InClass(s[p], cls)
    ensures Run(s, p, cls).None?
  {
    SpanEndUnique(s, p, cls, p);
  }

  /** `INTO #name` gives the name, '#' included. */
  lemma TempTableOfInto(t: string, rest: string)
    requires |t| > 0 && AllIn(t, Word)
    requires rest == [] || !IsWordChar(rest[0])
    ensures ExtractTempTableName("INTO #" + t + rest) == Some("#" + t)
  {
    var s := "INTO #" + t + rest;
    assert s[..4] == "INTO";
    assert Lower("INTO") == "into";
    SpanEndUnique(s, 4, Space, 5);
    SpanEndUnique(s, 6, Word, 6 + |t|);
    assert s[5..6 + |t|] == "#" + t;
    assert MatchAt(TempTablePattern, s, 0) == Some(Match(["#" + t], 6 + |t|));
  }

  /** A keyword written in any case is found. */
  lemma KeywordHit(s: string, p: nat, written: string, word: string)
    requires p + |written| <= |s| && s[p..p + |written|] == written && Lower(written) == word
    ensures Keyword(s, p, word) == Some(p + |written|)
  {
  }

  /** The match of the SELECT * INTO pattern, given where its pieces lie. */
  lemma SelectStarMatches(s: string, n: nat)
    requires 15 < n && n + 6 < |s|
    requires s[0..6] == "SELECT" && s[6] == ' ' && s[7] == '*' && s[8] == ' '
    requires s[9..13] == "INTO" && s[13] == ' ' && s[14] == '#' && AllIn(s[15..n], Word)
    requires s[n] == ' ' && s[n + 1..n + 5] == "FROM" && s[n + 5] == ' ' && AllIn(s[n + 6..|s|], TableChar)
    ensures MatchSelectStar(s, 0) == Some(Match([s[14..n], s[n + 6..|s|]], |s|))
  {
    assert Lower("SELECT") == "select" && Lower("INTO") == "into" && Lower("FROM") == "from";
    assert s[n + 6] == s[n + 6..|s|][0];
    KeywordHit(s, 0, "SELECT", "select");
    RunOfOne(s, 6, Space);
    RunOfOne(s, 8, Space);
    KeywordHit(s, 9, "INTO", "into");
    RunOfOne(s, 13, Space);
    RunHit(s, 15, n, Word);
    RunOfOne(s, n, Space);
    KeywordHit(s, n + 1, "FROM", "from");
    RunOfOne(s, n + 5, Space);
    RunHit(s, n + 6, |s|, TableChar);
  }

  /** Where the pieces of `SELECT * INTO #t FROM src` lie. */
  lemma SelectStarLayout(t: string, src: string, s: string, n: nat)
    requires s == "SELECT * INTO #" + t + " FROM " + src && n == 15 + |t|
    ensures n + 6 <= |s|
    ensures s[0..6] == "SELECT" && s[6] == ' ' && s[7] == '*' && s[8] == ' '
    ensures s[9..13] == "INTO" && s[13] == ' ' && s[14] == '#' && s[15..n] == t
    ensures s[n] == ' ' && s[n + 1..n + 5] == "FROM" && s[n + 5] == ' ' && s[n + 6..|s|] == src
  {
    var head, from := "SELECT * INTO #", " FROM ";
    assert s[..15] == head && s[15..n] == t && s[n..n + 6] == from && s[n + 6..|s|] == src;
    assert s[0..6] == s[..15][0..6] == "SELECT";
    assert s[9..13] == s[..15][9..13] == "INTO";
    assert s[n + 1..n + 5] == s[n..n + 6][1..5] == "FROM";
  }

  /** `SELECT * INTO #t FROM src` gives (src, #t): the source first. */
  lemma SelectStarSwaps(t: string, src: string)
    requires |t| > 0 && AllIn(t, Word)
    requires |src| > 0 && AllIn(src, TableChar)
    ensures ExtractSelectStarFrom("SELECT * INTO #" + t + " FROM " + src) == Some((src, "#" + t))
  {
    var s := "SELECT * INTO #" + t + " FROM " + src;
    var n := 15 + |t|;
    SelectStarLayout(t, src, s, n);
    SelectStarExtractsAt(s, n, t, src);
  }

  /** The extraction from a text laid out as `SELECT * INTO #t FROM src`. */
  lemma SelectStarExtractsAt(s: string, n: nat, t: string, src: string)
    requires 15 < n && n + 6 < |s|
    requires s[0..6] == "SELECT" && s[6] == ' ' && s[7] == '*' && s[8] == ' '
    requires s[9..13] == "INTO" && s[13] == ' ' && s[14] == '#' && s[15..n] == t && AllIn(t, Word)
    requires s[n] == ' ' && s[n + 1..n + 5] == "FROM" && s[n + 5] == ' ' && s[n + 6..|s|] == src && AllIn(src, TableChar)
    ensures ExtractSelectStarFrom(s) == Some((src, "#" + t))
  {
    SelectStarMatches(s, n);
    assert s[14..n] == [s[14]] + s[15..n];
    assert MatchAt(SelectStarPattern, s, 0) == Some(Match(["#" + t, src], |s|));
  }

  /** A select list written as `a AS b, ` items. */
  function Render(pairs: seq<(string, string)>): string {
    if |pairs| == 0 then "" else pairs[0].0 + " AS " + pairs[0].1 + ", " + Render(pairs[1..])
  }

  predicate WordPairs(pairs: seq<(string, string)>) {
    forall i :: 0 <= i < |pairs| ==> |pairs[i].0| > 0 && AllIn(pairs[i].0, Word) && |pairs[i].1| > 0 && AllIn(pairs[i].1, Word)
  }

  /** The pieces of an item `a AS b, ` written at `p`. */
  lemma ItemSlices(s: string, p: nat, a: string, b: string, rest: string)
    requires p <= |s| && s[p..] == a + " AS " + b + ", " + rest
    ensures var n := p + |a|;
      var e := n + 4 + |b|;
      && e + 2 <= |s| && s[p..n] == a && s[n + 4..e] == b && s[e + 2..] == rest
      && s[n] == ' ' && s[n + 1] == 'A' && s[n + 2] == 'S' && s[n + 3] == ' ' && s[e] == ',' && s[e + 1] == ' '
  {
    var t := s[p..];
    var n := |a|;
    var e := n + 4 + |b|;
    assert t[..n] == a && t[n + 4..e] == b && t[e + 2..] == rest;
    assert t[n] == ' ' && t[n + 1] == 'A' && t[n + 2] == 'S' && t[n + 3] == ' ' && t[e] == ',' && t[e + 1] == ' ';
    assert s[p..p + n] == t[..n];
    assert s[p + n + 4..p + e] == t[n + 4..e];
  }

  /** A run of exactly one character. */
  lemma RunOfOne(s: string, p: nat, cls: CharClass)
    requires p < |s| && InClass(s[p], cls)
    requires p + 1 == |s| || !InClass(s[p + 1], cls)
    ensures Run(s, p, cls) == Some(p + 1)
  {
    SpanEndUnique(s, p, cls, p + 1);
  }

  /** The first item of a rendered select list is the match at its start. */
  lemma ItemMatches(s: string, p: nat, a: string, b: string)
    requires |a| > 0 && AllIn(a, Word) && |b| > 0 && AllIn(b, Word)
    requires p + |a| + 6 + |b| <= |s| && s[p..p + |a|] == a && s[p + |a| + 4..p + |a| + 4 + |b|] == b
    requires s[p + |a|] == ' ' && s[p + |a| + 1] == 'A' && s[p + |a| + 2] == 'S' && s[p + |a| + 3] == ' '
    requires s[p + |a| + 4 + |b|] == ','
    ensures MatchAsPair(s, p) == Some(Match([a, b], p + |a| + 4 + |b|))
  {
    var n := p + |a|;
    var e := n + 4 + |b|;
    RunHit(s, p, n, Word);
    RunOfOne(s, n, Space);
    assert s[n + 1..n + 3] == "AS";
    KeywordHit(s, n + 1, "AS", "as");
    RunOfOne(s, n + 3, Space);
    RunHit(s, n + 4, e, Word);
    assert MatchAsPair(s, p) == Some(Match([s[p..n], s[n + 4..e]], e));
  }

  /** The first item of a rendered select list is the match at its start, and
      the comma and space after it start none. */
  lemma RenderHead(s: string, p: nat, a: string, b: string, rest: string)
    requires |a| > 0 && AllIn(a, Word) && |b| > 0 && AllIn(b, Word)
    requires p <= |s| && s[p..] == a + " AS " + b + ", " + rest
    ensures var e := p + |a| + 4 + |b|;
      && e + 2 <= |s| && s[e + 2..] == rest
      && MatchAsPair(s, p) == Some(Match([a, b], e))
      && MatchAsPair(s, e).None? && MatchAsPair(s, e + 1).None?
  {
    var e := p + |a| + 4 + |b|;
    ItemSlices(s, p, a, b, rest);
    ItemMatches(s, p, a, b);
    RunMiss(s, e, Word);
    RunMiss(s, e + 1, Word);
  }

  lemma FindAllHit(s: string, p: nat, m: Match)
    requires p < |s| && MatchAsPair(s, p) == Some(m)
    ensures FindAll(AsPairPattern, s, p) == [m.groups] + FindAll(AsPairPattern, s, m.end)
  {
  }

  lemma FindAllMiss(s: string, p: nat)
    requires p < |s| && MatchAsPair(s, p).None?
    ensures FindAll(AsPairPattern, s, p) == FindAll(AsPairPattern, s, p + 1)
  {
  }

  lemma WordPairsTail(pairs: seq<(string, string)>)
    requires |pairs| > 0 && WordPairs(pairs)
    ensures WordPairs(pairs[1..])
  {
    forall i | 0 <= i < |pairs| - 1 ensures pairs[1..][i] == pairs[i + 1] { }
  }

  /** One item of a rendered select list: its pair is found, and the search goes
      on where the next item starts. */
  lemma FindAllItem(s: string, p: nat, pair: (string, string), next: nat)
    requires |pair.0| > 0 && AllIn(pair.0, Word) && |pair.1| > 0 && AllIn(pair.1, Word)
    requires next == p + |pair.0| + 6 + |pair.1| <= |s| && s[p..] == pair.0 + " AS " + pair.1 + ", " + s[next..]
    ensures FindAll(AsPairPattern, s, p) == [Group(pair)] + FindAll(AsPairPattern, s, next)
  {
    var a, b := pair.0, pair.1;
    RenderHead(s, p, a, b, s[next..]);
    assert Group(pair) == [a, b];
    FindAllSkipSeparator(s, p, [a, b], p + |a| + 4 + |b|, next);
  }

  /** A match followed by two characters that start none. */
  lemma FindAllSkipSeparator(s: string, p: nat, groups: seq<string>, e: nat, next: nat)
    requires p < e && next == e + 2 <= |s|
    requires MatchAsPair(s, p) == Some(Match(groups, e))
    requires MatchAsPair(s, e).None? && MatchAsPair(s, e + 1).None?
    ensures FindAll(AsPairPattern, s, p) == [groups] + FindAll(AsPairPattern, s, next)
  {
    FindAllMissTwice(s, e, next);
    FindAllHit(s, p, Match(groups, e));
  }

  lemma FindAllMissTwice(s: string, e: nat, next: nat)
    requires next == e + 2 <= |s|
    requires MatchAsPair(s, e).None? && MatchAsPair(s, e + 1).None?
    ensures FindAll(AsPairPattern, s, e) == FindAll(AsPairPattern, s, next)
  {
    FindAllMiss(s, e);
    FindAllMiss(s, e + 1);
  }

  /** `s` holds the rendered list `pairs` from position `p` to its end. */
  predicate RendersFrom(s: string, p: nat, pairs: seq<(string, string)>)
    requires p <= |s|
    decreases |pairs|
  {
    if |pairs| == 0 then p == |s|
    else
      && p + |pairs[0].0| + 6 + |pairs[0].1| <= |s|
      && s[p..] == pairs[0].0 + " AS " + pairs[0].1 + ", " + s[p + |pairs[0].0| + 6 + |pairs[0].1|..]
      && RendersFrom(s, p + |pairs[0].0| + 6 + |pairs[0].1|, pairs[1..])
  }

  lemma {:induction false} RendersFromRender(x: string, pairs: seq<(string, string)>)
    ensures RendersFrom(x + Render(pairs), |x|, pairs)
    decreases |pairs|
  {
    if |pairs| > 0 {
      var s := x + Render(pairs);
      var head := pairs[0].0 + " AS " + pairs[0].1 + ", ";
      var x' := x + head;
      var q := |x| + |pairs[0].0| + 6 + |pairs[0].1|;
      assert |x'| == q;
      assert s == x' + Render(pairs[1..]);
      RendersFromRender(x', pairs[1..]);
      assert s[q..] == Render(pairs[1..]);
      assert s[|x|..] == head + s[q..];
    } else {
      assert x + Render(pairs) == x;
    }
  }

  /** The groups `findall` reports for one pair. */
  function Group(pair: (string, string)): seq<string> {
    [pair.0, pair.1]
  }

  /** The groups `findall` reports for a list of pairs. */
  function PairGroups(pairs: seq<(string, string)>): (r: seq<seq<string>>)
    ensures |r| == |pairs|
  {
    if |pairs| == 0 then [] else [Group(pairs[0])] + PairGroups(pairs[1..])
  }

  lemma PairGroupsUnfold(pairs: seq<(string, string)>)
    requires |pairs| > 0
    ensures PairGroups(pairs) == [Group(pairs[0])] + PairGroups(pairs[1..])
  {
  }

  lemma {:induction false} PairGroupsAt(pairs: seq<(string, string)>)
    ensures forall i :: 0 <= i < |pairs| ==> PairGroups(pairs)[i] == Group(pairs[i])
    decreases |pairs|
  {
    if |pairs| > 0 {
      PairGroupsAt(pairs[1..]);
      forall i | 0 <= i < |pairs| ensures PairGroups(pairs)[i] == Group(pairs[i]) {
        if i > 0 {
          assert PairGroups(pairs)[i] == PairGroups(pairs[1..])[i - 1];
          assert pairs[1..][i - 1] == pairs[i];
        }
      }
    }
  }

  /** Equal tails under the same head give equal lists. */
  lemma ConsChain<T>(f: seq<T>, g: seq<T>, f': seq<T>, g': seq<T>, head: T)
    requires f == [head] + g
    requires f' == [head] + g'
    requires g == g'
    ensures f == f'
  {
  }

  lemma FindAllAtEnd(s: string)
    ensures FindAll(AsPairPattern, s, |s|) == []
  {
  }

  /** Every `word AS word` pair of a select list is found, in textual order,
      wherever the list starts. */
  lemma {:induction false} SelectMappingsOfRender(s: string, p: nat, pairs: seq<(string, string)>)
    requires WordPairs(pairs)
    requires p <= |s| && RendersFrom(s, p, pairs)
    ensures FindAll(AsPairPattern, s, p) == PairGroups(pairs)
    decreases |pairs|
  {
    if |pairs| > 0 {
      var next := p + |pairs[0].0| + 6 + |pairs[0].1|;
      WordPairsTail(pairs);
      SelectMappingsOfRender(s, next, pairs[1..]);
      FindAllItem(s, p, pairs[0], next);
      PairGroupsUnfold(pairs);
      ConsChain(FindAll(AsPairPattern, s, p), FindAll(AsPairPattern, s, next), PairGroups(pairs), PairGroups(pairs[1..]),
                Group(pairs[0]));
    } else {
      FindAllAtEnd(s);
    }
  }

  /** So `extract_select_mappings` returns the pairs themselves. */
  lemma ExtractSelectMappingsOfRender(pairs: seq<(string, string)>)
    requires WordPairs(pairs)
    ensures ExtractSelectMappings(Render(pairs)) == pairs
  {
    RendersFromRender([], pairs);
    assert [] + Render(pairs) == Render(pairs);
    SelectMappingsOfRender(Render(pairs), 0, pairs);
    PairGroupsAt(pairs);
  }
}
