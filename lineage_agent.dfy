/** The lineage agent (backend/agents/lineage_agent.py): ask the model for a JSON
    lineage summary of one procedure, strip a ```json fence from its answer, parse
    it (falling back to an empty summary), and attach the raw answer, the prompt,
    the digest of the procedure text and the two names it was asked about. */
module LineageAgent {
  import opened Common
  import opened Hashing

  /** `ColumnMapping`: `source_table` is optional. */
  datatype ColumnMapping = ColumnMapping(source: string, target: string, sourceTable: Option<string>)

  /** `LineageResult`. */
  datatype LineageResult = LineageResult(sourceTables: seq<string>, targetTable: string, columnMappings: seq<ColumnMapping>)

  /** The dictionary `summarize_lineage` returns: the parsed summary's three keys
      followed by `_raw`, `_prompt`, `hash`, `procedure_name` and `database`. */
  datatype LineageOutput = LineageOutput(
    lineage: LineageResult, raw: string, prompt: string, hash: string, procedureName: string, database: string)

  /** `call_model(prompt).content`, or the error raised by the client. */
  type CallModel = string -> Result<string>

  /** `LineageResult.parse_raw`: `None` when parsing or validation raises. */
  type ParseLineage = string -> Option<LineageResult>

  /** The summary used when the answer cannot be parsed. */
  const EmptyLineage := LineageResult([], "", [])

  const Fence: string := "```"
  const JsonFence: string := "```json"

  // ---------------------------------------------------------------------------
  // The prompt

  /** The prompt text up to the procedure name. */
  const PromptHead: string :=
    "You are a SQL data engineer assistant.\n\n" +
    "Analyze the following SQL Server stored procedure named `"

  /** From the procedure name to the procedure text; the apostrophe of "it's" is
      stored in the source file as the three characters of its mis-decoded UTF-8. */
  const PromptMiddle: string :=
    "`.\n\n" +
    "Return a JSON summary of the source-to-target lineage, formatted like this:\n\n" +
    "{\n" +
    "  \"source_tables\": [\"source_db.schema.table\"],\n" +
    "  \"target_table\": \"target_schema.table\",\n" +
    "  \"column_mappings\": [\n" +
    "    { \"source\": \"source_col\", \"target\": \"target_col\", \"source_table\": \"table_name\" }\n" +
    "  ]\n" +
    "}\n\n" +
    "Only include tables that directly participate in data movement. Do not infer beyond joins if it\U{00E2}\U{20AC}\U{2122}s unclear.\n\n" +
    "SQL Procedure:\n" +
    "```\n"

  const PromptTail: string := "\n```"

  /** The prompt sent to the model: the template's text between its opening and
      closing line break (`StripTemplateGivesPrompt`). */
  function Prompt(procName: string, content: string): string {
    PromptHead + procName + PromptMiddle + content + PromptTail
  }

  /** The f-string before `.strip()`: it opens and closes with a line break. */
  function PromptTemplate(procName: string, content: string): string {
    "\n" + Prompt(procName, content) + "\n"
  }

  /** `.strip()` removes only the template's two outer line breaks, whatever the
      procedure name and text: the prompt is the template's inner text verbatim. */
  lemma StripTemplateGivesPrompt(procName: string, content: string)
    ensures Trim(PromptTemplate(procName, content)) == Prompt(procName, content)
  {
    var inner := Prompt(procName, content);
    assert PromptHead[0] == 'Y' && PromptTail[|PromptTail| - 1] == '`';
    assert inner[0] == PromptHead[0];
    assert inner[|inner| - 1] == PromptTail[|PromptTail| - 1];
    StripOneLineBreakEachSide(inner);
  }

  lemma StripOneLineBreakEachSide(inner: string)
    requires |inner| > 0 && !IsSpace(inner[0]) && !IsSpace(inner[|inner| - 1])
    ensures Trim("\n" + inner + "\n") == inner
  {
    var s := "\n" + inner + "\n";
    assert s[1..] == inner + "\n";
    assert TrimStart(s) == TrimStart(inner + "\n");
    assert TrimStart(inner + "\n") == inner + "\n";
    var t := inner + "\n";
    assert t[..|t| - 1] == inner;
    assert TrimEnd(t) == TrimEnd(inner);
  }

  // ---------------------------------------------------------------------------
  // Reading the answer

  /** `str.removeprefix`. */
  function RemovePrefix(s: string, prefix: string): (r: string)
    ensures StartsWith(s, prefix) ==> s == prefix + r
    ensures !StartsWith(s, prefix) ==> r == s
  {
    if StartsWith(s, prefix) then s[|prefix|..] else s
  }

  /** `str.removesuffix`. */
  function RemoveSuffix(s: string, suffix: string): (r: string)
    ensures EndsWith(s, suffix) ==> s == r + suffix
    ensures !EndsWith(s, suffix) ==> r == s
  {
    if EndsWith(s, suffix) then s[..|s| - |suffix|] else s
  }

  /** The text handed to the parser. */
  function StripFence(response: string): string {
    var extracted := Trim(response);
    if StartsWith(extracted, JsonFence) then Trim(RemoveSuffix(RemovePrefix(extracted, JsonFence), Fence))
    else extracted
  }

  /** A ```json fence around a body is taken off, and the body is trimmed. */
  lemma StripFenceOfFenced(body: string)
    ensures StripFence(JsonFence + body + Fence) == Trim(body)
  {
    var s := JsonFence + body + Fence;
    assert s[0] == '`' && s[|s| - 1] == '`';
    TrimOfTrimmed(s);
    assert s[..|JsonFence|] == JsonFence;
    assert s[|JsonFence|..] == body + Fence;
    assert (body + Fence)[|body|..] == Fence;
    assert (body + Fence)[..|body|] == body;
  }

  /** Any answer whose trimmed text does not open with ```json is parsed as it is
      after trimming, a bare ``` fence included. */
  lemma StripFenceOtherwiseTrims(response: string)
    requires !StartsWith(Trim(response), JsonFence)
    ensures StripFence(response) == Trim(response)
  {
  }

  /** A bare fence stays in the text handed to the parser. */
  lemma BareFenceKept(body: string)
    requires |body| > 0 && body[0] != 'j'
    ensures StripFence(Fence + body + Fence) == Trim(Fence + body + Fence)
    ensures StartsWith(StripFence(Fence + body + Fence), Fence)
  {
    var s := Fence + body + Fence;
    assert s[0] == '`' && s[|s| - 1] == '`';
    TrimOfTrimmed(s);
    assert s[3] == body[0] != JsonFence[3];
    assert !StartsWith(s, JsonFence) by {
      if |JsonFence| <= |s| {
        assert s[..|JsonFence|][3] != JsonFence[3];
      }
    }
    StripFenceOtherwiseTrims(s);
    assert s[..3] == Fence;
  }

  /** The summary: the parser's result, or the empty summary when it fails. */
  function ParseOrEmpty(parse: ParseLineage, response: string): (r: LineageResult)
    ensures parse(StripFence(response)).None? ==> r == EmptyLineage
    ensures parse(StripFence(response)).Some? ==> r == parse(StripFence(response)).value
  {
    match parse(StripFence(response))
    case Some(l) => l
    case None => EmptyLineage
  }

  /** `summarize_lineage`. Only a failing model call escapes as an error. */
  function SummarizeLineage(procName: string, database: string, content: string,
                            sha: Sha256Hex, callModel: CallModel, parse: ParseLineage): (r: Result<LineageOutput>)
    ensures callModel(Prompt(procName, content)).Err? <==> r.Err?
    ensures r.Ok? ==>
      && r.value.raw == callModel(Prompt(procName, content)).value
      && r.value.prompt == Prompt(procName, content)
      && r.value.hash == HashString(sha, content)
      && r.value.procedureName == procName
      && r.value.database == database
      && r.value.lineage == ParseOrEmpty(parse, r.value.raw)
  {
    var prompt := Prompt(procName, content);
    match callModel(prompt)
    case Err(e) => Err(e)
    case Ok(response) =>
      Ok(LineageOutput(ParseOrEmpty(parse, response), response, prompt, HashString(sha, content), procName, database))
  }

  /** An answer that cannot be parsed still yields a complete result: the empty
      summary, with the raw answer and the identifying fields attached. */
  lemma UnparsableAnswerFallsBack(procName: string, database: string, content: string,
                                   sha: Sha256Hex, callModel: CallModel, parse: ParseLineage, answer: string)
    requires callModel(Prompt(procName, content)) == Ok(answer)
    requires parse(StripFence(answer)).None?
    ensures SummarizeLineage(procName, database, content, sha, callModel, parse) ==
      Ok(LineageOutput(LineageResult([], "", []), answer, Prompt(procName, content), HashString(sha, content), procName, database))
  {
  }

  /** The digest depends on the procedure text only: neither the model's answer
      nor the names change it. */
  lemma HashIgnoresAnswer(procName1: string, procName2: string, database1: string, database2: string, content: string,
                          sha: Sha256Hex, callModel1: CallModel, callModel2: CallModel, parse: ParseLineage)
    requires SummarizeLineage(procName1, database1, content, sha, callModel1, parse).Ok?
    requires SummarizeLineage(procName2, database2, content, sha, callModel2, parse).Ok?
    ensures SummarizeLineage(procName1, database1, content, sha, callModel1, parse).value.hash ==
            SummarizeLineage(procName2, database2, content, sha, callModel2, parse).value.hash
  {
  }
}
