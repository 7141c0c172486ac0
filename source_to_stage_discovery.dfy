/** Stage mapping proposals (backend/api/source_to_stage_discovery.py): every
    (owner, table) pair of a source connection's catalog is proposed for a stage
    table whose name is the source connection's prefix followed by the
    lower-cased source table name, in the source connection's default stage
    schema. */
module SourceToStageDiscovery {
  import opened Common

  /** A row of `SELECT owner, table_name FROM all_tables`. */
  datatype CatalogRow = CatalogRow(owner: string, tableName: string)

  /** One proposed mapping. The source type and the stage schema are copied
      from the configuration as they are, whatever their JSON type. */
  datatype Proposal = Proposal(
    sourceType: Json, sourceAlias: string, sourceSchema: string, sourceTable: string,
    stageAlias: string, stageSchema: Json, stageTable: string)

  const DefaultStageSchema: Json := JStr("dbo")
  const DefaultStagePrefix: Json := JStr("")

  function ProposalOf(sourceType: Json, sourceAlias: string, stageAlias: string, stageSchema: Json, prefix: Json,
                      row: CatalogRow): Proposal {
    Proposal(sourceType, sourceAlias, row.owner, row.tableName, stageAlias, stageSchema, Format(prefix) + Lower(row.tableName))
  }

  /** The handler's answer. `catalog` is what connecting to the source and
      querying its catalog gives: the rows, or the error raised. */
  function DiscoverSpec(connections: Connections, sourceAlias: string, stageAlias: string,
                        catalog: Result<seq<CatalogRow>>): Result<seq<Proposal>> {
    match LookupConfig(connections, sourceAlias)
    case None => Err(KeyErrorDetail(sourceAlias))
    case Some(sourceCfg) =>
      if LookupConfig(connections, stageAlias).None? then Err(KeyErrorDetail(stageAlias))
      else
        var stageSchema := Get(sourceCfg, "default_stage_schema", DefaultStageSchema);
        var prefix := Get(sourceCfg, "stage_table_prefix", DefaultStagePrefix);
        match catalog
        case Err(e) => Err(e)
        case Ok(rows) =>
          if |rows| == 0 then Ok([])
          else if "type" !in sourceCfg then Err(KeyErrorDetail("type"))
          else Ok(seq(|rows|, i requires 0 <= i < |rows| =>
                        ProposalOf(sourceCfg["type"], sourceAlias, stageAlias, stageSchema, prefix, rows[i])))
  }

  /** `discover_stage_mappings`. */
  method DiscoverStageMappings(connections: Connections, sourceAlias: string, stageAlias: string,
                               catalog: Result<seq<CatalogRow>>) returns (r: Result<seq<Proposal>>)
    ensures r == DiscoverSpec(connections, sourceAlias, stageAlias, catalog)
  {
    var sourceCfg := LookupConfig(connections, sourceAlias);
    if sourceCfg.None? {
      return Err(KeyErrorDetail(sourceAlias));
    }
    var stageCfg := LookupConfig(connections, stageAlias);
    if stageCfg.None? {
      return Err(KeyErrorDetail(stageAlias));
    }
    var cfg := sourceCfg.value;
    var stageSchema := Get(cfg, "default_stage_schema", DefaultStageSchema);
    var prefix := Get(cfg, "stage_table_prefix", DefaultStagePrefix);
    if catalog.Err? {
      return Err(catalog.detail);
    }
    var rows := catalog.value;
    var proposed: seq<Proposal> := [];
    for i := 0 to |rows|
      invariant |proposed| == i
      invariant i > 0 ==> "type" in cfg
      invariant forall k :: 0 <= k < i ==> proposed[k] == ProposalOf(cfg["type"], sourceAlias, stageAlias, stageSchema, prefix, rows[k])
    {
      if "type" !in cfg {
        return Err(KeyErrorDetail("type"));
      }
      proposed := proposed + [Proposal(cfg["type"], sourceAlias, rows[i].owner, rows[i].tableName, stageAlias,
                                       stageSchema, Format(prefix) + Lower(rows[i].tableName))];
    }
    if |rows| > 0 {
      assert proposed == seq(|rows|, i requires 0 <= i < |rows| =>
                               ProposalOf(cfg["type"], sourceAlias, stageAlias, stageSchema, prefix, rows[i]));
    }
    r := Ok(proposed);
  }

  /** With both aliases configured and the catalog read, there is one proposal
      per catalog row, in row order: the source side copies the row and the
      aliases, the stage table is the prefix followed by the lower-cased table
      name, and the stage schema and prefix default to "dbo" and "". */
  lemma OneProposalPerRow(connections: Connections, sourceAlias: string, stageAlias: string, rows: seq<CatalogRow>)
    requires LookupConfig(connections, sourceAlias).Some? && LookupConfig(connections, stageAlias).Some?
    requires |rows| == 0 || "type" in LookupConfig(connections, sourceAlias).value
    ensures var r := DiscoverSpec(connections, sourceAlias, stageAlias, Ok(rows));
      var cfg := LookupConfig(connections, sourceAlias).value;
      && r.Ok? && |r.value| == |rows|
      && forall i :: 0 <= i < |rows| ==>
           && r.value[i].sourceType == cfg["type"]
           && r.value[i].sourceAlias == sourceAlias && r.value[i].stageAlias == stageAlias
           && r.value[i].sourceSchema == rows[i].owner && r.value[i].sourceTable == rows[i].tableName
           && r.value[i].stageSchema == (if "default_stage_schema" in cfg then cfg["default_stage_schema"] else JStr("dbo"))
           && r.value[i].stageTable == (if "stage_table_prefix" in cfg then Format(cfg["stage_table_prefix"]) else "")
                                       + Lower(rows[i].tableName)
  {
  }

  /** The stage table name is lower-case whenever the prefix is. */
  lemma StageTableLowerCase(connections: Connections, sourceAlias: string, stageAlias: string, rows: seq<CatalogRow>, i: nat)
    requires DiscoverSpec(connections, sourceAlias, stageAlias, Ok(rows)).Ok?
    requires i < |DiscoverSpec(connections, sourceAlias, stageAlias, Ok(rows)).value|
    requires IsLowerCase(Format(Get(LookupConfig(connections, sourceAlias).value, "stage_table_prefix", DefaultStagePrefix)))
    ensures IsLowerCase(DiscoverSpec(connections, sourceAlias, stageAlias, Ok(rows)).value[i].stageTable)
  {
    var cfg := LookupConfig(connections, sourceAlias).value;
    var prefix := Format(Get(cfg, "stage_table_prefix", DefaultStagePrefix));
    LowerIsLowerCase(rows[i].tableName);
    var t := prefix + Lower(rows[i].tableName);
    assert forall k :: 0 <= k < |t| ==> t[k] == if k < |prefix| then prefix[k] else Lower(rows[i].tableName)[k - |prefix|];
  }

  /** An alias missing from the configuration fails the call before the catalog
      is looked at: the answer is the same whatever the catalog holds. */
  lemma UnknownAliasFailsFirst(connections: Connections, sourceAlias: string, stageAlias: string,
                               catalog1: Result<seq<CatalogRow>>, catalog2: Result<seq<CatalogRow>>)
    requires LookupConfig(connections, sourceAlias).None? || LookupConfig(connections, stageAlias).None?
    ensures DiscoverSpec(connections, sourceAlias, stageAlias, catalog1).Err?
    ensures DiscoverSpec(connections, sourceAlias, stageAlias, catalog1) == DiscoverSpec(connections, sourceAlias, stageAlias, catalog2)
  {
  }
}
