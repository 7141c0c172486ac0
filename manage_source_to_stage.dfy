/** The source-to-stage management page (frontend/pages/manage-source-to-stage.js):
    a form of ten text fields that is posted to the dictionary insert, and the
    promotion of a discovered mapping into that form. */
module ManageSourceToStage {
  import opened Common
  import opened Frontend
  import SourceToStage
  import SourceStageMap
  import SourceToStageDiscovery
  import Manager

  /** The form's field names, in display order (`initialFormData`). */
  const FormKeys: seq<string> := ["source_type", "source_host", "source_db", "source_schema", "source_table",
                                  "stage_db", "stage_schema", "stage_table", "connection_name", "notes"]

  type Form = map<string, string>

  /** `initialFormData`: every field empty. */
  function InitialForm(): (r: Form)
    ensures forall k :: k in r <==> k in FormKeys
    ensures forall k :: k in r ==> r[k] == ""
  {
    map k | k in FormKeys :: ""
  }

  /** The input for `key` carries the `required` attribute. */
  predicate Required(key: string) {
    key !in ["source_host", "notes"]
  }

  /** `mapping.key || ''` (or another fallback). */
  function FieldOr(mapping: JsonObject, key: string, fallback: string): string {
    if key in mapping && Truthy(mapping[key]) then JsString(mapping[key]) else fallback
  }

  function PromotionNote(sourceAlias: string, stageAlias: string): string {
    "Promoted from discovery (Source: " + sourceAlias + ", Stage: " + stageAlias + ")"
  }

  /** `promoteDiscoveredMapping`: the form built from a discovered mapping. */
  function PromotedForm(mapping: JsonObject, sourceAlias: string, stageAlias: string): Form {
    map[
      "source_type" := FieldOr(mapping, "source_type", ""),
      "source_host" := FieldOr(mapping, "source_host", ""),
      "source_db" := FieldOr(mapping, "source_db_name", ""),
      "source_schema" := FieldOr(mapping, "source_schema_name", ""),
      "source_table" := FieldOr(mapping, "source_table_name", ""),
      "stage_db" := FieldOr(mapping, "stage_db_name", ""),
      "stage_schema" := FieldOr(mapping, "stage_schema_name", ""),
      "stage_table" := FieldOr(mapping, "stage_table_name", ""),
      "connection_name" := FieldOr(mapping, "connection_name", sourceAlias),
      "notes" := PromotionNote(sourceAlias, stageAlias)]
  }

  /** `JSON.stringify(formData)` as the backend reads it: every field as text. */
  function FormBody(form: Form): SourceToStage.Body {
    map k | k in form :: Some(form[k])
  }

  /** The page's state cells for the form and the discovery aliases. */
  class SourceToStagePage {
    var formData: Form
    var isSavingMapping: bool
    var saveMappingSuccess: bool
    var errorSavingMapping: Option<string>
    var discoverSourceAlias: string
    var discoverStageAlias: string

    /** The form always has exactly the ten fields. */
    ghost predicate Valid()
      reads this
    {
      forall k :: k in formData <==> k in FormKeys
    }

    constructor ()
      ensures Valid() && formData == InitialForm()
      ensures !isSavingMapping && !saveMappingSuccess && errorSavingMapping == None
      ensures discoverSourceAlias == "" && discoverStageAlias == ""
    {
      formData := InitialForm();
      isSavingMapping := false;
      saveMappingSuccess := false;
      errorSavingMapping := None;
      discoverSourceAlias := "";
      discoverStageAlias := "";
    }

    /** `handleFormChange` for the input named `name`; every input is named
        after a form field. */
    method HandleFormChange(name: string, value: string)
      requires Valid() && name in FormKeys
      modifies this
      ensures Valid()
      ensures formData == old(formData)[name := value]
      ensures unchanged(this`isSavingMapping, this`saveMappingSuccess, this`errorSavingMapping,
                        this`discoverSourceAlias, this`discoverStageAlias)
    {
      formData := formData[name := value];
    }

    /** `promoteDiscoveredMapping`. */
    method PromoteDiscoveredMapping(mapping: JsonObject)
      modifies this
      ensures Valid()
      ensures formData == PromotedForm(mapping, discoverSourceAlias, discoverStageAlias)
      ensures unchanged(this`isSavingMapping, this`saveMappingSuccess, this`errorSavingMapping,
                        this`discoverSourceAlias, this`discoverStageAlias)
    {
      formData := PromotedForm(mapping, discoverSourceAlias, discoverStageAlias);
    }

    /** `handleSaveNewMapping` up to the request: the body posted. */
    method StartSave() returns (body: SourceToStage.Body)
      modifies this
      ensures isSavingMapping && errorSavingMapping == None && !saveMappingSuccess
      ensures body == FormBody(formData)
      ensures unchanged(this`formData, this`discoverSourceAlias, this`discoverStageAlias)
    {
      isSavingMapping := true;
      errorSavingMapping := None;
      saveMappingSuccess := false;
      body := FormBody(formData);
    }

    /** `handleSaveNewMapping` once the response is in. */
    method FinishSave(response: FetchResponse<JsonObject>)
      modifies this
      ensures !isSavingMapping
      ensures response.Received? ==> saveMappingSuccess && formData == InitialForm() && errorSavingMapping == old(errorSavingMapping)
      ensures !response.Received? ==>
        errorSavingMapping == Some(ErrorMessage(response, ["message"])) && formData == old(formData)
        && saveMappingSuccess == old(saveMappingSuccess)
      ensures unchanged(this`discoverSourceAlias, this`discoverStageAlias)
    {
      if response.Received? {
        saveMappingSuccess := true;
        formData := InitialForm();
      } else {
        errorSavingMapping := Some(ErrorMessage(response, ["message"]));
      }
      isSavingMapping := false;
    }
  }

  // ---------------------------------------------------------------------------
  // Properties

  /** Every field but the host and the notes is required. */
  lemma RequiredFields()
    ensures forall k :: k in FormKeys && Required(k) <==>
      k in ["source_type", "source_db", "source_schema", "source_table", "stage_db", "stage_schema", "stage_table", "connection_name"]
  {
  }

  /** Promotion fills every field of the form: the database, schema and table
      fields from the mapping's `*_db_name`, `*_schema_name` and `*_table_name`
      entries, the other fields from entries of their own name, each '' when
      missing or empty; the connection name falls back to the discovery's
      source alias and the notes name both aliases. */
  lemma PromotedFormFields(mapping: JsonObject, sourceAlias: string, stageAlias: string)
    ensures var f := PromotedForm(mapping, sourceAlias, stageAlias);
      && (forall k :: k in f <==> k in FormKeys)
      && f["source_db"] == FieldOr(mapping, "source_db_name", "")
      && f["source_schema"] == FieldOr(mapping, "source_schema_name", "")
      && f["stage_table"] == FieldOr(mapping, "stage_table_name", "")
      && f["source_type"] == FieldOr(mapping, "source_type", "")
      && f["connection_name"] == FieldOr(mapping, "connection_name", sourceAlias)
      && f["notes"] == PromotionNote(sourceAlias, stageAlias)
  {
  }

  /** The JSON object the discovery endpoint returns for a proposal. */
  function ProposalObject(p: SourceToStageDiscovery.Proposal): JsonObject {
    map["source_type" := p.sourceType, "source_alias" := JStr(p.sourceAlias),
        "source_schema" := JStr(p.sourceSchema), "source_table" := JStr(p.sourceTable),
        "stage_alias" := JStr(p.stageAlias), "stage_schema" := p.stageSchema,
        "stage_table" := JStr(p.stageTable)]
  }

  /** The discovery endpoint names its fields `source_schema`, `stage_table` and
      so on, never `*_name`: promoting one of its proposals leaves the schema,
      table and database fields empty, whatever the proposal says; only the
      type, the connection name and the notes are filled. These are the source
      fields. */
  lemma PromotedProposalLosesSourceNames(p: SourceToStageDiscovery.Proposal, sourceAlias: string, stageAlias: string)
    ensures var f := PromotedForm(ProposalObject(p), sourceAlias, stageAlias);
      && f["source_db"] == "" && f["source_schema"] == "" && f["source_table"] == ""
      && f["source_host"] == ""
      && f["source_type"] == (if Truthy(p.sourceType) then JsString(p.sourceType) else "")
  {
  }

  /** The stage fields of a promoted proposal, and its connection name: the
      source alias the discovery was run with. */
  lemma PromotedProposalLosesStageNames(p: SourceToStageDiscovery.Proposal, sourceAlias: string, stageAlias: string)
    ensures var f := PromotedForm(ProposalObject(p), sourceAlias, stageAlias);
      && f["stage_db"] == "" && f["stage_schema"] == "" && f["stage_table"] == ""
      && f["connection_name"] == sourceAlias
  {
  }

  /** The form is posted to the dictionary insert, which binds
      `source_database`, `source_tns` and `stage_database`; the form has
      `source_db` and `stage_db` instead and no `source_tns`. Whatever was typed
      in, the insert fails and no row is written; once the engine is obtained
      and the transaction begun, the error names `source_database`. */
  lemma FormPostAlwaysFails(form: Form, rows: seq<SourceToStage.SourceStageRow>, engine: Raises<Manager.Engine>,
                            beginError: Option<string>, check: InsertCheck<SourceToStage.SourceStageRow>)
    requires forall k :: k in form <==> k in FormKeys
    ensures var o := SourceStageMap.AddMappingSpec(rows, FormBody(form), engine, beginError, check);
      && o.response.Err? && o.rows == rows
      && (engine.Returns? && beginError.None? ==> o.response == Err(SourceStageMap.MissingBindDetail("source_database")))
  {
    var body := FormBody(form);
    assert SourceStageMap.BindNames[0] == "source_type" && SourceStageMap.BindNames[1] == "source_host";
    assert "source_type" in body && "source_host" in body;
    assert SourceStageMap.BindNames[2] == "source_database" && "source_database" !in body;
    assert SourceStageMap.MissingBind(body, SourceStageMap.BindNames[2..]) == Some("source_database");
    assert SourceStageMap.MissingBind(body, SourceStageMap.BindNames[1..]) == Some("source_database");
  }

  /** A successful save empties the form; it keeps its ten fields. */
  lemma SavedFormIsReset()
    ensures forall k :: k in InitialForm() <==> k in FormKeys
    ensures forall k :: k in FormKeys ==> InitialForm()[k] == ""
  {
  }
}
