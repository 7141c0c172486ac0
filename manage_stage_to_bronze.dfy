/** The stage-to-bronze management page (frontend/pages/manage-stage-to-bronze.js):
    it asks the backend for suggestions, keeps a selection flag per suggestion
    index, and posts the selected ones, completed with the two database names
    typed in, to the bulk save endpoint. Each request is split into the
    handler's synchronous part and its completion with the response. */
module ManageStageToBronze {
  import opened Common
  import opened Frontend
  import StageToBronzeMap

  type Suggestion = StageToBronzeMap.Suggestion
  type Mapping = StageToBronzeMap.StageToBronzeMapping

  /** The selection object: index to flag; a missing index is not selected. */
  type Selection = map<int, bool>

  const NothingSelectedMessage: string := "No suggestions selected to save."
  const MissingDatabaseMessage: string := "Please provide Stage Database Name and Bronze Database Name for saving."

  predicate IsSelected(selected: Selection, i: int) {
    i in selected && selected[i]
  }

  /** `toggleSelection(index)`: the object with that index's flag negated. */
  function Toggled(selected: Selection, index: int): Selection {
    selected[index := !IsSelected(selected, index)]
  }

  /** `getSelectedItems`: the suggestions whose index is selected, in order. */
  function SelectedItems(suggestions: seq<Suggestion>, selected: Selection): (r: seq<Suggestion>)
    ensures |r| <= |suggestions|
    decreases |suggestions|
  {
    if |suggestions| == 0 then []
    else
      var n := |suggestions| - 1;
      SelectedItems(suggestions[..n], selected) + (if IsSelected(selected, n) then [suggestions[n]] else [])
  }

  /** The header checkbox's change handler: every index, or none. */
  function SelectAll(count: nat, checked: bool): Selection {
    if checked then AllIndices(count) else map[]
  }

  /** Every index below `count` selected. */
  function AllIndices(count: nat): (r: Selection)
    ensures forall i :: i in r <==> 0 <= i < count
    ensures forall i :: i in r ==> r[i]
  {
    if count == 0 then map[] else AllIndices(count - 1)[count - 1 := true]
  }

  /** `numSelected > 0 && numSelected === suggestions.length`. */
  predicate HeaderChecked(suggestions: seq<Suggestion>, selected: Selection) {
    var numSelected := |SelectedItems(suggestions, selected)|;
    numSelected > 0 && numSelected == |suggestions|
  }

  /** The checks `handleSaveSelected` makes before sending anything. */
  function SaveError(items: seq<Suggestion>, stageDatabase: string, bronzeDatabase: string): Option<string> {
    if |items| == 0 then Some(NothingSelectedMessage)
    else if IsBlank(stageDatabase) || IsBlank(bronzeDatabase) then Some(MissingDatabaseMessage)
    else None
  }

  /** The request body: one mapping per selected suggestion. The database names
      are sent as typed, untrimmed. */
  function Payload(items: seq<Suggestion>, stageDatabase: string, bronzeDatabase: string): seq<Mapping> {
    seq(|items|, k requires 0 <= k < |items| =>
      StageToBronzeMap.StageToBronzeMapping(stageDatabase, items[k].stageSchema, items[k].stageTable,
                                            bronzeDatabase, items[k].bronzeSchema, items[k].bronzeTable))
  }

  /** `${result.saved_count || payload.length} mappings saved successfully!`. */
  function SuccessMessage(result: JsonObject, payloadLength: nat): string {
    var count := if "saved_count" in result && Truthy(result["saved_count"]) then JsString(result["saved_count"])
                 else NatToString(payloadLength);
    count + " mappings saved successfully!"
  }

  /** The page's state cells. */
  class StageToBronzePage {
    var suggestions: seq<Suggestion>
    var selected: Selection
    var isLoadingSuggestions: bool
    var errorSuggestions: Option<string>
    var stageDatabase: string
    var bronzeDatabase: string
    var isSaving: bool
    var saveSuccessMessage: string
    var errorSaving: Option<string>

    constructor ()
      ensures suggestions == [] && selected == map[] && !isLoadingSuggestions && errorSuggestions == None
      ensures stageDatabase == "" && bronzeDatabase == ""
      ensures !isSaving && saveSuccessMessage == "" && errorSaving == None
    {
      suggestions := [];
      selected := map[];
      isLoadingSuggestions := false;
      errorSuggestions := None;
      stageDatabase := "";
      bronzeDatabase := "";
      isSaving := false;
      saveSuccessMessage := "";
      errorSaving := None;
    }

    /** `handleSuggestMappings` up to the request: everything from an earlier
        round is cleared. */
    method StartSuggest()
      modifies this
      ensures isLoadingSuggestions && errorSuggestions == None
      ensures suggestions == [] && selected == map[] && saveSuccessMessage == "" && errorSaving == None
      ensures stageDatabase == old(stageDatabase) && bronzeDatabase == old(bronzeDatabase) && isSaving == old(isSaving)
    {
      isLoadingSuggestions := true;
      errorSuggestions := None;
      suggestions := [];
      selected := map[];
      saveSuccessMessage := "";
      errorSaving := None;
    }

    /** `handleSuggestMappings` once the response is in. */
    method FinishSuggest(response: FetchResponse<seq<Suggestion>>)
      modifies this
      ensures !isLoadingSuggestions
      ensures response.Received? ==> suggestions == response.data && errorSuggestions == old(errorSuggestions)
      ensures !response.Received? ==> suggestions == old(suggestions) && errorSuggestions == Some(ErrorMessage(response, ["message"]))
      ensures selected == old(selected) && stageDatabase == old(stageDatabase) && bronzeDatabase == old(bronzeDatabase)
      ensures isSaving == old(isSaving) && saveSuccessMessage == old(saveSuccessMessage) && errorSaving == old(errorSaving)
    {
      if response.Received? {
        suggestions := response.data;
      } else {
        errorSuggestions := Some(ErrorMessage(response, ["message"]));
      }
      isLoadingSuggestions := false;
    }

    /** A row checkbox. */
    method ToggleSelection(index: int)
      modifies this
      ensures selected == Toggled(old(selected), index)
      ensures unchanged(this`suggestions, this`isLoadingSuggestions, this`errorSuggestions, this`stageDatabase,
                        this`bronzeDatabase, this`isSaving, this`saveSuccessMessage, this`errorSaving)
    {
      selected := selected[index := !(index in selected && selected[index])];
    }

    /** The header checkbox. */
    method SelectAllChanged(checked: bool)
      modifies this
      ensures selected == SelectAll(|suggestions|, checked)
      ensures unchanged(this`suggestions, this`isLoadingSuggestions, this`errorSuggestions, this`stageDatabase,
                        this`bronzeDatabase, this`isSaving, this`saveSuccessMessage, this`errorSaving)
    {
      var newSelected: Selection := map[];
      if checked {
        for i := 0 to |suggestions|
          invariant newSelected == AllIndices(i)
        {
          newSelected := newSelected[i := true];
        }
      }
      selected := newSelected;
    }

    /** `handleSaveSelected` up to the request: either an error and nothing
        sent, or the body to post. */
    method SaveSelected() returns (payload: Option<seq<Mapping>>)
      modifies this
      ensures var error := SaveError(SelectedItems(suggestions, selected), stageDatabase, bronzeDatabase);
        error.Some? ==> payload == None && errorSaving == error && isSaving == old(isSaving) && saveSuccessMessage == old(saveSuccessMessage)
      ensures var items := SelectedItems(suggestions, selected);
        SaveError(items, stageDatabase, bronzeDatabase).None? ==>
          payload == Some(Payload(items, stageDatabase, bronzeDatabase)) && isSaving && errorSaving == None && saveSuccessMessage == ""
      ensures unchanged(this`suggestions, this`selected, this`isLoadingSuggestions, this`errorSuggestions,
                        this`stageDatabase, this`bronzeDatabase)
    {
      var items := SelectedItems(suggestions, selected);
      var error := SaveError(items, stageDatabase, bronzeDatabase);
      if error.Some? {
        errorSaving := error;
        return None;
      }
      isSaving := true;
      errorSaving := None;
      saveSuccessMessage := "";
      payload := Some(Payload(items, stageDatabase, bronzeDatabase));
    }

    /** `handleSaveSelected` once the response is in. */
    method FinishSave(response: FetchResponse<JsonObject>, payloadLength: nat)
      modifies this
      ensures !isSaving
      ensures response.Received? ==>
        saveSuccessMessage == SuccessMessage(response.data, payloadLength) && selected == map[] && errorSaving == old(errorSaving)
      ensures !response.Received? ==>
        errorSaving == Some(ErrorMessage(response, ["error", "message"])) && selected == old(selected)
        && saveSuccessMessage == old(saveSuccessMessage)
      ensures unchanged(this`suggestions, this`isLoadingSuggestions, this`errorSuggestions, this`stageDatabase,
                        this`bronzeDatabase)
    {
      if response.Received? {
        saveSuccessMessage := SuccessMessage(response.data, payloadLength);
        selected := map[];
      } else {
        errorSaving := Some(ErrorMessage(response, ["error", "message"]));
      }
      isSaving := false;
    }
  }

  // ---------------------------------------------------------------------------
  // Properties

  /** Toggling flips the given index and no other. */
  lemma ToggleFlipsOnlyIndex(selected: Selection, index: int, j: int)
    ensures IsSelected(Toggled(selected, index), j) == if j == index then !IsSelected(selected, index) else IsSelected(selected, j)
  {
  }

  /** The selected items are exactly the suggestions at selected indices. */
  lemma {:induction false} SelectedItemsMembers(suggestions: seq<Suggestion>, selected: Selection, x: Suggestion)
    ensures x in SelectedItems(suggestions, selected) <==>
      exists i :: 0 <= i < |suggestions| && IsSelected(selected, i) && suggestions[i] == x
    decreases |suggestions|
  {
    if |suggestions| > 0 {
      var n := |suggestions| - 1;
      SelectedItemsMembers(suggestions[..n], selected, x);
      if x in SelectedItems(suggestions[..n], selected) {
        var i :| 0 <= i < n && IsSelected(selected, i) && suggestions[..n][i] == x;
        assert suggestions[i] == x;
      }
      if exists i :: 0 <= i < |suggestions| && IsSelected(selected, i) && suggestions[i] == x {
        var i :| 0 <= i < |suggestions| && IsSelected(selected, i) && suggestions[i] == x;
        if i < n {
          assert suggestions[..n][i] == x;
        }
      }
    }
  }

  /** Every suggestion is selected exactly when as many items are selected as
      there are suggestions; otherwise fewer are. */
  lemma {:induction false} AllSelectedIff(suggestions: seq<Suggestion>, selected: Selection)
    ensures |SelectedItems(suggestions, selected)| == |suggestions| <==>
      forall i :: 0 <= i < |suggestions| ==> IsSelected(selected, i)
    ensures (forall i :: 0 <= i < |suggestions| ==> IsSelected(selected, i)) ==> SelectedItems(suggestions, selected) == suggestions
    decreases |suggestions|
  {
    if |suggestions| > 0 {
      var n := |suggestions| - 1;
      AllSelectedIff(suggestions[..n], selected);
      assert suggestions == suggestions[..n] + [suggestions[n]];
    }
  }

  /** Nothing is selected when no index is. */
  lemma {:induction false} NoneSelected(suggestions: seq<Suggestion>)
    ensures SelectedItems(suggestions, map[]) == []
    decreases |suggestions|
  {
    if |suggestions| > 0 {
      NoneSelected(suggestions[..|suggestions| - 1]);
    }
  }

  /** The header checkbox is checked exactly when there are suggestions and all
      of them are selected. */
  lemma HeaderCheckedIff(suggestions: seq<Suggestion>, selected: Selection)
    ensures HeaderChecked(suggestions, selected) <==>
      |suggestions| > 0 && forall i :: 0 <= i < |suggestions| ==> IsSelected(selected, i)
  {
    AllSelectedIff(suggestions, selected);
  }

  /** Checking the header selects every suggestion; unchecking it selects none. */
  lemma SelectAllSelectsEverything(suggestions: seq<Suggestion>)
    ensures SelectedItems(suggestions, SelectAll(|suggestions|, true)) == suggestions
    ensures HeaderChecked(suggestions, SelectAll(|suggestions|, true)) <==> |suggestions| > 0
    ensures SelectedItems(suggestions, SelectAll(|suggestions|, false)) == []
  {
    AllSelectedIff(suggestions, SelectAll(|suggestions|, true));
    NoneSelected(suggestions);
  }

  /** Nothing is sent when nothing is selected or a database name is blank
      after trimming; the emptiness check comes first. */
  lemma SaveErrorIff(items: seq<Suggestion>, stageDatabase: string, bronzeDatabase: string)
    ensures SaveError(items, stageDatabase, bronzeDatabase).None? <==>
      |items| > 0 && !IsBlank(stageDatabase) && !IsBlank(bronzeDatabase)
    ensures |items| == 0 ==> SaveError(items, stageDatabase, bronzeDatabase) == Some(NothingSelectedMessage)
  {
  }

  /** One mapping per selected suggestion, in order: the database names from
      the inputs, schema and table names from the suggestion. */
  lemma PayloadEntries(items: seq<Suggestion>, stageDatabase: string, bronzeDatabase: string)
    ensures var p := Payload(items, stageDatabase, bronzeDatabase);
      && |p| == |items|
      && forall k :: 0 <= k < |items| ==>
           && p[k].stageDatabase == stageDatabase && p[k].bronzeDatabase == bronzeDatabase
           && p[k].stageSchema == items[k].stageSchema && p[k].stageTable == items[k].stageTable
           && p[k].bronzeSchema == items[k].bronzeSchema && p[k].bronzeTable == items[k].bronzeTable
  {
  }

  /** The bulk endpoint answers `{"status": "success", "rows": n}` with no
      `saved_count`, so the message counts the mappings the page sent. */
  lemma SuccessMessageCountsPayload(rows: int, payloadLength: nat)
    ensures SuccessMessage(map["status" := JStr("success"), "rows" := JInt(rows)], payloadLength)
         == NatToString(payloadLength) + " mappings saved successfully!"
  {
  }
}
