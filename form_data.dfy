/**
 * The form hook shared by the program and phase editors (webapp hooks/useFormData.ts): the
 * check that the edited name collides with another record's name once both are trimmed, and
 * the save and cancel handlers, which send the record, clear the edited copy, switch back to
 * view mode and navigate. The route's `name` parameter is an input; None is a route without one.
 */
module FormData {
  import opened Wrappers
  import opened Text

  /** A stored record: its name, its `id` field if it carries one, and the rest of its content. */
  datatype Record = Record(name: string, id: Option<string>, content: string)

  /** What is sent to be saved: the record with the id it is sent under, and whether it is new. */
  datatype SaveRequest = SaveRequest(data: Record, isNew: bool)

  datatype FormMode = View | Edit

  const NewRoute: string := "new"

  /** Whether some record other than an exact namesake has the edited name once both are trimmed. */
  function Collides(name: string, names: seq<string>): (r: bool)
    ensures r <==> exists i :: 0 <= i < |names| && names[i] != name && Trim(names[i]) == Trim(name)
  {
    if names == [] then false
    else if names[0] != name && Trim(names[0]) == Trim(name) then true
    else
      assert forall i :: 1 <= i < |names| ==> names[i] == names[1..][i - 1];
      Collides(name, names[1..])
  }

  /**
   * `nameUsed`: false without an edited record or with no records; otherwise whether a record
   * whose name differs from the edited one is equal to it after trimming. An exact duplicate is
   * not reported.
   */
  function NameUsed(editData: Option<Record>, allData: seq<Record>): (r: bool)
    ensures editData.None? || allData == [] ==> !r
    ensures editData.Some? ==> (r <==> exists i :: 0 <= i < |allData| && allData[i].name != editData.value.name && Trim(allData[i].name) == Trim(editData.value.name))
  {
    if editData.None? || allData == [] then false
    else
      var names := seq(|allData|, i requires 0 <= i < |allData| => allData[i].name);
      assert forall i :: 0 <= i < |allData| ==> names[i] == allData[i].name;
      Collides(editData.value.name, names)
  }

  /** The records holding only exact copies of the edited name never count as a collision. */
  lemma ExactDuplicatesNotUsed(edit: Record, allData: seq<Record>)
    requires forall i :: 0 <= i < |allData| ==> allData[i].name == edit.name
    ensures !NameUsed(Some(edit), allData)
  {
  }

  /** Whether a save makes a new record: on the "new" route, or when the edited name is not the route's name. */
  predicate SavesAsNew(route: Option<string>, editName: string) {
    route == Some(NewRoute) || route != Some(editName)
  }

  /**
   * The request `handleSave` sends for the (normalized) record: a new one without an id, or
   * an update under the route's name. The record's own id, when it carries one, is spread after
   * the route's name and so takes its place.
   */
  function SaveRequestFor(route: Option<string>, editData: Record, normalized: Record): (r: SaveRequest)
    ensures r.isNew <==> SavesAsNew(route, editData.name)
    ensures r.isNew ==> r.data == normalized.(id := None)
    ensures !r.isNew ==> r.data.name == normalized.name && r.data.content == normalized.content
    ensures !r.isNew ==> r.data.id == (if normalized.id.Some? then normalized.id else route)
  {
    if SavesAsNew(route, editData.name) then SaveRequest(normalized.(id := None), true)
    else SaveRequest(normalized.(id := if normalized.id.Some? then normalized.id else route), false)
  }

  /** A save on a record's own route, with a normalizer that adds no id, updates the record under its name. */
  lemma SaveInPlace(editData: Record, normalized: Record)
    requires editData.name != NewRoute && normalized.id.None?
    ensures SaveRequestFor(Some(editData.name), editData, normalized) == SaveRequest(normalized.(id := Some(editData.name)), false)
  {
  }

  /** The path a create or a rename navigates to: the root path, followed by the name when it is not empty. */
  function SavedPath(rootPath: string, editName: string): (r: string)
    ensures StartsWith(r, rootPath)
    ensures editName == "" ==> r == rootPath
    ensures editName != "" ==> r[|rootPath|..] == "/" + editName
  {
    var r := rootPath + (if |editName| > 0 then "/" + editName else "");
    assert r[..|rootPath|] == rootPath;
    r
  }

  /** The edited copy and the mode of one form. */
  class Form {
    var editData: Option<Record>
    var mode: FormMode

    constructor (editData: Option<Record>, mode: FormMode)
      ensures this.editData == editData && this.mode == mode
    {
      this.editData := editData;
      this.mode := mode;
    }

    /**
     * `handleSave`: without an edited record nothing happens. Otherwise the normalized record
     * is sent, the edited copy is cleared, the form goes back to view mode, and a create or a
     * rename navigates to the saved record's path.
     */
    method HandleSave(route: Option<string>, rootPath: string, normalize: Option<Record -> Record>)
      returns (sent: Option<SaveRequest>, navigatedTo: Option<string>)
      modifies this
      ensures old(editData).None? ==> sent.None? && navigatedTo.None? && editData == old(editData) && mode == old(mode)
      ensures old(editData).Some? ==>
        var e := old(editData).value;
        var normalized := if normalize.Some? then normalize.value(e) else e;
        sent == Some(SaveRequestFor(route, e, normalized)) &&
        (navigatedTo.Some? <==> SavesAsNew(route, e.name)) &&
        (navigatedTo.Some? ==> navigatedTo.value == SavedPath(rootPath, e.name)) &&
        editData.None? && mode == View
    {
      if editData.None? {
        return None, None;
      }
      var e := editData.value;
      var normalized := if normalize.Some? then normalize.value(e) else e;
      var isRename := route != Some(NewRoute) && route != Some(e.name);
      var isNew := route == Some(NewRoute);
      if isNew || isRename {
        sent := Some(SaveRequest(normalized.(id := None), true));
      } else {
        sent := Some(SaveRequest(normalized.(id := if normalized.id.Some? then normalized.id else route), false));
      }
      var editName := e.name;
      editData := None;
      if route == Some(NewRoute) || (route != Some(NewRoute) && route != Some(editName)) {
        navigatedTo := Some(rootPath + (if |editName| > 0 then "/" + editName else ""));
      } else {
        navigatedTo := None;
      }
      mode := View;
    }

    /** `handleCancel`: the edited copy is dropped and the form navigates to the root path; the mode stays. */
    method HandleCancel(rootPath: string) returns (navigatedTo: string)
      modifies this
      ensures editData.None? && mode == old(mode) && navigatedTo == rootPath
    {
      editData := None;
      navigatedTo := rootPath;
    }
  }
}
