/** The administrator's chamada editor: per-field edit flags, single-field
    updates of the chamada being edited, its custom inputs, and the calls
    that save everything. Backend answers are method parameters; the date and
    time pickers' date arithmetic is not modelled. */
module EditChamada {
  import opened Common
  import opened ChamadaModel

  /** The fields the change handler is called with. */
  datatype Field = Nome | DataInicio | DataFim | Lag | Long | ToleranceMeters

  /** The edit-flag key of each field. */
  function Key(f: Field): string
  {
    match f
    case Nome => "nome"
    case DataInicio => "dataInicio"
    case DataFim => "dataFim"
    case Lag => "lag"
    case Long => "long"
    case ToleranceMeters => "toleranceMeters"
  }

  /** A field's current value (text fields as `Text`). */
  function FieldValue(c: Chamada, f: Field): Scalar
  {
    match f
    case Nome => Text(c.nome)
    case DataInicio => Text(c.dataInicio)
    case DataFim => Text(c.dataFim)
    case Lag => c.lag
    case Long => c.long
    case ToleranceMeters => c.toleranceMeters
  }

  /** `editing[key]` read as a boolean: an absent key is false. */
  predicate Editing(editing: map<string, bool>, key: string)
  {
    key in editing && editing[key]
  }

  /** `toggleEdit(key)`: the flag of `key` is negated (an absent key becomes
      true) and every other key keeps its entry. */
  function Toggled(editing: map<string, bool>, key: string): (r: map<string, bool>)
    ensures key in r && r[key] == !Editing(editing, key)
    ensures forall k :: k != key ==> (k in r <==> k in editing)
    ensures forall k :: k != key && k in editing ==> r[k] == editing[k]
    ensures r.Keys == editing.Keys + {key}
  {
    editing[key := !Editing(editing, key)]
  }

  /** Toggling a key twice gives back its flag, and the map itself when the
      key was already there; an absent key stays behind, set to false. */
  lemma ToggleTwice(editing: map<string, bool>, key: string)
    ensures Editing(Toggled(Toggled(editing, key), key), key) == Editing(editing, key)
    ensures key in editing ==> Toggled(Toggled(editing, key), key) == editing
    ensures key !in editing ==> Toggled(Toggled(editing, key), key) == editing[key := false]
  {
  }

  /** Save and Cancel are drawn when `editing` has a key, whatever its value. */
  predicate SaveCancelShown(editing: map<string, bool>)
  {
    |editing| > 0
  }

  /** Once any field has been toggled the buttons stay, even when every flag
      has been toggled back to false. */
  lemma ButtonsOutliveFlags(editing: map<string, bool>, key: string)
    ensures SaveCancelShown(Toggled(editing, key))
    ensures SaveCancelShown(Toggled(Toggled(map[], key), key))
    ensures !Editing(Toggled(Toggled(map[], key), key), key)
  {
    assert key in Toggled(editing, key);
    assert key in Toggled(Toggled(map[], key), key);
  }

  /** `handleChange(key, value)`: an absent chamada stays absent; otherwise
      only the field named is replaced, by the text typed. */
  function Changed(c: Option<Chamada>, f: Field, value: string): (r: Option<Chamada>)
    ensures c.None? <==> r.None?
    ensures r.Some? ==> FieldValue(r.value, f) == Text(value)
    ensures r.Some? ==> forall g :: g != f ==> FieldValue(r.value, g) == FieldValue(c.value, g)
    ensures r.Some? ==> r.value.id == c.value.id && r.value.ativa == c.value.ativa
    ensures r.Some? ==> r.value.customInputs == c.value.customInputs
  {
    match c
    case None => None
    case Some(ch) =>
      Some(match f
        case Nome => ch.(nome := value)
        case DataInicio => ch.(dataInicio := value)
        case DataFim => ch.(dataFim := value)
        case Lag => ch.(lag := Text(value))
        case Long => ch.(long := Text(value))
        case ToleranceMeters => ch.(toleranceMeters := Text(value)))
  }

  /** Two changes of the same field: the later one wins. */
  lemma LaterChangeWins(c: Option<Chamada>, f: Field, first: string, second: string)
    ensures Changed(Changed(c, f, first), f, second) == Changed(c, f, second)
  {
  }

  /** Changes of different fields commute. */
  lemma ChangesCommute(c: Option<Chamada>, f: Field, g: Field, v: string, w: string)
    requires f != g
    ensures Changed(Changed(c, f, v), g, w) == Changed(Changed(c, g, w), f, v)
  {
  }

  /** `customInputs.map(i => i._id == entry._id ? entry : i)`. */
  function ReplaceById(inputs: seq<CustomInput>, entry: CustomInput): (r: seq<CustomInput>)
    ensures |r| == |inputs|
    ensures forall i :: 0 <= i < |r| ==> r[i].id == inputs[i].id
    ensures forall i :: 0 <= i < |r| && inputs[i].id != entry.id ==> r[i] == inputs[i]
    ensures forall i :: 0 <= i < |r| && inputs[i].id == entry.id ==> r[i] == entry
  {
    seq(|inputs|, i requires 0 <= i < |inputs| => if inputs[i].id == entry.id then entry else inputs[i])
  }

  /** The label handler on entry `j`: same length, same order, and only the
      entries sharing `j`'s id carry the new label. */
  function WithLabel(inputs: seq<CustomInput>, j: nat, value: string): (r: seq<CustomInput>)
    requires j < |inputs|
    ensures |r| == |inputs| && r[j].labelText == value
    ensures forall i :: 0 <= i < |r| ==>
      r[i].id == inputs[i].id &&
      (inputs[i].id == inputs[j].id ==> r[i] == inputs[j].(labelText := value)) &&
      (inputs[i].id != inputs[j].id ==> r[i] == inputs[i])
  {
    ReplaceById(inputs, inputs[j].(labelText := value))
  }

  /** The placeholder handler on entry `j`, likewise. */
  function WithPlaceholder(inputs: seq<CustomInput>, j: nat, value: string): (r: seq<CustomInput>)
    requires j < |inputs|
    ensures |r| == |inputs| && r[j].placeholder == value
    ensures forall i :: 0 <= i < |r| ==>
      r[i].id == inputs[i].id &&
      (inputs[i].id == inputs[j].id ==> r[i] == inputs[j].(placeholder := value)) &&
      (inputs[i].id != inputs[j].id ==> r[i] == inputs[i])
  {
    ReplaceById(inputs, inputs[j].(placeholder := value))
  }

  /** Replacing by id twice with the same entry changes nothing more. */
  lemma ReplaceByIdIdempotent(inputs: seq<CustomInput>, entry: CustomInput)
    ensures ReplaceById(ReplaceById(inputs, entry), entry) == ReplaceById(inputs, entry)
  {
  }

  /** When ids are unique, editing entry `j` changes entry `j` alone. */
  lemma UniqueIdsTouchOneEntry(inputs: seq<CustomInput>, j: nat, value: string)
    requires j < |inputs|
    requires forall a, b :: 0 <= a < b < |inputs| ==> inputs[a].id != inputs[b].id
    ensures WithLabel(inputs, j, value) == inputs[j := inputs[j].(labelText := value)]
  {
  }

  /** The `PUT /chamada/<id>` call: the chamada and its custom inputs. */
  datatype UpdateRequest = UpdateRequest(chamada: Chamada, customInputs: seq<CustomInput>)

  /** The editor instance for the route's `id`. */
  class ChamadaEditor {
    const id: Option<string>
    var editing: map<string, bool>
    var chamada: Option<Chamada>
    var customInputs: seq<CustomInput>

    constructor(id: Option<string>)
      ensures this.id == id && editing == map[] && chamada.None? && customInputs == []
    {
      this.id := id;
      editing := map[];
      chamada := None;
      customInputs := [];
    }

    method ToggleEdit(key: string)
      modifies this`editing
      ensures editing == Toggled(old(editing), key)
    {
      editing := Toggled(editing, key);
    }

    method HandleChange(f: Field, value: string)
      modifies this`chamada
      ensures chamada == Changed(old(chamada), f, value)
    {
      chamada := Changed(chamada, f, value);
    }

    /** `saveAllChanges`: without an id or a chamada nothing happens;
        otherwise every edit flag is dropped and the update call is made
        (its answer arrives through `OnChamadaLoaded`). */
    method SaveAllChanges() returns (update: Option<UpdateRequest>)
      modifies this`editing
      ensures !Present(id) || chamada.None? ==> update.None? && editing == old(editing)
      ensures Present(id) && chamada.Some? ==>
        editing == map[] && update == Some(UpdateRequest(chamada.value, customInputs))
    {
      if !Present(id) || chamada.None? {
        return None;
      }
      editing := map[];
      update := Some(UpdateRequest(chamada.value, customInputs));
    }

    /** "Cancelar": the same call as "Salvar", so cancelling saves the edits
        made so far instead of discarding them. */
    method Cancel() returns (update: Option<UpdateRequest>)
      modifies this`editing
      ensures !Present(id) || chamada.None? ==> update.None? && editing == old(editing)
      ensures Present(id) && chamada.Some? ==>
        editing == map[] && update == Some(UpdateRequest(chamada.value, customInputs))
    {
      update := SaveAllChanges();
    }

    /** `toggleChamadaStatus`: flips `ativa` on the chamada being edited and
        saves it, flag and all. */
    method ToggleChamadaStatus() returns (update: Option<UpdateRequest>)
      modifies this`chamada, this`editing
      ensures !Present(id) || old(chamada).None? ==>
        update.None? && chamada == old(chamada) && editing == old(editing)
      ensures Present(id) && old(chamada).Some? ==>
        && chamada == Some(old(chamada).value.(ativa := !old(chamada).value.ativa))
        && editing == map[]
        && update == Some(UpdateRequest(chamada.value, customInputs))
    {
      if !Present(id) || chamada.None? {
        return None;
      }
      var c := chamada.value;
      chamada := Some(c.(ativa := !c.ativa));
      update := SaveAllChanges();
    }

    /** `handleAddInput` once the backend has returned `created`: appended
        at the end, with the "customInputs" flag toggled. */
    method HandleAddInput(created: CustomInput)
      modifies this`customInputs, this`editing
      ensures !Present(id) ==> customInputs == old(customInputs) && editing == old(editing)
      ensures Present(id) ==>
        customInputs == old(customInputs) + [created] &&
        editing == Toggled(old(editing), "customInputs")
    {
      if !Present(id) {
        return;
      }
      customInputs := customInputs + [created];
      ToggleEdit("customInputs");
    }

    /** `handleDeleteInput(inputId)` once the backend has returned the
        remaining inputs; an empty `inputId` does nothing. */
    method HandleDeleteInput(inputId: string, remaining: seq<CustomInput>)
      modifies this`customInputs
      ensures customInputs == if inputId == "" then old(customInputs) else remaining
    {
      if inputId == "" {
        return;
      }
      customInputs := remaining;
    }

    /** The label input of entry `j`. */
    method EditLabel(j: nat, value: string)
      requires j < |customInputs|
      modifies this`customInputs
      ensures customInputs == WithLabel(old(customInputs), j, value)
    {
      customInputs := WithLabel(customInputs, j, value);
    }

    /** The placeholder input of entry `j`. */
    method EditPlaceholder(j: nat, value: string)
      requires j < |customInputs|
      modifies this`customInputs
      ensures customInputs == WithPlaceholder(old(customInputs), j, value)
    {
      customInputs := WithPlaceholder(customInputs, j, value);
    }

    /** The end of a marker drag, with the new position as the text of its
        two numbers (None when the event has no position): both coordinates
        are replaced and each of their flags toggled once. */
    method MarkerDragEnd(position: Option<(string, string)>)
      modifies this`chamada, this`editing
      ensures position.None? ==> chamada == old(chamada) && editing == old(editing)
      ensures position.Some? ==>
        chamada == Changed(Changed(old(chamada), Lag, position.value.0), Long, position.value.1) &&
        editing == Toggled(Toggled(old(editing), Key(Lag)), Key(Long))
    {
      if position.None? {
        return;
      }
      HandleChange(Lag, position.value.0);
      HandleChange(Long, position.value.1);
      ToggleEdit(Key(Lag));
      ToggleEdit(Key(Long));
    }

    /** The chamada fetched by the page's load. */
    method OnChamadaLoaded(c: Chamada)
      modifies this`chamada
      ensures chamada == Some(c)
    {
      chamada := Some(c);
    }

    /** The custom inputs fetched with the chamada's presences. */
    method OnPresencesLoaded(inputs: seq<CustomInput>)
      modifies this`customInputs
      ensures customInputs == inputs
    {
      customInputs := inputs;
    }
  }

  /** After a drag on a freshly loaded editor the two coordinate flags are
      set and the Save and Cancel buttons are drawn. */
  method DragScenario(c: Chamada) returns (shown: bool, lagEditing: bool, longEditing: bool)
    ensures shown && lagEditing && longEditing
  {
    var editor := new ChamadaEditor(Some(c.id));
    editor.OnChamadaLoaded(c);
    editor.MarkerDragEnd(Some(("-23.5", "-46.6")));
    shown := SaveCancelShown(editor.editing);
    lagEditing := Editing(editor.editing, Key(Lag));
    longEditing := Editing(editor.editing, Key(Long));
  }
}
