/** The `App` component: the recipe collection, the three modal slots
    (view, edit, create) and the handlers that update them. React's state
    setters become assignments to the fields of one `App` object; each
    slot also holds the draft of the `Modal` instance it feeds. */
module RecipeApp {
  import opened JsValues
  import opened JsTrim
  import opened RecipeModal
  import opened RecipeList

  /** The three `Modal` instances `App` renders. */
  datatype SlotKind = ViewSlot | EditSlot | CreateSlot

  /** A modal slot: `null` (closed), or the recipe it shows together with
      the draft its `Modal` keeps. */
  datatype Slot = Closed | Open(receita: Record, formData: Record)

  /** How each instance is rendered: the view modal has no `onSave` and
      `isEditing={false}`; the edit modal saves through `handleEditReceita`
      with `isEditing={true}`; the create modal saves through
      `handleCreateReceita` with `isCreate={true}`. */
  function PropsOf(k: SlotKind): (p: ModalProps)
    ensures p.hasOnSave <==> k != ViewSlot
    ensures p.isEditing <==> k == EditSlot
    ensures p.isCreate <==> k == CreateSlot
  {
    match k
    case ViewSlot => ModalProps(false, false, false)
    case EditSlot => ModalProps(true, true, false)
    case CreateSlot => ModalProps(true, false, true)
  }

  /** The request the `onSave` callback sends for a call of `handleSave`. */
  function RequestOf(call: SaveCall): Request
  {
    match call
    case NoCall => NoRequest
    case CreateCall(data) => Post(data)
    case EditCall(id, data) => Patch(id, data)
  }

  /** The collection once the `onSave` callback has run and, for a create,
      its request has settled with `response`. */
  function ListAfterSave(receitas: seq<Record>, call: SaveCall, response: Response<Record>): seq<Record>
  {
    match call
    case NoCall => receitas
    case CreateCall(_) => AppendCreated(receitas, response)
    case EditCall(id, data) => EditMerge(receitas, id, data)
  }

  /** An open slot's draft has exactly the six form fields. */
  predicate DraftShaped(s: Slot)
  {
    s.Open? ==> s.formData.Keys == DraftKeys
  }

  /** Only the create modal can grow the list: the view modal calls
      nothing, and the edit modal sends only a patch. */
  lemma SaveCallBySlot(k: SlotKind, receita: Record, formData: Record, parseFloat: Value -> Number)
    ensures var c := HandleSave(PropsOf(k), receita, formData, parseFloat);
      && (k == ViewSlot ==> c == Normal(NoCall))
      && (k == EditSlot && c.Normal? ==> c.value.EditCall? && c.value.id == Get(receita, "id"))
      && (k == CreateSlot && c.Normal? ==> c.value.CreateCall?)
  {
  }

  /** Saving the edit modal calls `onSave(receita.id, updatedData)` with
      the payload of its draft whenever the ingredients are a string. */
  lemma EditSaveCall(receita: Record, formData: Record, parseFloat: Value -> Number)
    requires Get(formData, "ingredientes").Str?
    ensures HandleSave(PropsOf(EditSlot), receita, formData, parseFloat) ==
      Normal(EditCall(Get(receita, "id"), SavePayload(formData, parseFloat).value))
  {
  }

  /** What that call does to the list, end to end: every entry with the
      edited id keeps its id and every field the form does not show, and
      gets the trimmed ingredients; every other entry is left as it was. */
  lemma EditSaveResult(receitas: seq<Record>, receita: Record, formData: Record,
                       parseFloat: Value -> Number, i: nat)
    requires formData.Keys == DraftKeys && Get(formData, "ingredientes").Str?
    requires i < |receitas|
    ensures var id := Get(receita, "id");
      var merged := EditMerge(receitas, id, SavePayload(formData, parseFloat).value);
      && (!HasId(receitas[i], id) ==> merged[i] == receitas[i])
      && (HasId(receitas[i], id) ==>
            && Get(merged[i], "id") == Get(receitas[i], "id")
            && Get(merged[i], "ingredientes") == Str(Trim(Get(formData, "ingredientes").s))
            && NoEdgeWhitespace(Get(merged[i], "ingredientes").s)
            && forall k :: k !in DraftKeys ==> Get(merged[i], k) == Get(receitas[i], k))
  {
    var id := Get(receita, "id");
    var data := SavePayload(formData, parseFloat).value;
    SavePayloadOfDraft(formData, parseFloat);
    SavePayloadTrimmed(formData, parseFloat);
    if HasId(receitas[i], id) {
      MergedDraftEntry(receitas, id, data, i);
    }
  }

  /** An entry merged with a payload of the six form fields keeps its id
      and its other fields, and takes the payload's ingredients. */
  lemma MergedDraftEntry(receitas: seq<Record>, id: Value, data: Record, i: nat)
    requires data.Keys == DraftKeys && i < |receitas| && HasId(receitas[i], id)
    ensures var e := EditMerge(receitas, id, data)[i];
      && Get(e, "id") == Get(receitas[i], "id")
      && Get(e, "ingredientes") == data["ingredientes"]
      && forall k :: k !in DraftKeys ==> Get(e, k) == Get(receitas[i], k)
  {
    EditMergeEntry(receitas, id, data, i, "ingredientes");
    forall k | k !in DraftKeys
      ensures Get(EditMerge(receitas, id, data)[i], k) == Get(receitas[i], k)
    {
      EditMergeEntry(receitas, id, data, i, k);
    }
  }

  /** Saving the create modal, end to end: whatever the draft, as long as
      its ingredients are a string, the modal posts its payload, and once
      the server answers with a record, the list grows by that record,
      appended last. */
  lemma CreateSaveResult(receitas: seq<Record>, receita: Record, formData: Record,
                         parseFloat: Value -> Number, created: Record)
    requires Get(formData, "ingredientes").Str?
    ensures var c := HandleSave(PropsOf(CreateSlot), receita, formData, parseFloat);
      && c == Normal(CreateCall(SavePayload(formData, parseFloat).value))
      && RequestOf(c.value) == Post(SavePayload(formData, parseFloat).value)
      && ListAfterSave(receitas, c.value, Resolved(created)) == receitas + [created]
  {
  }

  /** Creating "Bolo": the user types the name into the blank create form
      and saves. The modal posts a payload named "Bolo", and once the
      server answers with that payload plus an id, the list grows by one
      card, the last, titled "Bolo" and carrying the server's id. */
  lemma CreateBoloExample(receitas: seq<Record>, id: Value, parseFloat: Value -> Number)
    ensures var draft := HandleChange(BlankTemplate(), "nome", Str("Bolo"));
      var c := HandleSave(PropsOf(CreateSlot), BlankTemplate(), draft, parseFloat);
      && c.Normal? && c.value.CreateCall?
      && RequestOf(c.value) == Post(c.value.data)
      && Get(c.value.data, "nome") == Str("Bolo")
      && var server := Spread(c.value.data, map["id" := id]);
         var next := ListAfterSave(receitas, c.value, Resolved(server));
         && next == receitas + [server]
         && Get(next[|receitas|], "nome") == Str("Bolo")
         && Get(next[|receitas|], "id") == id
  {
    var draft := HandleChange(BlankTemplate(), "nome", Str("Bolo"));
    assert Get(BlankTemplate(), "ingredientes") == Str("");
    var data := SavePayload(draft, parseFloat).value;
    BoloPayload(draft, parseFloat);
    var server := Spread(data, map["id" := id]);
    CreateSaveResult(receitas, BlankTemplate(), draft, parseFloat, server);
    assert (receitas + [server])[|receitas|] == server;
  }

  /** The payload saved from the "Bolo" draft keeps the name, and the
      server's record, the payload plus an id, carries both. */
  lemma BoloPayload(draft: Record, parseFloat: Value -> Number)
    requires Get(draft, "nome") == Str("Bolo") && Get(draft, "ingredientes") == Str("")
    ensures SavePayload(draft, parseFloat).Normal?
    ensures forall id :: var server := Spread(SavePayload(draft, parseFloat).value, map["id" := id]);
      Get(server, "nome") == Str("Bolo") && Get(server, "id") == id
  {
    assert Get(SavePayload(draft, parseFloat).value, "nome") == Str("Bolo");
  }

  class App {
    var receitas: seq<Record>
    var modalReceita: Slot
    var editReceitaData: Slot
    var createReceitaData: Slot

    ghost predicate Valid()
      reads this
    {
      DraftShaped(modalReceita) && DraftShaped(editReceitaData) && DraftShaped(createReceitaData)
    }

    function SlotOf(k: SlotKind): Slot
      reads this
    {
      match k
      case ViewSlot => modalReceita
      case EditSlot => editReceitaData
      case CreateSlot => createReceitaData
    }

    /** The first render: an empty list and every modal closed. */
    constructor ()
      ensures Valid()
      ensures receitas == []
      ensures forall k :: SlotOf(k) == Closed
    {
      receitas := [];
      modalReceita, editReceitaData, createReceitaData := Closed, Closed, Closed;
    }

    /** The mount effect: one GET of the whole collection, whose body
        replaces the list. A rejected GET is not caught and leaves the list
        as it was. */
    method FetchData(response: Response<seq<Record>>) returns (req: Request)
      requires Valid()
      modifies this
      ensures Valid() && req == GetAll
      ensures receitas == (if response.Resolved? then response.data else old(receitas))
      ensures forall k :: SlotOf(k) == old(SlotOf(k))
    {
      req := GetAll;
      if response.Resolved? {
        receitas := response.data;
      }
    }

    /** "Ver Receita" on a card: the view slot opens on that recipe, with a
        draft built from it afresh. */
    method OpenView(receita: Record)
      requires Valid() && receita in receitas
      modifies this
      ensures Valid() && receitas == old(receitas)
      ensures modalReceita == Open(receita, InitDraft(receita))
      ensures forall k :: k != ViewSlot ==> SlotOf(k) == old(SlotOf(k))
    {
      modalReceita := Open(receita, InitDraft(receita));
    }

    /** "Editar Receita" on a card: the edit slot opens on that recipe, with
        a draft built from it afresh. */
    method OpenEdit(receita: Record)
      requires Valid() && receita in receitas
      modifies this
      ensures Valid() && receitas == old(receitas)
      ensures editReceitaData == Open(receita, InitDraft(receita))
      ensures forall k :: k != EditSlot ==> SlotOf(k) == old(SlotOf(k))
    {
      editReceitaData := Open(receita, InitDraft(receita));
    }

    /** "Cadastrar Receita": the create slot opens on the blank template,
        which is also its draft. */
    method OpenCreate()
      requires Valid()
      modifies this
      ensures Valid() && receitas == old(receitas)
      ensures createReceitaData == Open(BlankTemplate(), BlankTemplate())
      ensures forall k :: k != CreateSlot ==> SlotOf(k) == old(SlotOf(k))
    {
      BlankTemplateIsDraft();
      createReceitaData := Open(BlankTemplate(), InitDraft(BlankTemplate()));
    }

    /** A modal's `onClose`: its slot goes back to `null`, which discards
        the draft; the list and the other slots are left alone. */
    method Close(k: SlotKind)
      requires Valid()
      modifies this
      ensures Valid() && receitas == old(receitas)
      ensures SlotOf(k) == Closed
      ensures forall j :: j != k ==> SlotOf(j) == old(SlotOf(j))
    {
      match k
      case ViewSlot => modalReceita := Closed;
      case EditSlot => editReceitaData := Closed;
      case CreateSlot => createReceitaData := Closed;
    }

    /** An input of an open modal fires `handleChange`: the field named by
        the input takes the new value in that modal's draft only. */
    method ChangeField(k: SlotKind, name: string, value: Value)
      requires Valid() && SlotOf(k).Open? && name in DraftKeys
      modifies this
      ensures Valid() && receitas == old(receitas)
      ensures SlotOf(k) == Open(old(SlotOf(k)).receita, HandleChange(old(SlotOf(k)).formData, name, value))
      ensures forall j :: j != k ==> SlotOf(j) == old(SlotOf(j))
    {
      var s := SlotOf(k);
      var next := Open(s.receita, HandleChange(s.formData, name, value));
      match k
      case ViewSlot => modalReceita := next;
      case EditSlot => editReceitaData := next;
      case CreateSlot => createReceitaData := next;
    }

    /** `updateReceita`: sends the patch and touches nothing local. */
    method UpdateReceita(id: Value, data: Record) returns (req: Request)
      ensures req == Patch(id, data)
    {
      req := Patch(id, data);
    }

    /** `deleteReceita`, run by "Deletar Receita": sends the delete and
        touches nothing local, so the card stays in the list. */
    method DeleteReceita(id: Value) returns (req: Request)
      ensures req == Delete(id)
    {
      req := Delete(id);
    }

    /** `handleEditReceita`: sends the patch and, without waiting for its
        outcome, merges the submitted fields into the entries with that id. */
    method HandleEditReceita(id: Value, updatedData: Record) returns (req: Request)
      requires Valid()
      modifies this
      ensures Valid() && req == Patch(id, updatedData)
      ensures receitas == EditMerge(old(receitas), id, updatedData)
      ensures forall k :: SlotOf(k) == old(SlotOf(k))
    {
      req := UpdateReceita(id, updatedData);
      receitas := EditMerge(receitas, id, updatedData);
    }

    /** `handleCreateReceita`: sends the new recipe and appends what the
        server returns once the request succeeds; a failure changes nothing. */
    method HandleCreateReceita(newData: Record, response: Response<Record>) returns (req: Request)
      requires Valid()
      modifies this
      ensures Valid() && req == Post(newData)
      ensures receitas == AppendCreated(old(receitas), response)
      ensures forall k :: SlotOf(k) == old(SlotOf(k))
    {
      req := Post(newData);
      receitas := AppendCreated(receitas, response);
    }

    /** The save button of the modal in slot `k` runs `handleSave`: it
        calls that modal's `onSave` as `handleSave` decides, then `onClose`.
        If `trim` throws, nothing is sent and nothing changes. */
    method Save(k: SlotKind, parseFloat: Value -> Number, response: Response<Record>) returns (req: Request)
      requires Valid() && SlotOf(k).Open?
      modifies this
      ensures Valid()
      ensures var s := old(SlotOf(k));
        var c := HandleSave(PropsOf(k), s.receita, s.formData, parseFloat);
        if c.TypeError? then
          && req == NoRequest && receitas == old(receitas)
          && forall j :: SlotOf(j) == old(SlotOf(j))
        else
          && req == RequestOf(c.value)
          && receitas == ListAfterSave(old(receitas), c.value, response)
          && SlotOf(k) == Closed
          && forall j :: j != k ==> SlotOf(j) == old(SlotOf(j))
      ensures var s := old(SlotOf(k));
        var c := HandleSave(PropsOf(k), s.receita, s.formData, parseFloat);
        c.Normal? && c.value.EditCall? ==>
          && |receitas| == |old(receitas)|
          && forall i :: 0 <= i < |receitas| ==> Get(receitas[i], "id") == Get(old(receitas)[i], "id")
    {
      var s := SlotOf(k);
      var c := HandleSave(PropsOf(k), s.receita, s.formData, parseFloat);
      if c.TypeError? {
        req := NoRequest;
        return;
      }
      match c.value {
        case NoCall => req := NoRequest;
        case CreateCall(data) => req := HandleCreateReceita(data, response);
        case EditCall(id, data) =>
          // the draft has the six form fields only, so the patch has no id
          assert DraftShaped(s);
          SavePayloadOfDraft(s.formData, parseFloat);
          EditMergeKeepsIds(receitas, id, data);
          req := HandleEditReceita(id, data);
      }
      Close(k);
    }
  }
}
