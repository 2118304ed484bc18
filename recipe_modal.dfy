/** The `Modal` component's logic: the draft it keeps of the recipe it
    shows, the keyed update its inputs make to that draft, and the payload
    and the callback its save button produces. */
module RecipeModal {
  import opened JsValues
  import opened JsTrim

  /** The fields of a draft, one per input of the form. */
  const DraftKeys: set<string> := {"nome", "tipo", "ingredientes", "modoFazer", "img", "custoAproximado"}

  /** The draft fields whose default is the empty string. */
  const TextKeys: set<string> := {"nome", "tipo", "ingredientes", "modoFazer", "img"}

  const Zero: Value := Num(Finite(0.0))

  /** The value a draft field falls back to when the recipe's is falsy. */
  function Default(k: string): Value
  {
    if k == "custoAproximado" then Zero else Str("")
  }

  /** The draft `formData` built from the recipe `receita`, both by the
      initial state and by the effect that runs when `receita` changes:
      each field is the recipe's value if truthy, else its default. The
      draft has exactly the six form fields, so it never carries an id. */
  function InitDraft(receita: Record): (formData: Record)
    ensures formData.Keys == DraftKeys && "id" !in formData
    ensures forall k :: k in DraftKeys && Truthy(Get(receita, k)) ==> formData[k] == Get(receita, k)
    ensures forall k :: k in TextKeys && !Truthy(Get(receita, k)) ==> formData[k] == Str("")
    ensures !Truthy(Get(receita, "custoAproximado")) ==> formData["custoAproximado"] == Zero
  {
    // one entry per form field: `receita?.nome || ''`, ..., `receita?.custoAproximado || 0`
    map k | k in DraftKeys :: Or(Get(receita, k), Default(k))
  }

  /** A draft is truthy exactly where the recipe is, and agrees with the
      recipe on every field where the recipe is truthy. */
  lemma InitDraftTruthy(receita: Record, k: string)
    requires k in DraftKeys
    ensures Truthy(InitDraft(receita)[k]) <==> Truthy(Get(receita, k))
    ensures InitDraft(receita)[k] == (if Truthy(Get(receita, k)) then Get(receita, k) else Default(k))
  {
  }

  /** Building a draft from a draft gives the same draft back: every
      falsy field of a draft already holds its default. */
  lemma InitDraftIdempotent(receita: Record)
    ensures InitDraft(InitDraft(receita)) == InitDraft(receita)
  {
    var d := InitDraft(receita);
    var dd := InitDraft(d);
    forall k | k in DraftKeys
      ensures dd[k] == d[k]
    {
      InitDraftTruthy(receita, k);
      InitDraftTruthy(d, k);
    }
  }

  /** The blank recipe the "Cadastrar Receita" button opens the create
      modal with. */
  function BlankTemplate(): (b: Record)
    ensures b.Keys == DraftKeys
    ensures forall k :: k in TextKeys ==> b[k] == Str("")
    ensures b["custoAproximado"] == Zero
  {
    map["nome" := Str(""), "tipo" := Str(""), "ingredientes" := Str(""),
        "modoFazer" := Str(""), "img" := Str(""), "custoAproximado" := Zero]
  }

  /** The create modal's draft is the blank template itself: every field
      holds its default. */
  lemma BlankTemplateIsDraft()
    ensures InitDraft(BlankTemplate()) == BlankTemplate()
    ensures forall k :: k in DraftKeys ==> BlankTemplate()[k] == Default(k)
  {
    var b := BlankTemplate();
    assert !Truthy(b["custoAproximado"]);
    forall k | k in DraftKeys
      ensures InitDraft(b)[k] == b[k]
    {
      InitDraftTruthy(b, k);
    }
  }

  /** A recipe whose six form fields are all truthy is shown exactly as it
      is: the draft is the recipe restricted to the form fields. */
  lemma InitDraftExact(receita: Record)
    requires forall k :: k in DraftKeys ==> Truthy(Get(receita, k))
    ensures InitDraft(receita) == map k | k in DraftKeys :: Get(receita, k)
  {
  }

  /** `handleChange`: the input named `name` writes `value` under that key
      of the draft and leaves every other key as it was. */
  function HandleChange(prev: Record, name: string, value: Value): (next: Record)
    ensures next.Keys == prev.Keys + {name}
    ensures Get(next, name) == value
    ensures forall k :: k != name ==> Get(next, k) == Get(prev, k)
  {
    Spread(prev, map[name := value])
  }

  /** Two changes to the same field: the later one wins. */
  lemma HandleChangeLastWins(prev: Record, name: string, v1: Value, v2: Value)
    ensures HandleChange(HandleChange(prev, name, v1), name, v2) == HandleChange(prev, name, v2)
  {
    var a := HandleChange(HandleChange(prev, name, v1), name, v2);
    var b := HandleChange(prev, name, v2);
    forall k | k in a
      ensures a[k] == b[k]
    {
      assert Get(a, k) == Get(b, k);
    }
  }

  /** Changes to two different fields do not interfere. */
  lemma HandleChangeCommute(prev: Record, n1: string, v1: Value, n2: string, v2: Value)
    requires n1 != n2
    ensures HandleChange(HandleChange(prev, n1, v1), n2, v2) == HandleChange(HandleChange(prev, n2, v2), n1, v1)
  {
    var a := HandleChange(HandleChange(prev, n1, v1), n2, v2);
    var b := HandleChange(HandleChange(prev, n2, v2), n1, v1);
    forall k | k in a
      ensures a[k] == b[k]
    {
      assert Get(a, k) == Get(b, k);
    }
  }

  /** `data` is `{ ...formData, ingredientes: ing, custoAproximado: cost }`,
      field by field: those two fields are set and every other field of
      `formData` is passed through. */
  ghost predicate Overrides(formData: Record, data: Record, ing: Value, cost: Value)
  {
    && data.Keys == formData.Keys + {"ingredientes", "custoAproximado"}
    && Get(data, "ingredientes") == ing
    && Get(data, "custoAproximado") == cost
    && forall k :: k != "ingredientes" && k != "custoAproximado" ==> Get(data, k) == Get(formData, k)
  }

  lemma PatchOverrides(formData: Record, ing: Value, cost: Value)
    ensures Overrides(formData, Spread(formData, map["ingredientes" := ing, "custoAproximado" := cost]), ing, cost)
  {
    var patch := map["ingredientes" := ing, "custoAproximado" := cost];
    assert patch.Keys == {"ingredientes", "custoAproximado"};
  }

  /** The payload `updatedData` of `handleSave`: the draft with
      `ingredientes` trimmed and `custoAproximado` passed through
      `parseFloat`. Calling `trim` on an `ingredientes` that is not a
      string throws a TypeError. */
  function SavePayload(formData: Record, parseFloat: Value -> Number): (c: Completion<Record>)
    ensures c.TypeError? <==> !Get(formData, "ingredientes").Str?
    ensures c.Normal? ==> Overrides(formData, c.value,
      Str(Trim(Get(formData, "ingredientes").s)), Num(parseFloat(Get(formData, "custoAproximado"))))
  {
    match Get(formData, "ingredientes")
    case Str(ingredientes) =>
      var ing, cost := Str(Trim(ingredientes)), Num(parseFloat(Get(formData, "custoAproximado")));
      PatchOverrides(formData, ing, cost);
      Normal(Spread(formData, map["ingredientes" := ing, "custoAproximado" := cost]))
    case _ => TypeError
  }

  /** The saved ingredients have no white space at either end, and trimming
      them again changes nothing. */
  lemma SavePayloadTrimmed(formData: Record, parseFloat: Value -> Number)
    requires SavePayload(formData, parseFloat).Normal?
    ensures var saved := Get(SavePayload(formData, parseFloat).value, "ingredientes");
      && saved.Str? && NoEdgeWhitespace(saved.s) && Trim(saved.s) == saved.s
  {
    TrimIdempotent(Get(formData, "ingredientes").s);
  }

  /** A payload built from a draft has exactly the draft's six fields, so
      it carries no id. */
  lemma SavePayloadOfDraft(formData: Record, parseFloat: Value -> Number)
    requires formData.Keys == DraftKeys
    requires SavePayload(formData, parseFloat).Normal?
    ensures SavePayload(formData, parseFloat).value.Keys == DraftKeys
    ensures "id" !in SavePayload(formData, parseFloat).value
  {
    var data := SavePayload(formData, parseFloat).value;
    assert data.Keys == formData.Keys + {"ingredientes", "custoAproximado"};
    DraftKeysFacts();
  }

  /** The two fields the payload overrides are form fields, and `id` is not. */
  lemma DraftKeysFacts()
    ensures DraftKeys + {"ingredientes", "custoAproximado"} == DraftKeys
    ensures "id" !in DraftKeys
  {
  }

  /** The flags and callbacks a `Modal` instance is rendered with: whether
      it has an `onSave`, and its `isEditing` and `isCreate` flags (an
      absent flag is falsy). */
  datatype ModalProps = ModalProps(hasOnSave: bool, isEditing: bool, isCreate: bool)

  /** The call `handleSave` makes to `onSave`: `onSave(data)`,
      `onSave(receita.id, data)`, or none. */
  datatype SaveCall = NoCall | CreateCall(data: Record) | EditCall(id: Value, data: Record)

  /** `handleSave`. A normal completion means that `onClose` runs after the
      call; a TypeError leaves the handler before `onSave` and `onClose`.
      Create takes precedence over edit, and a modal with neither flag or
      without `onSave` calls nothing. */
  function HandleSave(props: ModalProps, receita: Record, formData: Record, parseFloat: Value -> Number): (c: Completion<SaveCall>)
    ensures c.TypeError? <==> props.hasOnSave && !Get(formData, "ingredientes").Str?
    ensures (c.Normal? && c.value.CreateCall?) <==>
      props.hasOnSave && props.isCreate && Get(formData, "ingredientes").Str?
    ensures (c.Normal? && c.value.EditCall?) <==>
      props.hasOnSave && !props.isCreate && props.isEditing && Get(formData, "ingredientes").Str?
    ensures c.Normal? && c.value.CreateCall? ==> c.value.data == SavePayload(formData, parseFloat).value
    ensures c.Normal? && c.value.EditCall? ==>
      c.value.id == Get(receita, "id") && c.value.data == SavePayload(formData, parseFloat).value
  {
    if !props.hasOnSave then
      Normal(NoCall)
    else
      match SavePayload(formData, parseFloat)
      case TypeError => TypeError
      case Normal(updatedData) =>
        if props.isCreate then Normal(CreateCall(updatedData))
        else if props.isEditing then Normal(EditCall(Get(receita, "id"), updatedData))
        else Normal(NoCall)
  }

  /** Whatever `parseFloat` makes of the cost (a number or NaN), a save
      whose ingredients are a string completes, so `onSave` is invoked
      and the modal closes. */
  lemma HandleSaveDoesNotThrowOnCost(props: ModalProps, receita: Record, formData: Record, parseFloat: Value -> Number)
    requires props.hasOnSave && (props.isCreate || props.isEditing)
    requires Get(formData, "ingredientes").Str?
    ensures HandleSave(props, receita, formData, parseFloat).Normal?
    ensures HandleSave(props, receita, formData, parseFloat).value != NoCall
  {
  }
}
