/** The recipe collection `receitas` and the two ways `App` rewrites it
    locally: the edit merge of `handleEditReceita` and the append of
    `handleCreateReceita`. The remote service appears only as the requests
    the client sends and the responses it gets back. */
module RecipeList {
  import opened JsValues

  /** What came back for a request: the response body, or a rejection
      (a network error or a non-success status). */
  datatype Response<T> = Resolved(data: T) | Rejected

  /** A request to the remote service, with the id in its path and the
      body it carries. */
  datatype Request =
    | NoRequest
    | GetAll
    | Post(body: Record)
    | Patch(id: Value, body: Record)
    | Delete(id: Value)

  /** `receita.id === id`: the entry the edit is for. */
  predicate HasId(receita: Record, id: Value)
  {
    StrictEquals(Get(receita, "id"), id)
  }

  /** The callback of the `map` in `handleEditReceita`:
      `receita.id === id ? { ...receita, ...updatedData } : receita`. */
  function PatchEntry(receita: Record, id: Value, updatedData: Record): (r: Record)
    ensures r.Keys == if HasId(receita, id) then receita.Keys + updatedData.Keys else receita.Keys
    ensures forall k :: Get(r, k) == (if HasId(receita, id) && k in updatedData then updatedData[k] else Get(receita, k))
  {
    if HasId(receita, id) then Spread(receita, updatedData) else receita
  }

  /** The list `handleEditReceita` puts in place of `receitas`: same length
      and order, every entry with the edited id overlaid with the submitted
      fields, every other entry as it was. */
  function EditMerge(receitas: seq<Record>, id: Value, updatedData: Record): (merged: seq<Record>)
    ensures |merged| == |receitas|
    ensures forall i :: 0 <= i < |receitas| && !HasId(receitas[i], id) ==> merged[i] == receitas[i]
    ensures forall i :: 0 <= i < |receitas| && HasId(receitas[i], id) ==> merged[i] == Spread(receitas[i], updatedData)
  {
    if receitas == [] then []
    else [PatchEntry(receitas[0], id, updatedData)] + EditMerge(receitas[1..], id, updatedData)
  }

  /** Field by field, an edited entry takes each submitted field and keeps
      every other one; in particular it keeps its id when the payload has
      none, as no payload built by the modal does. */
  lemma EditMergeEntry(receitas: seq<Record>, id: Value, updatedData: Record, i: nat, k: string)
    requires i < |receitas| && HasId(receitas[i], id)
    ensures Get(EditMerge(receitas, id, updatedData)[i], k) ==
      if k in updatedData then updatedData[k] else Get(receitas[i], k)
    ensures "id" !in updatedData ==> HasId(EditMerge(receitas, id, updatedData)[i], id)
  {
  }

  /** Without an id in the payload, the merge changes no entry's id, so the
      list still has the same ids in the same order. */
  lemma EditMergeKeepsIds(receitas: seq<Record>, id: Value, updatedData: Record)
    requires "id" !in updatedData
    ensures forall i :: 0 <= i < |receitas| ==>
      Get(EditMerge(receitas, id, updatedData)[i], "id") == Get(receitas[i], "id")
  {
  }

  /** An edit for an id no entry has leaves the list as it was. */
  lemma EditMergeNoMatch(receitas: seq<Record>, id: Value, updatedData: Record)
    requires forall i :: 0 <= i < |receitas| ==> !HasId(receitas[i], id)
    ensures EditMerge(receitas, id, updatedData) == receitas
  {
  }

  /** Submitting the same edit twice has the effect of submitting it once. */
  lemma EditMergeIdempotent(receitas: seq<Record>, id: Value, updatedData: Record)
    ensures EditMerge(EditMerge(receitas, id, updatedData), id, updatedData) == EditMerge(receitas, id, updatedData)
  {
    var once := EditMerge(receitas, id, updatedData);
    var twice := EditMerge(once, id, updatedData);
    forall i | 0 <= i < |receitas|
      ensures twice[i] == once[i]
    {
      if HasId(receitas[i], id) {
        SpreadIdempotent(receitas[i], updatedData);
      }
    }
  }

  /** The edit merge works entry by entry: merging a list that ends in a
      freshly created recipe is merging the rest and patching that one. */
  lemma {:induction false} EditMergeAppend(receitas: seq<Record>, created: Record, id: Value, updatedData: Record)
    ensures EditMerge(receitas + [created], id, updatedData) ==
      EditMerge(receitas, id, updatedData) + [PatchEntry(created, id, updatedData)]
  {
    if receitas != [] {
      assert (receitas + [created])[1..] == receitas[1..] + [created];
      EditMergeAppend(receitas[1..], created, id, updatedData);
    }
  }

  /** The list after the create request of `handleCreateReceita` settles:
      on success the record the server returned is appended, on failure the
      list is left as it was. */
  function AppendCreated(receitas: seq<Record>, response: Response<Record>): (next: seq<Record>)
    ensures response.Rejected? ==> next == receitas
    ensures response.Resolved? ==>
      && |next| == |receitas| + 1
      && next[..|receitas|] == receitas
      && next[|receitas|] == response.data
  {
    match response
    case Resolved(created) => receitas + [created]
    case Rejected => receitas
  }

  /** A successful create adds exactly one recipe, the server's, to the
      collection; nothing is removed or duplicated. */
  lemma AppendCreatedMultiset(receitas: seq<Record>, response: Response<Record>)
    requires response.Resolved?
    ensures multiset(AppendCreated(receitas, response)) == multiset(receitas) + multiset{response.data}
  {
    assert AppendCreated(receitas, response) == receitas + [response.data];
  }
}
