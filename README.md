# Recipe catalog client: state logic of `App` and `Modal`

The client is one React file, `src/App.jsx`. It lists recipes ("receitas")
fetched from a REST service and lets the user view, create, edit and delete
them through modal forms. This project models the state logic under the UI
and proves properties of it:

- **Values** (`js_values.dfy`, module `JsValues`). JavaScript values as the
  client handles them. A recipe or a draft is a `Record` (`map<string,
  Value>`). The module also defines truthiness, `||`, `===`, and the object
  spread `{...a, ...b}`, which is map union with the right operand winning.
- **`trim`** (`js_trim.dfy`, module `JsTrim`). `String.prototype.trim`, with
  the white-space and line-terminator set of ECMA-262 (sections 12.2 and
  12.3). The cutting is defined for any character set, so the proofs do not
  depend on that set.
- **`Modal`** (`recipe_modal.dfy`, module `RecipeModal`). Building the draft
  `formData` from a recipe with falsy-to-default fallbacks. The keyed
  update `handleChange`. The save payload (trimmed `ingredientes`,
  `parseFloat` on `custoAproximado`). The dispatch of `handleSave`: create
  goes before edit, a modal without `onSave` or without either flag calls
  nothing, and `onClose` runs afterwards.
- **The collection** (`recipe_list.dfy`, module `RecipeList`). The edit merge
  of `handleEditReceita`: a `map` that spreads the payload over every entry
  whose id matches. The create path of `handleCreateReceita`: append the
  server's record on success, change nothing on failure. The remote service
  appears only as `Request` values the client sends and `Response` values it
  gets back.
- **`App`** (`recipe_app.dfy`, module `RecipeApp`). A class whose fields are
  the React state: `receitas` and the three modal slots `modalReceita`,
  `editReceitaData` and `createReceitaData`. Each slot is `Closed` or
  `Open(receita, formData)`, so it also holds the draft of the `Modal` it
  feeds. The methods are the open, close, change and save transitions and
  the remote calls. Each one states the whole new state: the slot it
  touches, an unchanged list and the other slots unchanged, or the list
  given by the pure functions above.

Three behaviours of `App.jsx` a reader may not expect:
- Delete never removes the card locally. `deleteReceita` only sends the
  DELETE request.
- Create is not optimistic. The record is appended only after the POST
  succeeds, and it is the server's record, not the draft. A failed POST
  changes nothing.
- `handleSave` does not always close the modal. If `ingredientes` is not a
  string, `trim` throws a TypeError. This happens before `onSave` and
  `onClose` run, so the modal stays open and nothing is sent.

## Model

| member | source | states |
|---|---|---|
| `JsValues.FalsyValues` | src/App.jsx:9-14 | ToBoolean: a value is falsy exactly when it is undefined, null, false, 0, NaN or `''`; `undefined` OR `''` is `''` |
| `JsValues.Or` | src/App.jsx:9-14 | the logical OR of `a` and `b` is `a` when `a` is truthy and `b` when `a` is falsy (so `undefined` OR `''` is `''`); it is truthy iff either operand is |
| `JsValues.StrictEqualsProperties` | src/App.jsx:184 | `===` is symmetric, implies equal values, holds for every value with itself except NaN, and never holds with NaN on either side |
| `JsValues.Spread` | src/App.jsx:184 | `{...a, ...b}` has the keys of both, takes every property of `b` and keeps every other property of `a` |
| `JsValues.SpreadIdempotent` | src/App.jsx:184 | spreading the same payload twice equals spreading it once |
| `JsTrim.TrimStart` | src/App.jsx:38 | the result is a suffix of the input, everything cut off is white space, and it does not start with white space |
| `JsTrim.TrimEnd` | src/App.jsx:38 | the result is a prefix of the input, everything cut off is white space, and it does not end with white space |
| `JsTrim.TrimWith` | src/App.jsx:38 | the trimmed string is the contiguous middle slice of the input that starts where the leading white space ends, with only white space before and after it, and has none at either end |
| `JsTrim.Trim` | src/App.jsx:38 | `s.trim()` is no longer than `s` and has no white space or line terminator at either end |
| `JsTrim.TrimStartAt` | src/App.jsx:38 | the leading cut is exactly the longest white-space prefix |
| `JsTrim.TrimEndAt` | src/App.jsx:38 | the trailing cut is exactly the longest white-space suffix |
| `JsTrim.TrimWithNoEdge` | src/App.jsx:38 | a string without edge white space is its own trim |
| `JsTrim.TrimWithEmpty` | src/App.jsx:38 | a string trims to `""` iff it is all white space |
| `JsTrim.TrimIdempotent` | src/App.jsx:38 | `trim()` leaves no edge white space, and trimming again changes nothing |
| `JsTrim.TrimExample` | src/App.jsx:38 | `"  eggs, milk  ".trim()` is `"eggs, milk"` |
| `RecipeModal.InitDraft` | src/App.jsx:8-27 | the draft has exactly the six form fields and no id; each field is the recipe's value when truthy, else `''`; the cost is the recipe's value when truthy, else `0` |
| `RecipeModal.InitDraftTruthy` | src/App.jsx:9-14 | a draft field is truthy iff the recipe's field is, and equals the recipe's value or the field's default |
| `RecipeModal.InitDraftIdempotent` | src/App.jsx:18-27 | re-initialising a draft from a draft gives the same draft |
| `RecipeModal.BlankTemplate` | src/App.jsx:207-214 | the blank template has exactly the six form fields, `''` in the five text fields and `0` as the cost |
| `RecipeModal.BlankTemplateIsDraft` | src/App.jsx:206-214 | the create button's blank template is its own draft, and every field in it holds its default |
| `RecipeModal.InitDraftExact` | src/App.jsx:9-14 | a recipe whose six form fields are all truthy is shown exactly as it is |
| `RecipeModal.HandleChange` | src/App.jsx:29-32 | the named key takes the new value, every other key is unchanged, and only that key can be added |
| `RecipeModal.HandleChangeLastWins` | src/App.jsx:31 | of two changes to the same field, the later one wins |
| `RecipeModal.HandleChangeCommute` | src/App.jsx:31 | changes to two different fields commute |
| `RecipeModal.PatchOverrides` | src/App.jsx:36-40 | `{...formData, ingredientes: x, custoAproximado: y}` has the draft's keys plus those two, holds `x` and `y` there, and passes every other field through |
| `RecipeModal.SavePayload` | src/App.jsx:36-40 | the call throws iff `ingredientes` is not a string; otherwise (the predicate `Overrides`): the keys are the draft's plus the two overridden ones, `ingredientes` is trimmed, the cost is `parseFloat` of the draft's cost, every other field (`nome`, `tipo`, `modoFazer`, `img`, ...) passes through unchanged |
| `RecipeModal.SavePayloadTrimmed` | src/App.jsx:38 | the saved ingredients have no edge white space, and trimming them again changes nothing |
| `RecipeModal.SavePayloadOfDraft` | src/App.jsx:36-40 | a payload built from a draft has exactly the six form fields and no id |
| `RecipeModal.HandleSave` | src/App.jsx:34-49 | throws iff there is an `onSave` and `ingredientes` is not a string; calls `onSave(data)` iff there is an `onSave`, `isCreate` holds and the call does not throw; calls `onSave(receita.id, data)` iff there is an `onSave`, not `isCreate`, `isEditing` holds and the call does not throw; otherwise completes without a call; a normal completion means `onClose` follows |
| `RecipeModal.HandleSaveDoesNotThrowOnCost` | src/App.jsx:34-49 | whatever `parseFloat` returns (NaN included), a save of string ingredients in create or edit mode completes and calls `onSave` |
| `RecipeList.PatchEntry` | src/App.jsx:184 | the `map` callback: an entry whose id is `===` the edited id takes every submitted field and keeps every other one; any other entry keeps its keys and every field |
| `RecipeList.EditMerge` | src/App.jsx:182-186 | same length and order; an entry whose id differs is unchanged; an entry whose id is `===` the edited id becomes `{...entry, ...updatedData}` |
| `RecipeList.EditMergeEntry` | src/App.jsx:184 | an edited entry takes each submitted field and keeps each other field; it keeps its id when the payload has none |
| `RecipeList.EditMergeKeepsIds` | src/App.jsx:183-185 | with no id in the payload, every position keeps its id |
| `RecipeList.EditMergeNoMatch` | src/App.jsx:183-185 | an edit for an id no entry has leaves the list unchanged |
| `RecipeList.EditMergeIdempotent` | src/App.jsx:180-187 | submitting the same edit twice equals submitting it once |
| `RecipeList.EditMergeAppend` | src/App.jsx:182-186 | the merge distributes over an appended entry, position by position |
| `RecipeList.AppendCreated` | src/App.jsx:189-198 | on success the list grows by exactly one: the old list is a prefix and the server's record is last; on failure the list is unchanged |
| `RecipeList.AppendCreatedMultiset` | src/App.jsx:193 | a successful create adds the server's record and removes nothing |
| `RecipeApp.PropsOf` | src/App.jsx:238-256 | only the edit and create modals have an `onSave`; only the edit modal has `isEditing`; only the create modal has `isCreate` |
| `RecipeApp.SaveCallBySlot` | src/App.jsx:238-256 | the view modal never calls `onSave`; the edit modal only calls it with the recipe's id; the create modal only calls it with the data |
| `RecipeApp.EditSaveCall` | src/App.jsx:44-45 | the edit modal's save calls `onSave(receita.id, payload)` whenever the ingredients are a string |
| `RecipeApp.EditSaveResult` | src/App.jsx:34-49 | saving an edit draft leaves non-matching entries unchanged; a matching entry keeps its id and every field outside the form, and gets the trimmed ingredients |
| `RecipeApp.CreateSaveResult` | src/App.jsx:34-49 | saving the create modal with string ingredients calls `onSave(payload)`, sends the POST of that payload, and on success the list becomes the old list followed by the server's record |
| `RecipeApp.CreateBoloExample` | src/App.jsx:189-214 | typing "Bolo" into the blank create form and saving posts a payload named "Bolo"; once the server answers with it plus an id, the list grows by exactly that card, last, titled "Bolo" with the server's id |
| `RecipeApp.MergedDraftEntry` | src/App.jsx:184 | an entry merged with a six-field payload keeps its id and its other fields, and takes the payload's ingredients |
| `RecipeApp.App.constructor` | src/App.jsx:165-168 | the initial state: an empty list and all three slots `null` |
| `RecipeApp.App.FetchData` | src/App.jsx:170-178 | one GET; its body replaces the list; a rejected GET leaves the list as it was; no slot changes |
| `RecipeApp.App.OpenView` | src/App.jsx:227 | the view slot opens on the card's recipe with a fresh draft of it; the list and the other slots are unchanged |
| `RecipeApp.App.OpenEdit` | src/App.jsx:229 | the edit slot opens on the card's recipe with a fresh draft of it; the list and the other slots are unchanged |
| `RecipeApp.App.OpenCreate` | src/App.jsx:206-214 | the create slot opens on the blank template, which is also its draft; the list and the other slots are unchanged |
| `RecipeApp.App.Close` | src/App.jsx:238-256 | `onClose` sets that slot to `null`; the list and the other two slots are unchanged |
| `RecipeApp.App.ChangeField` | src/App.jsx:29-32 | an input event changes that modal's draft by `handleChange`; its recipe, the list and the other slots are unchanged |
| `RecipeApp.App.UpdateReceita` | src/App.jsx:152-162 | sends `PATCH /receitas/{id}` with the data; it has no local effect (the method modifies nothing) |
| `RecipeApp.App.DeleteReceita` | src/App.jsx:141-150 | sends `DELETE /receitas/{id}`; it has no local effect, so the list keeps the card (the method modifies nothing) |
| `RecipeApp.App.HandleEditReceita` | src/App.jsx:180-187 | sends the PATCH and at once replaces the list by the edit merge, whatever the outcome of the PATCH; slots unchanged |
| `RecipeApp.App.HandleCreateReceita` | src/App.jsx:189-199 | sends the POST; the list becomes the append on success and is unchanged on failure; slots unchanged |
| `RecipeApp.App.Save` | src/App.jsx:34-49 | if `handleSave` throws, nothing is sent and nothing changes; otherwise the request of the chosen `onSave` call is sent, the list becomes that call's effect, that slot closes and the other slots are unchanged; an edit keeps the list's length and every position's id, because a draft never carries an id |

## Left out

- HTTP (axios, the base URL, status codes) and `console.log` /
  `console.error`. A request is a `Request` value. A response is a `Response`
  value passed in by the caller: `Resolved(body)` or `Rejected`.
- `parseFloat` is floating-point parsing. It is a parameter `parseFloat:
  Value -> Number` that the model does not interpret. Finite numbers are
  reals, so rounding and `-0` are not modelled.
- JSX rendering, CSS and the click-propagation handling are UI. The
  `disabled` flags are UI too, so the model lets the view modal's draft
  change. The view modal has no `onSave`, so such a change never reaches the
  list.
- Async timing. The POST's outcome is applied inside `Save`, before the
  modal closes. In the code it arrives later. The final state is the same,
  but overlapping requests and out-of-order responses are not modelled.
- React's hook semantics, including the early `return null` before
  `useState`. The `useEffect` on `[receita]` re-runs only when the object
  reference changes. The model has no references, so `OpenView` and
  `OpenEdit` always build a fresh draft. They differ from the code only when
  a slot that is already open is opened again on the same object.
- Property order inside an object. Records are maps.
- The collection is taken to be an array of plain objects: `FetchData`
  receives the GET body as a sequence of records. In the code, a body that
  is not an array makes `receitas.map` throw, and a `null` entry makes
  `receita.id` throw; neither failure is modelled.
- Strings are sequences of Unicode scalar values, while JavaScript strings
  are sequences of UTF-16 code units. A lone surrogate, which a JSON body can
  carry, cannot be represented. `trim` is not affected: every white-space
  code point it strips lies in the Basic Multilingual Plane.
- A `trim` property that a server object might carry. Calling `trim` on any
  value that is not a string is modelled as a TypeError.
- `RecipeApp.App.OpenView`, `RecipeApp.App.OpenEdit`: they require the
  recipe to be in `receitas`, because the buttons sit on the cards rendered
  from that list.
- `RecipeApp.App.ChangeField`: it requires an open slot and a field name
  among the six inputs. Only rendered inputs fire change events, and each
  input's `name` is one of those six.
