# Document state engine of a visual document composer

This project models, in Dafny, the state engine of a small document composer
written in TypeScript. Users place text, image, shape, table and template
blocks on a page. Templates nest further blocks to any depth. All edits go
through one store that keeps:

- the top-level element sequence;
- the selected element, held by value and matched by `id`;
- the title and the paper format (A4, A3, letter, legal);
- a snapshot history of two stacks, `past` and `future`;
- the flags `canUndo` and `canRedo`.

Every add, update, remove or move that the store carries out pushes the
pre-edit element sequence onto `past` and empties `future`. Some edits are not
carried out and change nothing, history included: an add of an unknown type,
an add of a table whose grid raises, and a move of an id no element has. An
update or remove of an absent id is still recorded. With a non-empty stack,
`undo` and `redo` move one snapshot between the two stacks and clear the
selection. With an empty stack they change nothing.

The model is in five modules, one file each:

- `types.dfy` (`Types`): the element data model. It has one `Element`
  constructor per variant. A template holds a `seq<Element>`, so elements
  are trees.
- `factory.dfy` (`ElementFactory`): `CreateNewElement`, the per-kind
  defaults.
- `elementlist.dfy` (`ElementList`): what the store does to the top-level
  sequence: replace by id (`map`), remove by id (`filter`), `findIndex`,
  and move one element.
- `documentmodel.dfy` (`DocumentModel`): the document state as a value,
  with one function per store action. The undo/redo laws are proved here.
- `store.dfy` (`Store`): the store as a class. Its methods overwrite its
  fields the way the store's `set` calls do. Each method is proved to end in
  the state the matching `DocumentModel` function gives.

Element ids are a `freshId` argument that the caller supplies; they stand in
for the UUID generator. Positions and deltas are integers.

Where the code does something a reader might not expect, the model follows the code:

- A row or column count of `0` falls back to 3, like an absent one, because
  the code reads `options.rows || 3`.
- A negative count, or one above 2^32 - 1, makes `Array(n)` raise a
  RangeError. The add then changes nothing and the error reaches the caller.
- Top-level ids are not kept unique by the store itself. An update may put
  in an element with a different id. `ActionsKeepUniqueIds` proves that ids
  stay unique when every added id is fresh and every update keeps its id.
- The selection is a copy of an element, not a reference to it. An update,
  move or remove looks only at the selected copy's id.
- Table grids are not kept rows x columns by the store. Only the factory
  builds them that way.

`Store.RemoveUndoRedoSession` is a usage example of the class contracts. It
adds, selects and removes a text element, then undoes and redoes the
removal. Finally it adds an unknown type, which changes nothing.

## Model

| member | source | states |
|---|---|---|
| Types.PaperFormatValue | src/types/index.ts:1-6 | each paper format has its own string, and that string parses back to the same format |
| Types.ParsePaperFormat | src/types/index.ts:1-6 | a string names a paper format iff it is one of "a4", "a3", "letter", "legal" |
| Types.KindTag | src/types/index.ts:27-87 | the `type` tag of each of the five variants parses back to that variant |
| Types.ParseKind | src/store/documentStore.ts:171-256 | a `type` string names an element kind iff it is one of the five tags |
| Types.ParseKindExact | src/types/index.ts:87 | a string parses to a kind exactly when it is that kind's tag, so tags and kinds correspond one to one |
| Types.TypeTag | src/types/index.ts:18-24 | every element carries one of the five tags, and the tag names its own variant |
| Types.Count | src/types/index.ts:77-85 | an element tree, templates included, has at least one element |
| Types.CountAll | src/types/index.ts:77-85 | a forest has at least as many elements as it has top-level trees |
| Types.CountAllAppend | src/types/index.ts:77-85 | the element count of two forests joined is the sum of their counts |
| ElementFactory.OrDefault | src/store/documentStore.ts:218-219 | a count option read with the or-operator is the given count when present and non-zero, otherwise the default; it is never 0 when the default is not |
| ElementFactory.Grid | src/store/documentStore.ts:220-222 | the new table grid has `rows` rows of `columns` cells, each cell exactly "Click to edit" |
| ElementFactory.CreateNewElement | src/store/documentStore.ts:167-258 | an unknown type yields no element. A table with an impossible count raises. Any other element gets the given id, position (100,100), a size and the requested tag. A table's grid is rows x columns of "Click to edit", and its size is 400 x rows*40 |
| ElementFactory.CreateNewElementDefaults | src/store/documentStore.ts:206-246 | shapeType defaults to rectangle. Rows and columns default to 3 when absent or 0. templateType defaults to content. Template children default to empty |
| ElementFactory.TwoByFourTable | src/store/documentStore.ts:217-231 | a 2 x 4 table has 2 rows of 4 "Click to edit" cells and is 80 high |
| ElementFactory.NegativeRowsRaise | src/store/documentStore.ts:218-220 | a table with -1 rows raises instead of building an element |
| ElementList.ReplaceById | src/store/documentStore.ts:66-68 | every element with the id becomes the new element; every other element keeps its value and place; the length is kept |
| ElementList.ReplaceAbsentId | src/store/documentStore.ts:66-68 | replacing an id that no element has leaves the sequence as it was |
| ElementList.ReplaceKeepsUniqueIds | src/store/documentStore.ts:66-68 | replacing by an element with the same id keeps top-level ids unique |
| ElementList.RemoveById | src/store/documentStore.ts:84 | an element survives iff it was there and has another id; no element with the id is left |
| ElementList.RemoveByIdAppend | src/store/documentStore.ts:84 | removal distributes over concatenation, so the kept elements stay in order |
| ElementList.RemoveAbsentId | src/store/documentStore.ts:84 | removing an id that no element has leaves the sequence as it was |
| ElementList.RemoveSoleMatch | src/store/documentStore.ts:84 | when only element i has the id, removal cuts out exactly element i |
| ElementList.RemoveKeepsUniqueIds | src/store/documentStore.ts:84 | removal keeps top-level ids unique |
| ElementList.FindIndex | src/store/documentStore.ts:97-99 | the result is -1 iff no element has the id; otherwise it is the index of the first element with the id |
| ElementList.Moved | src/store/documentStore.ts:101-109 | the moved copy's position differs from the original's by exactly the delta, and every other field is the original's |
| ElementList.MoveKeepsOthers | src/store/documentStore.ts:101-109 | moving element i keeps the length, its id and every other element, and keeps ids unique |
| DocumentModel.Record | src/store/documentStore.ts:52-57 | a recorded edit pushes the pre-edit elements onto past, empties future, sets canUndo and clears canRedo, and keeps the title and format |
| DocumentModel.SetTitle | src/store/documentStore.ts:40 | only the title changes |
| DocumentModel.SetPaperFormat | src/store/documentStore.ts:42 | only the paper format changes |
| DocumentModel.SetSelectedElement | src/store/documentStore.ts:124 | only the selection changes |
| DocumentModel.AddElement | src/store/documentStore.ts:44-60 | an unknown type, or a table that raises, changes nothing. Otherwise exactly one element is appended: the one the factory built, with the fresh id. It is selected, the old elements stay a prefix, and the edit is recorded |
| DocumentModel.AddTwoByFourTable | src/store/documentStore.ts:44-60 | adding a table with 2 rows and 4 columns appends and selects a table of 2 rows of 4 "Click to edit" cells, 400 x 80 |
| DocumentModel.UpdateElement | src/store/documentStore.ts:62-78 | elements with the id become the new element and the others stay in order. An absent id leaves the elements alone but is still recorded. The selection becomes the new element iff the selected id was the id |
| DocumentModel.RemoveElement | src/store/documentStore.ts:80-93 | the elements are the filtered sequence: exactly the elements with the id go, and the survivors keep their order and multiplicity (RemoveByIdAppend). The selection clears iff the selected id was the id. The edit is always recorded |
| DocumentModel.MoveElement | src/store/documentStore.ts:95-122 | an absent id changes nothing, history and flags included. Otherwise only the first match's position moves by the delta, and every other field and element stays. A selected element with the id becomes the moved one. The edit is recorded |
| DocumentModel.Undo | src/store/documentStore.ts:126-144 | with an empty past nothing changes. Otherwise the newest past snapshot becomes the elements and past shrinks by it. The old elements go to the front of future, the selection clears, and the flags keep tracking the stacks |
| DocumentModel.Redo | src/store/documentStore.ts:146-164 | with an empty future nothing changes. Otherwise the first future snapshot becomes the elements and the old elements go on top of past. The selection clears, and the flags keep tracking the stacks |
| DocumentModel.UndoThenRedo | src/store/documentStore.ts:126-164 | undo then redo restores elements, both stacks, both flags, title and format; only the selection is cleared |
| DocumentModel.RedoThenUndo | src/store/documentStore.ts:126-164 | redo then undo restores elements, both stacks, both flags, title and format; only the selection is cleared |
| DocumentModel.EditTruncatesRedo | src/store/documentStore.ts:44-122 | each content edit either changes nothing or records history and empties future. After a recorded edit a redo does nothing. Every edit keeps the flags tracking the stacks |
| DocumentModel.UndoThenEditThenRedo | src/store/documentStore.ts:126-164 | after an undo and a recorded edit, canRedo is false and redo changes nothing |
| DocumentModel.ApplyAllHistory | src/store/documentStore.ts:44-122 | a run of edits keeps the old past as a prefix and pushes one snapshot per recorded edit, the first being the pre-run elements. After any recorded edit future is empty. A run that records nothing changes nothing |
| DocumentModel.UndoTimesRestores | src/store/documentStore.ts:126-144 | k undos bring back the k-th newest snapshot, leave the older ones as past, clear the selection and keep title and format |
| DocumentModel.RedoTimesAfterUndoTimes | src/store/documentStore.ts:126-164 | k redos after k undos restore the whole state except the selection |
| DocumentModel.UndoAllEdits | src/store/documentStore.ts:44-144 | after any run of edits, one undo per recorded edit brings back the elements and the past from before the run |
| DocumentModel.RedoAllEdits | src/store/documentStore.ts:44-164 | from a state whose flags track its stacks, as many redos after those undos bring back the elements and the whole history the run ended with |
| DocumentModel.RemoveTakesSubtree | src/store/documentStore.ts:80-93 | removing a uniquely identified element (a template with all its descendants) takes away exactly its tree's element count in one recorded step, and one undo brings every one of them back |
| DocumentModel.ActionsKeepUniqueIds | src/store/documentStore.ts:44-164 | if every snapshot has unique top-level ids, so does every snapshot after undo, after redo, and after an add with a fresh id, an id-keeping update, a remove or a move |
| Store.DocumentStore.constructor | src/store/documentStore.ts:28-38 | a new store has title "Untitled Document", no elements, no selection, A4, empty history and both flags false |
| Store.DocumentStore.SetTitle | src/store/documentStore.ts:40 | only the title field changes |
| Store.DocumentStore.SetPaperFormat | src/store/documentStore.ts:42 | only the paper format field changes |
| Store.DocumentStore.SetSelectedElement | src/store/documentStore.ts:124 | only the selection field changes |
| Store.DocumentStore.AddElement | src/store/documentStore.ts:44-60 | the fields end as DocumentModel.AddElement says; `threw` holds iff the table grid raised |
| Store.DocumentStore.UpdateElement | src/store/documentStore.ts:62-78 | the fields end as DocumentModel.UpdateElement says and the flags track the stacks |
| Store.DocumentStore.RemoveElement | src/store/documentStore.ts:80-93 | the fields end as DocumentModel.RemoveElement says and the flags track the stacks |
| Store.DocumentStore.MoveElement | src/store/documentStore.ts:95-122 | the fields end as DocumentModel.MoveElement says, with the indexed replace done on a copy |
| Store.DocumentStore.Undo | src/store/documentStore.ts:126-144 | the fields end as DocumentModel.Undo says (pop from a copy of past) |
| Store.DocumentStore.Redo | src/store/documentStore.ts:146-164 | the fields end as DocumentModel.Redo says (shift from a copy of future) |

## Left out

- The UUID generator is not modelled. A new element's id is a caller-supplied `freshId`. Uniqueness is proved only under the assumption that this id is fresh.
- The state container library (`create`, `set`, `get`) is not modelled. Each action is one method that overwrites the fields.
- Store.DocumentStore.AddElement: the RangeError is reported through the `threw` result instead of being thrown.
- Positions, deltas, opacity and rotation are integers. Floating-point arithmetic is not modelled.
- Style maps are one typed record per variant. Keys outside the typed interfaces are not modelled.
- Options are typed. An option of the wrong type is not modelled, nor a falsy one of the right type such as an empty `shapeType` string. Neither can reach the store from its callers.
- ElementFactory.CreateNewElement: counts are integers, so a non-integer row or column count, which also makes `Array(n)` raise, is not modelled.
- The `DocumentSettings` and `Template` interfaces (src/types/index.ts:89-100) are not used by the store and are not modelled.
- The React components, drag-and-drop, PDF export and paper-size CSS are presentation and foreign-library code. They only call the store's actions.
- The table cell edit in src/components/elements/TableElement.tsx mutates a row shared with history snapshots. A value model cannot show this aliasing.
