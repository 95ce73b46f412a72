# To-do board state: schema guard, local-storage load/save, board edits

A Dafny model of the core of a Trello-style to-do board (a React/Recoil app). The
board state is an ordered list of boards, each an ordered list of cards. The model
covers two linked pieces:

- **Loading and saving** (`src/atoms.ts`). A value read from `localStorage` is parsed
  and trusted as the board list only if the guards `instanceOfToDo`,
  `instanceOfBoard` and `instanceOfBoards` accept it. Otherwise the default state stays:
  three empty boards "To Do", "Doing" and "Done". The deleted-card and archived-card
  states only check that the parsed value is an array. Every set writes the
  stringified value back under the key it was loaded from.
- **Board edits** (`src/components/Board.tsx`). These are the callbacks handed to
  `setToDos`: add a card (`onValid`), rename a board (`onEdit`) and delete a board
  (`onDelete`). Each finds the board with `findIndex` and changes the list with one
  `splice`.

Modules:

- `Wrappers` (`wrappers.dfy`): `Option`.
- `Json` (`json.dfy`): a parsed JSON value. It holds the JavaScript operations the
  guards use: property access, `typeof`, `Array.isArray`, `constructor === Object` and
  truthiness. It also holds `DecodeAll`, the `every` walk over an array.
- `Atoms` (`atoms.dfy`): the `IToDo`/`IBoard` shapes and the three guards, each written
  conjunct for conjunct. It also has a typed decoder that succeeds exactly when the
  guard accepts, an encoder, the default state, and the id-uniqueness invariants.
- `Text` (`text.dfy`): `String.prototype.trim` with ECMAScript's white-space and
  line-terminator set.
- `BoardOps` (`board_ops.dfy`): `findIndex`, `splice` with its negative-start rule, and
  the three edits with their frame and invariant lemmas.
- `Storage` (`storage.dfy`): the three local-storage effects, their keys, loading,
  saving and the round trips.

Modelling decisions:

- `JSON.parse` is a parameter `parse: string -> Option<Json>`. `None` is the parse
  error, which the source turns into `false`. `JSON.stringify` is a parameter
  `stringify: Json -> string`. The round-trip lemmas assume only that `parse` undoes
  `stringify`.
- A JSON object is a `map<string, Json>`, because `JSON.parse` keeps the last binding
  of a repeated key. `object.constructor === Object` holds exactly for an object with
  no own `constructor` key. Such a key shadows the inherited constructor, so
  `{"id":1,"text":"a","constructor":0}` is rejected as a card.
- `Date.now()` is the parameter `cardId`. The `prompt` answer is an `Option<string>`,
  with `None` for a cancelled prompt. `confirm` is taken as accepted.
- The rendered board is taken to be the one `findIndex` locates in the current state.
  The title compared on rename is therefore that board's title.
- Add and rename require the board id to be present. With an absent id, add throws
  (spreading an undefined `toDos`). Rename would splice a title-only object over the
  last board. Delete needs no such requirement and is modelled as written: with an
  absent id, `findIndex` gives -1 and `splice(-1, 1)` removes the last board.
- Card ids come from the clock (`Date.now()`) and are not guaranteed fresh, so the
  card-id uniqueness lemma takes freshness as a hypothesis. Card moves and the delete/archive/restore
  lifecycle do not appear in these files. `DeletedCardInfo` is a type only, and the
  deleted and archived states are kept as the unexamined array elements the loaders
  accept.

## Model

| member | source | states |
|---|---|---|
| Json.DecodeAll | src/atoms.ts:73-75 | the `every` walk: decodes all elements iff each one decodes, keeping length, order and each element's decoding |
| Json.ConstructorIsObject | src/atoms.ts:55 | only an object passes `constructor === Object`, and an object with its own `constructor` key fails it |
| Json.Truthy | src/atoms.ts:99 | arrays and objects are truthy; `null`, `false`, `0` and `""` (the parse-failure `false` among them) are falsy |
| Atoms.InstanceOfToDo | src/atoms.ts:51-59 | the card guard, conjunct for conjunct; a passing value is an object with `id` and `text` fields |
| Atoms.InstanceOfBoard | src/atoms.ts:61-77 | the board guard, conjunct for conjunct; a passing value is an object with `id`, `title` and an array `toDos` |
| Atoms.InstanceOfBoards | src/atoms.ts:79-83 | the board-list guard; a passing value is an array, and the empty array passes |
| Atoms.DecodeToDo | src/atoms.ts:51-59 | decoding a card succeeds iff `instanceOfToDo` holds, and the card then carries exactly the object's numeric `id`, string `text` and boolean `isDeleted` |
| Atoms.DecodeBoard | src/atoms.ts:61-77 | decoding a board succeeds iff `instanceOfBoard` holds (plain object, numeric id, string title, array `toDos` of valid cards), and the board then matches the object field for field, cards in order |
| Atoms.DecodeBoards | src/atoms.ts:79-83 | a value decodes to a board list iff `instanceOfBoards` accepts it, and the list then matches the array element for element |
| Atoms.EncodeToDo | src/atoms.ts:10-14 | a card written as `{id, text, isDeleted?}` passes the card guard and holds exactly that card |
| Atoms.EncodeBoard | src/atoms.ts:16-21 | a board written as `{id, title, toDos, isDeleted?}` is a plain object holding exactly that board, cards in order |
| Atoms.EncodeBoards | src/atoms.ts:104-106 | the value handed to `JSON.stringify` is an array holding exactly the boards, in order |
| Atoms.DecodeEncodeToDo | src/atoms.ts:10-14 | a card written as `{id, text, isDeleted?}` decodes back to the same card |
| Atoms.DecodeEncodeBoard | src/atoms.ts:16-21 | a board written as `{id, title, toDos, isDeleted?}` decodes back to the same board |
| Atoms.EncodeBoardFields | src/atoms.ts:16-21 | a written board is a plain object whose `id`, `title`, `toDos` and `isDeleted` read back as the board's own |
| Atoms.DecodeEncodeBoards | src/atoms.ts:104-106 | every written board list passes `instanceOfBoards` and decodes back to itself |
| Atoms.GuardShapes | src/atoms.ts:51-83 | each guard in datatype terms: a card is an object without an own `constructor` with a numeric `id` and a string `text`; a board adds a string `title` and an array `toDos` whose every element is a card; a board list is an array of boards, so `[]` passes and `{}`, `null` and scalars fail |
| Atoms.ToDoGuardIgnoresExtraField | src/atoms.ts:51-59 | adding a field other than `id`, `text` or `constructor` (for example `isDeleted`) never changes the card guard's verdict |
| Atoms.OneBadCardRejectsBoard | src/atoms.ts:70-75 | one malformed card in `toDos` makes the whole board fail the guard |
| Atoms.GuardExamples | src/atoms.ts:51-83 | `[]` is accepted; `{}`, `null`, scalars, a string id, a card without text, a non-array `toDos` and a card with its own `constructor` are rejected |
| Atoms.EmptyBoardsHaveUniqueCardIds | src/atoms.ts:111-126 | boards without cards have no two cards sharing an id |
| Atoms.IndexIdsAreUnique | src/atoms.ts:111-126 | boards whose ids are their positions have distinct ids |
| Atoms.DefaultBoardsWellFormed | src/atoms.ts:109-127 | the default is three empty boards with ids 0, 1, 2 titled "To Do", "Doing", "Done"; their ids are distinct and the list passes the guard (as every encoded typed list does) |
| Text.SkipForward | src/components/Board.tsx:293 | finds where the leading white space ends: everything skipped is white space and the character found is not |
| Text.SkipBackward | src/components/Board.tsx:293 | finds where the trailing white space starts: everything skipped is white space and the character before is not |
| Text.Trim | src/components/Board.tsx:319-321 | the trimmed string is a slice of the input with white space cut from both ends only, and it is empty iff the input is all white space |
| BoardOps.FindIndex | src/components/Board.tsx:304 | gives -1 iff no board has the id, otherwise the first index whose board has it |
| BoardOps.SpliceStart | src/components/Board.tsx:308 | a start within bounds is kept, a negative one counts back from the end, and the result stays within the array |
| BoardOps.SpliceOne | src/components/Board.tsx:354 | `splice(start, 1, ...insert)` keeps the prefix, puts the inserted items at `start`, shifts the rest, and at -1 replaces the last element |
| BoardOps.AddCard | src/components/Board.tsx:292-316 | text that trims to nothing changes nothing; otherwise only the first board with the id changes, gaining `{id, text}` (text untrimmed) at the tail of its cards, with its other fields and earlier cards unchanged |
| BoardOps.RenameBoard | src/components/Board.tsx:318-346 | only the located board may change, and only its title; a cancelled or blank answer, or one that trims to the current title, changes nothing; otherwise its title becomes the trimmed answer |
| BoardOps.DeleteBoard | src/components/Board.tsx:348-361 | with the id present, removes exactly the first matching board, the others keeping their order and contents; with the id absent, removes the last board |
| BoardOps.DeleteBoardShifts | src/components/Board.tsx:354 | every board left by a delete is the board at the same index or one later, split at the removed index |
| BoardOps.SameIdsKeepUnique | src/components/Board.tsx:302-308 | a list whose board ids match a list with distinct ids index for index has distinct ids too |
| BoardOps.AddCardKeepsBoardIds | src/components/Board.tsx:302-308 | adding a card keeps the list's length and every board's id at its index |
| BoardOps.DeleteBoardKeepsBoardIdsUnique | src/components/Board.tsx:350-354 | deleting a board keeps board ids distinct |
| BoardOps.OperationsKeepBoardIdsUnique | src/components/Board.tsx:292-361 | add, rename and delete keep board ids distinct |
| BoardOps.DeleteBoardRemovesId | src/components/Board.tsx:350-354 | with distinct board ids, a deleted board's id is gone and the list is one shorter |
| BoardOps.AddCardKeepsCardIdsUnique | src/components/Board.tsx:297-307 | adding a card with an id no card has keeps all card ids distinct, and the new card is then present |
| BoardOps.AppendFreshCardKeepsIdsUnique | src/components/Board.tsx:306-308 | appending a card with a new id to one board keeps all card ids distinct and makes the card present |
| BoardOps.RenameBoardKeepsCards | src/components/Board.tsx:336-338 | renaming keeps every board's id and cards, so card ids stay distinct |
| BoardOps.DeleteBoardKeepsCardIdsUnique | src/components/Board.tsx:350-354 | deleting a board keeps the remaining card ids distinct |
| BoardOps.FindIndexSameIds | src/components/Board.tsx:304 | two lists with the same ids index for index locate every id at the same index |
| BoardOps.RenameBoardIdempotent | src/components/Board.tsx:318-346 | giving the same rename answer a second time changes nothing more |
| BoardOps.DeleteAfterAddCard | src/components/Board.tsx:348-354 | deleting the board a card was just added to equals deleting it without the card |
| Storage.LoadBoards | src/atoms.ts:85-102 | nothing stored, a parse failure or a guard rejection keeps the default; otherwise the state is exactly the parsed list, in order |
| Storage.LoadRecords | src/atoms.ts:131-148 | any parsed array becomes the state element for element, unexamined; anything else leaves `[]` |
| Storage.SaveBoards | src/atoms.ts:104-106 | the board list is written under the boards key and every other key is untouched |
| Storage.SaveRecords | src/atoms.ts:150-152 | the records are written under their own key and every other key is untouched |
| Storage.Load | src/atoms.ts:109-189 | each state reads its own key: the boards are the guarded list stored under the boards key or else the default, and the deleted and archived records are the array stored under their own key or else `[]` |
| Storage.Save | src/atoms.ts:104-182 | the three `onSet` writes combined (in the source each effect writes only when its own state is set): each state goes under its own key and every other key is untouched |
| Storage.LoadBoardsAcceptsExactlyGuarded | src/atoms.ts:99-101 | a parsed value becomes the state iff the guard accepts it |
| Storage.RecordLoadersAreWeaker | src/atoms.ts:145-147 | the record loaders accept whatever the board loader accepts, and also `[1]`, which the board loader rejects |
| Storage.BoardsRoundTrip | src/atoms.ts:88-106 | a board list that is saved and then reloaded comes back unchanged, whatever the default |
| Storage.RecordsRoundTrip | src/atoms.ts:134-152 | records saved and reloaded under one key come back unchanged |
| Storage.StateRoundTrip | src/atoms.ts:85-189 | saving all three states and loading them again gives the same three states |
| Storage.OperationsKeepStateLoadable | src/components/Board.tsx:292-361 | the result of add, rename or delete, once written, passes the guard and reloads unchanged; this follows from the typed representation, because every typed board list encodes to a guard-passing value, not from anything particular to the operations |
| Storage.OperationsPreserveGuard | src/atoms.ts:79-83 | a guard-passing list stays guard-passing after add, rename or delete; like the row above, this follows from every typed board list encoding to a guard-passing value, not from anything particular to the operations |

## Left out

- Rendering, styled components, the scroll flags (`onScroll`) and drag and drop: presentation only.
- `window.prompt`, `confirm`, `alert` and the form library are not modelled. Their results are inputs.
- `saveDataToFirestore` and `auth.currentUser` are not modelled: a remote write in a file that is not part of this model.
- `localStorage`, `JSON.parse` and `JSON.stringify` are abstract: a map of strings and two function parameters.
- Recoil atoms, effects and subscriptions are not modelled as a mechanism. Loading and saving are plain functions.
- The theme atom (`isLightState`, `matchMedia`) and the board-title/home-board atoms, which have no logic.
- Card moves and the delete/archive/restore/purge lifecycle do not appear in these files.
- JSON numbers are integers. Fractions, `NaN` and infinities are not modelled: the board model only stores integer ids from the clock.
- Atoms.DecodeBoards: the typed reading keeps only `id`, `title`, `toDos`, `text` and a boolean `isDeleted`. Any other value of `isDeleted` is dropped, since the guards never look at it, and so is any other field. The source keeps them, and the spread copies in rename and add carry them along.
- Strings are sequences of Unicode scalar values. The lone UTF-16 surrogates a JSON string can carry are not modelled.
- BoardOps.AddCard: requires the board id to be present, because the source throws when it is absent.
- BoardOps.RenameBoard: requires the board id to be present. With it absent, the source writes a title-only object over the last board, which the typed list cannot hold.
