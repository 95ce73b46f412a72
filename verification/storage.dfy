/** The three local-storage effects of the board state: on start each reads its key,
    parses it and seeds the state only when the value is acceptable (a guarded board
    list for `toDoState`, any array for the deleted and archived cards); on every set
    it writes the stringified new value back under the same key. `JSON.parse` and
    `JSON.stringify` are parameters: `parse` returns `None` where `JSON.parse` throws. */
module Storage {
  import opened Wrappers
  import opened Json
  import opened Atoms
  import opened BoardOps

  /** `localStorage` as a map from keys to stored strings. */
  type Store = map<string, string>

  const BoardsKey: string := "trello-clone-to-dos"
  const DeletedCardsKey: string := "deleted-cards"
  const ArchiveCardsKey: string := "archive-cards"

  /** `localStorage.getItem(key)`, `None` standing for `null`. */
  function GetItem(st: Store, key: string): Option<string> {
    if key in st then Some(st[key]) else None
  }

  /** The effects' `json` helper: the parsed value, or `false` when parsing throws. */
  function ParseOrFalse(parse: string -> Option<Json>, raw: string): Json {
    parse(raw).GetOr(JBool(false))
  }

  /** The value a stored string parses to; `None` when nothing is stored or the
      string does not parse. */
  function Parsed(stored: Option<string>, parse: string -> Option<Json>): Option<Json> {
    if stored.Some? then parse(stored.value) else None
  }

  /** The board-list effect's load: the state stays `default` unless a stored string
      parses to a value the board-list guard accepts, and then it is that list. */
  function LoadBoards(stored: Option<string>, parse: string -> Option<Json>, default: seq<Board>)
    : (r: seq<Board>)
    ensures stored.None? ==> r == default
    ensures stored.Some? && parse(stored.value).None? ==> r == default
    ensures Parsed(stored, parse).Some? && !InstanceOfBoards(Parsed(stored, parse).value) ==> r == default
    ensures Parsed(stored, parse).Some? && InstanceOfBoards(Parsed(stored, parse).value) ==>
              Represents(Parsed(stored, parse).value, r)
  {
    match stored
    case None => default
    case Some(raw) =>
      var v := ParseOrFalse(parse, raw);
      if Truthy(v) && InstanceOfBoards(v) then DecodeBoards(v).value else default
  }

  /** The deleted-card and archive effects' load: only `Array.isArray` is checked, so
      any parsed array is taken as it is, elements unexamined; otherwise `[]`. */
  function LoadRecords(stored: Option<string>, parse: string -> Option<Json>): (r: seq<Json>)
    ensures IsArray(Parsed(stored, parse)) ==> r == Parsed(stored, parse).value.items
    ensures !IsArray(Parsed(stored, parse)) ==> r == []
  {
    match stored
    case None => []
    case Some(raw) =>
      var v := ParseOrFalse(parse, raw);
      if Truthy(v) && IsArray(Some(v)) then v.items else []
  }

  /** The board-list effect's `onSet`: the new list, stringified, under its key. */
  function SaveBoards(st: Store, stringify: Json -> string, bs: seq<Board>): (r: Store)
    ensures GetItem(r, BoardsKey) == Some(stringify(EncodeBoards(bs)))
    ensures forall key :: key != BoardsKey ==> GetItem(r, key) == GetItem(st, key)
  {
    st[BoardsKey := stringify(EncodeBoards(bs))]
  }

  /** The deleted-card or archive effect's `onSet` under `key`. */
  function SaveRecords(st: Store, key: string, stringify: Json -> string, records: seq<Json>)
    : (r: Store)
    ensures GetItem(r, key) == Some(stringify(JArray(records)))
    ensures forall other :: other != key ==> GetItem(r, other) == GetItem(st, other)
  {
    st[key := stringify(JArray(records))]
  }

  /** The three pieces of state the effects seed. */
  datatype State = State(boards: seq<Board>, deleted: seq<Json>, archived: seq<Json>)

  /** Every effect loads from its own key; the boards fall back to the default list. */
  function Load(st: Store, parse: string -> Option<Json>): (s: State)
    ensures BoardsKey !in st ==> s.boards == DefaultBoards
    ensures DeletedCardsKey !in st ==> s.deleted == []
    ensures ArchiveCardsKey !in st ==> s.archived == []
    ensures var p := Parsed(GetItem(st, BoardsKey), parse);
            p.Some? && InstanceOfBoards(p.value) ==> Represents(p.value, s.boards)
    ensures var p := Parsed(GetItem(st, BoardsKey), parse);
            p.None? || !InstanceOfBoards(p.value) ==> s.boards == DefaultBoards
    ensures var p := Parsed(GetItem(st, DeletedCardsKey), parse);
            (IsArray(p) ==> s.deleted == p.value.items) && (!IsArray(p) ==> s.deleted == [])
    ensures var p := Parsed(GetItem(st, ArchiveCardsKey), parse);
            (IsArray(p) ==> s.archived == p.value.items) && (!IsArray(p) ==> s.archived == [])
  {
    State(LoadBoards(GetItem(st, BoardsKey), parse, DefaultBoards),
          LoadRecords(GetItem(st, DeletedCardsKey), parse),
          LoadRecords(GetItem(st, ArchiveCardsKey), parse))
  }

  /** The three `onSet` writes together, each under the key its effect loads from.
      In the source each effect writes only when its own state is set. */
  function Save(st: Store, stringify: Json -> string, s: State): (r: Store)
    ensures GetItem(r, BoardsKey) == Some(stringify(EncodeBoards(s.boards)))
    ensures GetItem(r, DeletedCardsKey) == Some(stringify(JArray(s.deleted)))
    ensures GetItem(r, ArchiveCardsKey) == Some(stringify(JArray(s.archived)))
    ensures forall key :: key != BoardsKey && key != DeletedCardsKey && key != ArchiveCardsKey ==>
              GetItem(r, key) == GetItem(st, key)
  {
    var st1 := SaveBoards(st, stringify, s.boards);
    var st2 := SaveRecords(st1, DeletedCardsKey, stringify, s.deleted);
    SaveRecords(st2, ArchiveCardsKey, stringify, s.archived)
  }

  /** `parse` undoes `stringify`, as `JSON.parse` undoes `JSON.stringify` on these shapes. */
  ghost predicate ParseUndoesStringify(parse: string -> Option<Json>, stringify: Json -> string) {
    forall v :: parse(stringify(v)) == Some(v)
  }

  // ---------------------------------------------------------------------------
  // Properties of loading and saving.

  /** What the guard accepts is exactly a list that decodes, and the loaded state is
      that list: loading accepts a board list iff it passes `instanceOfBoards`. */
  lemma LoadBoardsAcceptsExactlyGuarded(raw: string, parse: string -> Option<Json>, default: seq<Board>)
    requires parse(raw).Some?
    ensures InstanceOfBoards(parse(raw).value) ==>
              LoadBoards(Some(raw), parse, default) == DecodeBoards(parse(raw).value).value
    ensures !InstanceOfBoards(parse(raw).value) ==> LoadBoards(Some(raw), parse, default) == default
  {
  }

  /** The record loaders check less than the board loader: whatever the board loader
      accepts they accept too, but they also take an array the board guard rejects. */
  lemma RecordLoadersAreWeaker(stored: Option<string>, parse: string -> Option<Json>)
    ensures Parsed(stored, parse).Some? && InstanceOfBoards(Parsed(stored, parse).value) ==>
              LoadRecords(stored, parse) == Parsed(stored, parse).value.items
    ensures var p := (raw: string) => Some(JArray([JNumber(1)]));
            && LoadRecords(Some("[1]"), p) == [JNumber(1)]
            && LoadBoards(Some("[1]"), p, DefaultBoards) == DefaultBoards
  {
    var p := (raw: string) => Some(JArray([JNumber(1)]));
    assert !InstanceOfBoard(JArray([JNumber(1)]).items[0]);
  }

  /** A board list written by `onSet` and read back by the effect is the same list,
      whatever the default is. */
  lemma BoardsRoundTrip(st: Store, parse: string -> Option<Json>, stringify: Json -> string,
                        bs: seq<Board>, default: seq<Board>)
    requires ParseUndoesStringify(parse, stringify)
    ensures LoadBoards(GetItem(SaveBoards(st, stringify, bs), BoardsKey), parse, default) == bs
  {
    DecodeEncodeBoards(bs);
    assert parse(stringify(EncodeBoards(bs))) == Some(EncodeBoards(bs));
  }

  /** Records written and read back under one key are the same records. */
  lemma RecordsRoundTrip(st: Store, key: string, parse: string -> Option<Json>,
                         stringify: Json -> string, records: seq<Json>)
    requires ParseUndoesStringify(parse, stringify)
    ensures LoadRecords(GetItem(SaveRecords(st, key, stringify, records), key), parse) == records
  {
    assert parse(stringify(JArray(records))) == Some(JArray(records));
  }

  /** Saving the whole state and loading it again gives the same state. */
  lemma StateRoundTrip(st: Store, parse: string -> Option<Json>, stringify: Json -> string, s: State)
    requires ParseUndoesStringify(parse, stringify)
    ensures Load(Save(st, stringify, s), parse) == s
  {
    var st1 := SaveBoards(st, stringify, s.boards);
    var st2 := SaveRecords(st1, DeletedCardsKey, stringify, s.deleted);
    var st3 := SaveRecords(st2, ArchiveCardsKey, stringify, s.archived);
    assert GetItem(st3, BoardsKey) == GetItem(st1, BoardsKey);
    BoardsRoundTrip(st, parse, stringify, s.boards, DefaultBoards);
    assert GetItem(st3, DeletedCardsKey) == GetItem(st2, DeletedCardsKey);
    RecordsRoundTrip(st1, DeletedCardsKey, parse, stringify, s.deleted);
    RecordsRoundTrip(st2, ArchiveCardsKey, parse, stringify, s.archived);
  }

  /** Whatever board list an operation produces passes the guard once written, and
      the effect reloads it unchanged: the written state is always reloadable. */
  lemma OperationsKeepStateLoadable(st: Store, parse: string -> Option<Json>, stringify: Json -> string,
                                    bs: seq<Board>, boardId: int, cardId: int, text: string,
                                    input: Option<string>)
    requires ParseUndoesStringify(parse, stringify)
    requires HasBoard(bs, boardId)
    ensures var added := AddCard(bs, boardId, cardId, text);
            && InstanceOfBoards(EncodeBoards(added))
            && LoadBoards(GetItem(SaveBoards(st, stringify, added), BoardsKey), parse, DefaultBoards) == added
    ensures var renamed := RenameBoard(bs, boardId, input);
            && InstanceOfBoards(EncodeBoards(renamed))
            && LoadBoards(GetItem(SaveBoards(st, stringify, renamed), BoardsKey), parse, DefaultBoards) == renamed
    ensures var deleted := DeleteBoard(bs, boardId);
            && InstanceOfBoards(EncodeBoards(deleted))
            && LoadBoards(GetItem(SaveBoards(st, stringify, deleted), BoardsKey), parse, DefaultBoards) == deleted
  {
    var added := AddCard(bs, boardId, cardId, text);
    var renamed := RenameBoard(bs, boardId, input);
    var deleted := DeleteBoard(bs, boardId);
    DecodeEncodeBoards(added);
    DecodeEncodeBoards(renamed);
    DecodeEncodeBoards(deleted);
    BoardsRoundTrip(st, parse, stringify, added, DefaultBoards);
    BoardsRoundTrip(st, parse, stringify, renamed, DefaultBoards);
    BoardsRoundTrip(st, parse, stringify, deleted, DefaultBoards);
  }

  /** A loaded board list that passed the guard still does after any operation: its
      typed reading, changed and written back, passes `instanceOfBoards` again. */
  lemma OperationsPreserveGuard(v: Json, boardId: int, cardId: int, text: string, input: Option<string>)
    requires InstanceOfBoards(v)
    ensures var bs := DecodeBoards(v).value;
            && InstanceOfBoards(EncodeBoards(DeleteBoard(bs, boardId)))
            && (HasBoard(bs, boardId) ==>
                  && InstanceOfBoards(EncodeBoards(AddCard(bs, boardId, cardId, text)))
                  && InstanceOfBoards(EncodeBoards(RenameBoard(bs, boardId, input))))
  {
    var bs := DecodeBoards(v).value;
    DecodeEncodeBoards(DeleteBoard(bs, boardId));
    if HasBoard(bs, boardId) {
      DecodeEncodeBoards(AddCard(bs, boardId, cardId, text));
      DecodeEncodeBoards(RenameBoard(bs, boardId, input));
    }
  }
}
