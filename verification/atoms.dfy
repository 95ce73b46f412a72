/** The shapes of the to-do board state (`IToDo`, `IBoard`), the schema guards that
    decide whether a parsed value may be trusted as a board list, a typed decoder and
    encoder for those shapes, and the default board list. */
module Atoms {
  import opened Wrappers
  import opened Json

  /** A card (`IToDo`). */
  datatype ToDo = ToDo(id: int, text: string, isDeleted: Option<bool>)

  /** A board (`IBoard`): an ordered list of cards. */
  datatype Board = Board(id: int, title: string, toDos: seq<ToDo>, isDeleted: Option<bool>)

  // ---------------------------------------------------------------------------
  // The schema guards, conjunct for conjunct. (`object !== undefined` always holds:
  // a parsed value is never `undefined`.)

  /** `instanceOfToDo`. */
  predicate InstanceOfToDo(v: Json)
    ensures InstanceOfToDo(v) ==> v.JObject? && "id" in v.fields && "text" in v.fields
  {
    && v != JNull
    && ConstructorIsObject(v)
    && TypeOf(Field(v, "id")) == "number"
    && TypeOf(Field(v, "text")) == "string"
  }

  /** `instanceOfBoard`: the `every` over `toDos` rejects the board on one bad card. */
  predicate InstanceOfBoard(v: Json)
    ensures InstanceOfBoard(v) ==> v.JObject? && "id" in v.fields && "title" in v.fields
                                   && "toDos" in v.fields && v.fields["toDos"].JArray?
  {
    && v != JNull
    && ConstructorIsObject(v)
    && TypeOf(Field(v, "id")) == "number"
    && TypeOf(Field(v, "title")) == "string"
    && IsArray(Field(v, "toDos"))
    && var cards := Field(v, "toDos").value.items;
       forall i :: 0 <= i < |cards| ==> InstanceOfToDo(cards[i])
  }

  /** `instanceOfBoards`. */
  predicate InstanceOfBoards(v: Json)
    ensures InstanceOfBoards(v) ==> v.JArray?
    ensures v == JArray([]) ==> InstanceOfBoards(v)
  {
    && IsArray(Some(v))
    && forall i :: 0 <= i < |v.items| ==> InstanceOfBoard(v.items[i])
  }

  // ---------------------------------------------------------------------------
  // What a parsed value means as typed state.

  /** The optional `isDeleted` flag a value carries, if it is a boolean. */
  function FlagOf(v: Json): Option<bool> {
    match Field(v, "isDeleted")
    case Some(JBool(b)) => Some(b)
    case _ => None
  }

  /** `v` is an object whose fields hold exactly the card `t`. */
  predicate CardMatches(v: Json, t: ToDo) {
    && v.JObject?
    && Field(v, "id") == Some(JNumber(t.id))
    && Field(v, "text") == Some(JString(t.text))
    && FlagOf(v) == t.isDeleted
  }

  /** `v` is an object whose fields hold exactly the board `b`, cards in order. */
  predicate BoardMatches(v: Json, b: Board) {
    && v.JObject?
    && Field(v, "id") == Some(JNumber(b.id))
    && Field(v, "title") == Some(JString(b.title))
    && FlagOf(v) == b.isDeleted
    && IsArray(Field(v, "toDos"))
    && var cards := Field(v, "toDos").value.items;
       && |cards| == |b.toDos|
       && forall i :: 0 <= i < |cards| ==> CardMatches(cards[i], b.toDos[i])
  }

  /** `v` is an array whose elements hold exactly the boards `bs`, in order. */
  predicate Represents(v: Json, bs: seq<Board>) {
    && v.JArray?
    && |v.items| == |bs|
    && forall i :: 0 <= i < |bs| ==> BoardMatches(v.items[i], bs[i])
  }

  function DecodeToDo(v: Json): (r: Option<ToDo>)
    ensures r.Some? <==> InstanceOfToDo(v)
    ensures r.Some? ==> CardMatches(v, r.value)
  {
    if !ConstructorIsObject(v) then None
    else
      match (Field(v, "id"), Field(v, "text"))
      case (Some(JNumber(id)), Some(JString(text))) => Some(ToDo(id, text, FlagOf(v)))
      case _ => None
  }

  function DecodeBoard(v: Json): (r: Option<Board>)
    ensures r.Some? <==> InstanceOfBoard(v)
    ensures r.Some? ==> BoardMatches(v, r.value)
  {
    if !ConstructorIsObject(v) then None
    else
      match (Field(v, "id"), Field(v, "title"), Field(v, "toDos"))
      case (Some(JNumber(id)), Some(JString(title)), Some(JArray(cards))) =>
        (match DecodeAll(cards, DecodeToDo)
         case Some(ts) => Some(Board(id, title, ts, FlagOf(v)))
         case None => None)
      case _ => None
  }

  /** The typed board list a parsed value stands for; defined exactly when the
      guard accepts it. */
  function DecodeBoards(v: Json): (r: Option<seq<Board>>)
    ensures r.Some? <==> InstanceOfBoards(v)
    ensures r.Some? ==> Represents(v, r.value)
  {
    if v.JArray? then DecodeAll(v.items, DecodeBoard) else None
  }

  // ---------------------------------------------------------------------------
  // The value `JSON.stringify` is handed when the state is written back.

  function FlagFields(flag: Option<bool>): map<string, Json> {
    match flag
    case Some(b) => map["isDeleted" := JBool(b)]
    case None => map[]
  }

  function EncodeToDo(t: ToDo): (r: Json)
    ensures InstanceOfToDo(r) && CardMatches(r, t)
  {
    JObject(map["id" := JNumber(t.id), "text" := JString(t.text)] + FlagFields(t.isDeleted))
  }

  function EncodeBoard(b: Board): (r: Json)
    ensures ConstructorIsObject(r) && BoardMatches(r, b)
  {
    var cards := seq(|b.toDos|, i requires 0 <= i < |b.toDos| => EncodeToDo(b.toDos[i]));
    JObject(map["id" := JNumber(b.id), "title" := JString(b.title), "toDos" := JArray(cards)]
            + FlagFields(b.isDeleted))
  }

  function EncodeBoards(bs: seq<Board>): (r: Json)
    ensures Represents(r, bs)
  {
    JArray(seq(|bs|, i requires 0 <= i < |bs| => EncodeBoard(bs[i])))
  }

  lemma DecodeEncodeToDo(t: ToDo)
    ensures DecodeToDo(EncodeToDo(t)) == Some(t)
  {
  }

  /** The fields of a written board, as the guards read them. */
  lemma EncodeBoardFields(b: Board)
    ensures var v := EncodeBoard(b);
            && ConstructorIsObject(v)
            && Field(v, "id") == Some(JNumber(b.id))
            && Field(v, "title") == Some(JString(b.title))
            && Field(v, "toDos") == Some(JArray(seq(|b.toDos|, i requires 0 <= i < |b.toDos| => EncodeToDo(b.toDos[i]))))
            && FlagOf(v) == b.isDeleted
  {
  }

  lemma DecodeEncodeBoard(b: Board)
    ensures DecodeBoard(EncodeBoard(b)) == Some(b)
  {
    var v := EncodeBoard(b);
    EncodeBoardFields(b);
    var cards := Field(v, "toDos").value.items;
    forall i | 0 <= i < |cards|
      ensures DecodeToDo(cards[i]) == Some(b.toDos[i])
    {
      DecodeEncodeToDo(b.toDos[i]);
    }
    var ts := DecodeAll(cards, DecodeToDo);
    assert ts.value == b.toDos;
  }

  /** Encoding then decoding gives back every board, field and card, in order. */
  lemma DecodeEncodeBoards(bs: seq<Board>)
    ensures InstanceOfBoards(EncodeBoards(bs))
    ensures DecodeBoards(EncodeBoards(bs)) == Some(bs)
  {
    var v := EncodeBoards(bs);
    forall i | 0 <= i < |bs|
      ensures DecodeBoard(v.items[i]) == Some(bs[i])
    {
      DecodeEncodeBoard(bs[i]);
    }
    assert DecodeBoards(v).value == bs;
  }

  // ---------------------------------------------------------------------------
  // Facts about the guards.

  /** A card guard ignores every field other than `id`, `text` (and `constructor`,
      which only an object with its own such field has), so e.g. `isDeleted` is free. */
  lemma ToDoGuardIgnoresExtraField(fields: map<string, Json>, key: string, x: Json)
    requires key != "id" && key != "text" && key != "constructor"
    ensures InstanceOfToDo(JObject(fields[key := x])) <==> InstanceOfToDo(JObject(fields))
  {
  }

  /** The guards in terms of the parsed value's shape: a card is an object with no own
      `constructor`, a numeric `id` and a string `text`; a board is such an object with
      a string `title` and an array `toDos` of cards; a board list is an array of boards. */
  lemma GuardShapes(v: Json)
    ensures InstanceOfToDo(v) <==>
              && v.JObject? && "constructor" !in v.fields
              && "id" in v.fields && v.fields["id"].JNumber?
              && "text" in v.fields && v.fields["text"].JString?
    ensures InstanceOfBoard(v) <==>
              && v.JObject? && "constructor" !in v.fields
              && "id" in v.fields && v.fields["id"].JNumber?
              && "title" in v.fields && v.fields["title"].JString?
              && "toDos" in v.fields && v.fields["toDos"].JArray?
              && forall i :: 0 <= i < |v.fields["toDos"].items| ==> InstanceOfToDo(v.fields["toDos"].items[i])
    ensures InstanceOfBoards(v) <==>
              v.JArray? && forall i :: 0 <= i < |v.items| ==> InstanceOfBoard(v.items[i])
  {
  }

  /** One malformed card makes the whole board fail the guard. */
  lemma OneBadCardRejectsBoard(v: Json, i: int)
    requires IsArray(Field(v, "toDos"))
    requires 0 <= i < |Field(v, "toDos").value.items|
    requires !InstanceOfToDo(Field(v, "toDos").value.items[i])
    ensures !InstanceOfBoard(v)
  {
  }

  /** The board-list guard's verdicts on a handful of concrete values. */
  lemma GuardExamples()
    ensures InstanceOfBoards(JArray([]))
    ensures !InstanceOfBoards(JObject(map[]))
    ensures !InstanceOfBoards(JNull)
    ensures !InstanceOfBoards(JNumber(1)) && !InstanceOfBoards(JString("[]"))
    // [{"id":"x","title":"t","toDos":[]}]: the id has the wrong type
    ensures !InstanceOfBoards(JArray([JObject(map["id" := JString("x"), "title" := JString("t"),
                                                  "toDos" := JArray([])])]))
    // [{"id":1,"title":"t","toDos":[{"id":1}]}]: the card has no text
    ensures !InstanceOfBoards(JArray([JObject(map["id" := JNumber(1), "title" := JString("t"),
                                                  "toDos" := JArray([JObject(map["id" := JNumber(1)])])])]))
    // [{"id":1,"title":"t","toDos":{}}]: the cards are not an array
    ensures !InstanceOfBoards(JArray([JObject(map["id" := JNumber(1), "title" := JString("t"),
                                                  "toDos" := JObject(map[])])]))
    // [{"id":1,"text":"a","constructor":0}] as a card: an own constructor field
    ensures !InstanceOfToDo(JObject(map["id" := JNumber(1), "text" := JString("a"),
                                        "constructor" := JNumber(0)]))
  {
    var badId := JObject(map["id" := JString("x"), "title" := JString("t"), "toDos" := JArray([])]);
    assert Field(badId, "id") == Some(JString("x"));
    assert !InstanceOfBoard(JArray([badId]).items[0]);
    var noText := JObject(map["id" := JNumber(1)]);
    assert "text" !in noText.fields;
    var noTextBoard := JObject(map["id" := JNumber(1), "title" := JString("t"),
                                   "toDos" := JArray([noText])]);
    assert Field(noTextBoard, "toDos") == Some(JArray([noText]));
    assert !InstanceOfToDo(Field(noTextBoard, "toDos").value.items[0]);
    assert !InstanceOfBoard(JArray([noTextBoard]).items[0]);
    var objCards := JObject(map["id" := JNumber(1), "title" := JString("t"), "toDos" := JObject(map[])]);
    assert Field(objCards, "toDos") == Some(JObject(map[]));
    assert !InstanceOfBoard(JArray([objCards]).items[0]);
  }

  // ---------------------------------------------------------------------------
  // Identity invariants and the default state.

  predicate UniqueBoardIds(bs: seq<Board>) {
    forall i, j :: 0 <= i < |bs| && 0 <= j < |bs| && i != j ==> bs[i].id != bs[j].id
  }

  /** A card position: board index and card index within that board. */
  predicate IsCardPos(bs: seq<Board>, p: (int, int)) {
    0 <= p.0 < |bs| && 0 <= p.1 < |bs[p.0].toDos|
  }

  function CardAt(bs: seq<Board>, p: (int, int)): ToDo
    requires IsCardPos(bs, p)
  {
    bs[p.0].toDos[p.1]
  }

  /** No two cards anywhere on the board list share an id. */
  ghost predicate UniqueCardIds(bs: seq<Board>) {
    forall p, q :: IsCardPos(bs, p) && IsCardPos(bs, q) && p != q ==> CardAt(bs, p).id != CardAt(bs, q).id
  }

  /** Some card anywhere on the board list has id `id`. */
  ghost predicate HasCardId(bs: seq<Board>, id: int) {
    exists p :: IsCardPos(bs, p) && CardAt(bs, p).id == id
  }

  /** The `toDoState` default: "To Do", "Doing", "Done", all empty. */
  const DefaultBoards: seq<Board> := [
    Board(0, "To Do", [], None),
    Board(1, "Doing", [], None),
    Board(2, "Done", [], None)
  ]

  /** A list of boards without cards has no two cards sharing an id. */
  lemma EmptyBoardsHaveUniqueCardIds(bs: seq<Board>)
    requires forall i :: 0 <= i < |bs| ==> bs[i].toDos == []
    ensures UniqueCardIds(bs)
  {
  }

  /** Boards numbered by their position have distinct ids. */
  lemma IndexIdsAreUnique(bs: seq<Board>)
    requires forall i :: 0 <= i < |bs| ==> bs[i].id == i
    ensures UniqueBoardIds(bs)
  {
  }

  lemma DefaultBoardsWellFormed()
    ensures |DefaultBoards| == 3
    ensures forall i :: 0 <= i < 3 ==> DefaultBoards[i].id == i && DefaultBoards[i].toDos == []
    ensures DefaultBoards[0].title == "To Do" && DefaultBoards[1].title == "Doing"
         && DefaultBoards[2].title == "Done"
    ensures UniqueBoardIds(DefaultBoards) && UniqueCardIds(DefaultBoards)
    ensures InstanceOfBoards(EncodeBoards(DefaultBoards))
  {
    var bs := DefaultBoards;
    assert forall i :: 0 <= i < |bs| ==> bs[i].id == i && bs[i].toDos == [];
    DecodeEncodeBoards(bs);
    EmptyBoardsHaveUniqueCardIds(bs);
    IndexIdsAreUnique(bs);
  }
}
