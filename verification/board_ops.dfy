/** The board-list transformations the `Board` component hands to `setToDos`:
    add a card, rename a board, delete a board. Each works on the previous state
    through `findIndex` on the board id and one `splice`, with the inputs from the
    form, `prompt` and `confirm` already resolved. */
module BoardOps {
  import opened Wrappers
  import opened Text
  import opened Atoms

  // ---------------------------------------------------------------------------
  // The two array primitives the operations are written with.

  predicate HasBoard(bs: seq<Board>, id: int) {
    exists i :: 0 <= i < |bs| && bs[i].id == id
  }

  /** `bs.findIndex(b => b.id === id)`: the first board with that id, or -1. */
  function FindIndex(bs: seq<Board>, id: int): (r: int)
    ensures -1 <= r < |bs|
    ensures r == -1 <==> !HasBoard(bs, id)
    ensures r >= 0 ==> bs[r].id == id && forall j :: 0 <= j < r ==> bs[j].id != id
  {
    if |bs| == 0 then -1
    else if bs[0].id == id then 0
    else
      var k := FindIndex(bs[1..], id);
      assert forall i :: 1 <= i < |bs| ==> bs[i] == bs[1..][i - 1];
      if k == -1 then -1 else k + 1
  }

  /** Where `splice` starts for a possibly negative `start` on an array of length `len`:
      negative values count back from the end, and both ends are clamped. */
  function SpliceStart(len: nat, start: int): (s: nat)
    ensures s <= len
    ensures 0 <= start <= len ==> s == start
    ensures start < 0 && len + start >= 0 ==> s == len + start
  {
    if start < 0 then (if len + start < 0 then 0 else len + start)
    else if start > len then len
    else start
  }

  /** The array left behind by `xs.splice(start, 1, ...insert)`. */
  function SpliceOne<T>(xs: seq<T>, start: int, insert: seq<T>): (r: seq<T>)
    ensures 0 <= start < |xs| ==>
              && |r| == |xs| - 1 + |insert|
              && (forall i :: 0 <= i < start ==> r[i] == xs[i])
              && (forall i :: 0 <= i < |insert| ==> r[start + i] == insert[i])
              && (forall i :: start < i < |xs| ==> r[i - 1 + |insert|] == xs[i])
    ensures start == -1 && |xs| > 0 ==> r == xs[..|xs| - 1] + insert
    ensures |xs| == 0 ==> r == insert
  {
    var s := SpliceStart(|xs|, start);
    var e := if s < |xs| then s + 1 else s;
    xs[..s] + insert + xs[e..]
  }

  // ---------------------------------------------------------------------------
  // The operations.

  /** `onValid`: a submitted card text that trims to nothing is ignored; otherwise a
      card `{id: cardId, text}` (the text as typed, untrimmed) goes at the tail of the
      first board with id `boardId`. `cardId` stands for `Date.now()`. */
  function AddCard(bs: seq<Board>, boardId: int, cardId: int, text: string): (r: seq<Board>)
    requires HasBoard(bs, boardId)
    ensures AllWhitespace(text) ==> r == bs
    ensures !AllWhitespace(text) ==>
              var k := FindIndex(bs, boardId);
              && |r| == |bs|
              && (forall i :: 0 <= i < |bs| && i != k ==> r[i] == bs[i])
              && r[k].id == bs[k].id && r[k].title == bs[k].title && r[k].isDeleted == bs[k].isDeleted
              && |r[k].toDos| == |bs[k].toDos| + 1
              && r[k].toDos[..|bs[k].toDos|] == bs[k].toDos
              && r[k].toDos[|bs[k].toDos|] == ToDo(cardId, text, None)
  {
    if Trim(text) == "" then bs
    else
      var k := FindIndex(bs, boardId);
      var board := bs[k].(toDos := bs[k].toDos + [ToDo(cardId, text, None)]);
      SpliceOne(bs, k, [board])
  }

  /** `onEdit`: `input` is what `prompt` returned (`None` when cancelled). The name is
      trimmed; an empty name or the board's current title changes nothing; otherwise
      only the title of the first board with id `boardId` becomes the trimmed name. */
  function RenameBoard(bs: seq<Board>, boardId: int, input: Option<string>): (r: seq<Board>)
    requires HasBoard(bs, boardId)
    ensures var k := FindIndex(bs, boardId);
            && |r| == |bs|
            && (forall i :: 0 <= i < |bs| && i != k ==> r[i] == bs[i])
            && r[k].id == bs[k].id && r[k].toDos == bs[k].toDos && r[k].isDeleted == bs[k].isDeleted
    ensures input.None? || AllWhitespace(input.value) ==> r == bs
    ensures input.Some? && Trim(input.value) == bs[FindIndex(bs, boardId)].title ==> r == bs
    ensures input.Some? && !AllWhitespace(input.value) ==>
              r[FindIndex(bs, boardId)].title == Trim(input.value)
  {
    match input
    case None => bs
    case Some(raw) =>
      var name := Trim(raw);
      var k := FindIndex(bs, boardId);
      if name == "" then bs
      else if name == bs[k].title then bs
      else SpliceOne(bs, k, [bs[k].(title := name)])
  }

  /** `onDelete` (after `confirm`): splices out the board at `findIndex`. For an id
      that is present this removes the first board with that id; for an absent id
      `findIndex` gives -1 and `splice(-1, 1)` removes the last board. */
  function DeleteBoard(bs: seq<Board>, boardId: int): (r: seq<Board>)
    ensures HasBoard(bs, boardId) ==>
              var k := FindIndex(bs, boardId);
              && |r| == |bs| - 1
              && (forall i :: 0 <= i < k ==> r[i] == bs[i])
              && (forall i :: k <= i < |r| ==> r[i] == bs[i + 1])
    ensures !HasBoard(bs, boardId) ==> r == (if |bs| == 0 then bs else bs[..|bs| - 1])
  {
    SpliceOne(bs, FindIndex(bs, boardId), [])
  }

  // ---------------------------------------------------------------------------
  // Invariants the operations keep.

  /** Where a board left by `DeleteBoard` sat before: boards before the removed
      index `k` stay, the later ones move down by one. */
  function Before(i: int, k: int): int {
    if i < k then i else i + 1
  }

  lemma DeleteBoardShifts(bs: seq<Board>, boardId: int) returns (k: int)
    ensures HasBoard(bs, boardId) ==> k == FindIndex(bs, boardId)
    ensures var d := DeleteBoard(bs, boardId);
            forall i :: 0 <= i < |d| ==> 0 <= Before(i, k) < |bs| && d[i] == bs[Before(i, k)]
  {
    var d := DeleteBoard(bs, boardId);
    if HasBoard(bs, boardId) {
      k := FindIndex(bs, boardId);
    } else {
      k := |bs| - 1;
      if |bs| > 0 {
        assert forall i :: 0 <= i < |d| ==> d[i] == bs[..|bs| - 1][i];
      }
    }
  }

  /** A list whose boards carry, index for index, the ids of a list with distinct
      board ids has distinct board ids too. */
  lemma SameIdsKeepUnique(bs: seq<Board>, r: seq<Board>)
    requires UniqueBoardIds(bs) && |r| == |bs|
    requires forall i :: 0 <= i < |r| ==> r[i].id == bs[i].id
    ensures UniqueBoardIds(r)
  {
    forall i, j | 0 <= i < |r| && 0 <= j < |r| && i != j
      ensures r[i].id != r[j].id
    {
      assert r[i].id == bs[i].id && r[j].id == bs[j].id;
    }
  }

  /** Adding a card keeps every board's id, index for index. */
  lemma AddCardKeepsBoardIds(bs: seq<Board>, boardId: int, cardId: int, text: string)
    requires HasBoard(bs, boardId)
    ensures var r := AddCard(bs, boardId, cardId, text);
            |r| == |bs| && forall i :: 0 <= i < |r| ==> r[i].id == bs[i].id
  {
    var r := AddCard(bs, boardId, cardId, text);
    var k := FindIndex(bs, boardId);
    forall i | 0 <= i < |r|
      ensures r[i].id == bs[i].id
    {
      if i != k {
        assert r[i] == bs[i];
      }
    }
  }

  lemma DeleteBoardKeepsBoardIdsUnique(bs: seq<Board>, boardId: int)
    requires UniqueBoardIds(bs)
    ensures UniqueBoardIds(DeleteBoard(bs, boardId))
  {
    var d := DeleteBoard(bs, boardId);
    var k := DeleteBoardShifts(bs, boardId);
    forall i, j | 0 <= i < |d| && 0 <= j < |d| && i != j
      ensures d[i].id != d[j].id
    {
      assert d[i] == bs[Before(i, k)] && d[j] == bs[Before(j, k)];
    }
  }

  /** Board ids that were distinct stay distinct under all three operations. */
  lemma OperationsKeepBoardIdsUnique(bs: seq<Board>, boardId: int, cardId: int,
                                     text: string, input: Option<string>)
    requires UniqueBoardIds(bs)
    ensures HasBoard(bs, boardId) ==> UniqueBoardIds(AddCard(bs, boardId, cardId, text))
    ensures HasBoard(bs, boardId) ==> UniqueBoardIds(RenameBoard(bs, boardId, input))
    ensures UniqueBoardIds(DeleteBoard(bs, boardId))
  {
    if HasBoard(bs, boardId) {
      AddCardKeepsBoardIds(bs, boardId, cardId, text);
      SameIdsKeepUnique(bs, AddCard(bs, boardId, cardId, text));
      RenameBoardKeepsCards(bs, boardId, input);
      SameIdsKeepUnique(bs, RenameBoard(bs, boardId, input));
    }
    DeleteBoardKeepsBoardIdsUnique(bs, boardId);
  }

  /** With unique board ids, deleting a present board leaves no board with its id. */
  lemma DeleteBoardRemovesId(bs: seq<Board>, boardId: int)
    requires UniqueBoardIds(bs) && HasBoard(bs, boardId)
    ensures !HasBoard(DeleteBoard(bs, boardId), boardId)
    ensures |DeleteBoard(bs, boardId)| == |bs| - 1
  {
    var d := DeleteBoard(bs, boardId);
    var k := FindIndex(bs, boardId);
    forall i | 0 <= i < |d|
      ensures d[i].id != boardId
    {
      var i' := if i < k then i else i + 1;
      assert d[i] == bs[i'] && i' != k;
    }
  }

  /** Adding a card with an id no card has keeps every card id unique, and the new
      card is then on the board list. */
  lemma AddCardKeepsCardIdsUnique(bs: seq<Board>, boardId: int, cardId: int, text: string)
    requires HasBoard(bs, boardId)
    requires UniqueCardIds(bs) && !HasCardId(bs, cardId)
    ensures UniqueCardIds(AddCard(bs, boardId, cardId, text))
    ensures !AllWhitespace(text) ==> HasCardId(AddCard(bs, boardId, cardId, text), cardId)
  {
    var r := AddCard(bs, boardId, cardId, text);
    if !AllWhitespace(text) {
      var k := FindIndex(bs, boardId);
      var c := ToDo(cardId, text, None);
      assert r[k].toDos == bs[k].toDos + [c] by {
        assert r[k].toDos == r[k].toDos[..|bs[k].toDos|] + [r[k].toDos[|bs[k].toDos|]];
      }
      AppendFreshCardKeepsIdsUnique(bs, r, k, c);
    }
  }

  /** Appending a card whose id is new to one board keeps every card id unique. */
  lemma AppendFreshCardKeepsIdsUnique(bs: seq<Board>, r: seq<Board>, k: int, c: ToDo)
    requires 0 <= k < |bs| && |r| == |bs|
    requires forall i :: 0 <= i < |bs| && i != k ==> r[i] == bs[i]
    requires r[k].toDos == bs[k].toDos + [c]
    requires UniqueCardIds(bs) && !HasCardId(bs, c.id)
    ensures UniqueCardIds(r) && HasCardId(r, c.id)
  {
    var added := (k, |bs[k].toDos|);
    assert IsCardPos(r, added) && CardAt(r, added) == c;
    forall p | IsCardPos(r, p) && p != added
      ensures IsCardPos(bs, p) && CardAt(r, p) == CardAt(bs, p)
    {
      if p.0 == k {
        assert r[k].toDos[p.1] == bs[k].toDos[p.1];
      }
    }
    forall p, q | IsCardPos(r, p) && IsCardPos(r, q) && p != q
      ensures CardAt(r, p).id != CardAt(r, q).id
    {
      if p != added && q != added {
        assert CardAt(r, p) == CardAt(bs, p) && CardAt(r, q) == CardAt(bs, q);
      } else if p == added {
        assert CardAt(r, q) == CardAt(bs, q);
      } else {
        assert CardAt(r, p) == CardAt(bs, p);
      }
    }
  }

  /** Renaming leaves every board's cards exactly as they were. */
  lemma RenameBoardKeepsCards(bs: seq<Board>, boardId: int, input: Option<string>)
    requires HasBoard(bs, boardId)
    ensures var r := RenameBoard(bs, boardId, input);
            forall i :: 0 <= i < |bs| ==> r[i].id == bs[i].id && r[i].toDos == bs[i].toDos
    ensures UniqueCardIds(bs) ==> UniqueCardIds(RenameBoard(bs, boardId, input))
  {
    var r := RenameBoard(bs, boardId, input);
    assert forall p :: IsCardPos(r, p) <==> IsCardPos(bs, p);
    assert forall p :: IsCardPos(r, p) ==> CardAt(r, p) == CardAt(bs, p);
  }

  /** Deleting a board keeps the remaining cards' ids unique: every card left was a
      card before, at the same place in a board that shifted by at most one. */
  lemma DeleteBoardKeepsCardIdsUnique(bs: seq<Board>, boardId: int)
    requires UniqueCardIds(bs)
    ensures UniqueCardIds(DeleteBoard(bs, boardId))
  {
    var d := DeleteBoard(bs, boardId);
    var k := DeleteBoardShifts(bs, boardId);
    forall p, q | IsCardPos(d, p) && IsCardPos(d, q) && p != q
      ensures CardAt(d, p).id != CardAt(d, q).id
    {
      var p' := (Before(p.0, k), p.1);
      var q' := (Before(q.0, k), q.1);
      assert IsCardPos(bs, p') && CardAt(d, p) == CardAt(bs, p');
      assert IsCardPos(bs, q') && CardAt(d, q) == CardAt(bs, q');
    }
  }

  /** Two boards lists whose boards carry the same ids index for index locate every
      board id at the same index. */
  lemma {:induction false} FindIndexSameIds(bs: seq<Board>, cs: seq<Board>, id: int)
    requires |bs| == |cs| && forall i :: 0 <= i < |bs| ==> bs[i].id == cs[i].id
    ensures FindIndex(bs, id) == FindIndex(cs, id)
  {
    if |bs| > 0 && bs[0].id != id {
      FindIndexSameIds(bs[1..], cs[1..], id);
    }
  }

  /** Answering the rename prompt the same way twice changes nothing the second time. */
  lemma RenameBoardIdempotent(bs: seq<Board>, boardId: int, input: Option<string>)
    requires HasBoard(bs, boardId)
    ensures var r := RenameBoard(bs, boardId, input);
            HasBoard(r, boardId) && RenameBoard(r, boardId, input) == r
  {
    var r := RenameBoard(bs, boardId, input);
    var k := FindIndex(bs, boardId);
    assert forall i :: 0 <= i < |r| && i != k ==> r[i] == bs[i];
    FindIndexSameIds(bs, r, boardId);
  }

  /** Deleting the board a card was just added to is the same as deleting it before. */
  lemma DeleteAfterAddCard(bs: seq<Board>, boardId: int, cardId: int, text: string)
    requires HasBoard(bs, boardId)
    ensures DeleteBoard(AddCard(bs, boardId, cardId, text), boardId) == DeleteBoard(bs, boardId)
  {
    var a := AddCard(bs, boardId, cardId, text);
    var k := FindIndex(bs, boardId);
    assert forall i :: 0 <= i < |a| && i != k ==> a[i] == bs[i];
    FindIndexSameIds(bs, a, boardId);
    var d := DeleteBoard(a, boardId);
    var e := DeleteBoard(bs, boardId);
    assert HasBoard(a, boardId) by {
      assert a[k].id == boardId;
    }
    forall i | 0 <= i < |d|
      ensures d[i] == e[i]
    {
      if i < k {
        assert d[i] == a[i] && e[i] == bs[i];
      } else {
        assert d[i] == a[i + 1] && e[i] == bs[i + 1];
      }
    }
  }
}
