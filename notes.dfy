/** The note entity and the three rewrites the application applies to its
    list of notes: removing by id, replacing by id and moving by id. Each is
    what the component's filter / map callbacks compute over the list. */
module Notes {
  import opened Layout

  /** An attached image: none, a file picked in the form, or the URL string a
      note loaded from the store carries. */
  datatype Image = NoImage | Upload(fileName: string) | Url(url: string)

  /** One note on the canvas. The id is the creation timestamp. */
  datatype Note = Note(
    id: int,
    x: int,
    y: int,
    title: string,
    description: string,
    tags: string,
    date: Date,
    image: Image)

  /** A fresh draft placed at (x, y): all text empty, no date, no image. */
  function Draft(x: int, y: int, id: int): (n: Note)
    ensures n.id == id && n.x == x && n.y == y
    ensures n.title == "" && n.description == "" && n.tags == ""
    ensures n.date == NoDate && n.image == NoImage
  {
    Note(id, x, y, "", "", "", NoDate, NoImage)
  }

  /** No two notes in the list share an id. */
  ghost predicate UniqueIds(notes: seq<Note>)
  {
    forall i, j :: 0 <= i < |notes| && 0 <= j < |notes| && i != j ==> notes[i].id != notes[j].id
  }

  /** Some note in the list has the given id. */
  predicate HasId(notes: seq<Note>, id: int)
  {
    exists i :: 0 <= i < |notes| && notes[i].id == id
  }

  // ---------------------------------------------------------------------------
  // Delete: filter out by id
  // ---------------------------------------------------------------------------

  /** The notes whose id differs from id, in their original order. */
  function Without(notes: seq<Note>, id: int): (r: seq<Note>)
    ensures forall n :: n in r <==> n in notes && n.id != id
    ensures |r| <= |notes|
    ensures !HasId(notes, id) ==> r == notes
    ensures HasId(notes, id) ==> |r| < |notes|
  {
    if notes == [] then []
    else if notes[0].id == id then Without(notes[1..], id)
    else
      assert HasId(notes[1..], id) ==> HasId(notes, id) by {
        if HasId(notes[1..], id) {
          var i :| 0 <= i < |notes[1..]| && notes[1..][i].id == id;
          assert notes[i + 1].id == id;
        }
      }
      [notes[0]] + Without(notes[1..], id)
  }

  /** Filtering distributes over concatenation; together with the one-note
      cases this pins Without down as an order-preserving filter. */
  lemma {:induction false} WithoutAppend(a: seq<Note>, b: seq<Note>, id: int)
    ensures Without(a + b, id) == Without(a, id) + Without(b, id)
  {
    if a == [] {
      assert a + b == b;
    } else {
      assert (a + b)[1..] == a[1..] + b;
      WithoutAppend(a[1..], b, id);
    }
  }

  /** Deleting twice is deleting once. */
  lemma WithoutIdempotent(notes: seq<Note>, id: int)
    ensures Without(Without(notes, id), id) == Without(notes, id)
  {
  }

  /** Deleting a note that was just appended gives back the earlier list with
      that id removed. */
  lemma WithoutAppended(notes: seq<Note>, n: Note)
    ensures Without(notes + [n], n.id) == Without(notes, n.id)
  {
    WithoutAppend(notes, [n], n.id);
    assert Without([n], n.id) == Without([], n.id);
  }

  /** Deleting keeps ids unique. */
  lemma {:induction false} WithoutKeepsUniqueIds(notes: seq<Note>, id: int)
    requires UniqueIds(notes)
    ensures UniqueIds(Without(notes, id))
  {
    if notes != [] {
      var tail := notes[1..];
      assert UniqueIds(tail) by {
        forall i, j | 0 <= i < |tail| && 0 <= j < |tail| && i != j
          ensures tail[i].id != tail[j].id
        {
          assert tail[i] == notes[i + 1] && tail[j] == notes[j + 1];
        }
      }
      WithoutKeepsUniqueIds(tail, id);
      if notes[0].id != id {
        var r := Without(notes, id);
        assert r == [notes[0]] + Without(tail, id);
        forall m | m in Without(tail, id) ensures m.id != notes[0].id {
          var k :| 0 <= k < |tail| && tail[k] == m;
          assert notes[k + 1] == m;
        }
      }
    }
  }

  // ---------------------------------------------------------------------------
  // Save of an edited note: replace by id
  // ---------------------------------------------------------------------------

  /** The list with every note whose id is id replaced by updated; the length
      and every other note are kept in place. */
  function ReplaceById(notes: seq<Note>, id: int, updated: Note): (r: seq<Note>)
    ensures |r| == |notes|
    ensures forall i :: 0 <= i < |notes| ==> r[i] == (if notes[i].id == id then updated else notes[i])
  {
    if notes == [] then []
    else [if notes[0].id == id then updated else notes[0]] + ReplaceById(notes[1..], id, updated)
  }

  /** After the replacement the updated note is present when some note had
      the id, and the list is unchanged when none had it. */
  lemma ReplaceByIdPresence(notes: seq<Note>, id: int, updated: Note)
    ensures HasId(notes, id) ==> updated in ReplaceById(notes, id, updated)
    ensures !HasId(notes, id) ==> ReplaceById(notes, id, updated) == notes
  {
    var r := ReplaceById(notes, id, updated);
    if HasId(notes, id) {
      var i :| 0 <= i < |notes| && notes[i].id == id;
      assert r[i] == updated;
    }
  }

  /** Replacing a note by one with the same id leaves all other notes as they
      were: deleting that id afterwards gives the same list either way. */
  lemma {:induction false} ReplaceByIdKeepsOthers(notes: seq<Note>, updated: Note)
    ensures Without(ReplaceById(notes, updated.id, updated), updated.id) == Without(notes, updated.id)
  {
    if notes != [] {
      ReplaceByIdKeepsOthers(notes[1..], updated);
      var r := ReplaceById(notes, updated.id, updated);
      assert r[1..] == ReplaceById(notes[1..], updated.id, updated);
    }
  }

  /** Replacing by a note with the same id keeps both the ids and their order. */
  lemma ReplaceByIdKeepsIds(notes: seq<Note>, updated: Note)
    ensures var r := ReplaceById(notes, updated.id, updated);
            forall i :: 0 <= i < |r| ==> r[i].id == notes[i].id
  {
  }

  // ---------------------------------------------------------------------------
  // Drag: move by id
  // ---------------------------------------------------------------------------

  /** The list with every note whose id is id moved to (x, y); every other
      field of those notes and every other note are kept. */
  function MoveById(notes: seq<Note>, id: int, x: int, y: int): (r: seq<Note>)
    ensures |r| == |notes|
    ensures forall i :: 0 <= i < |notes| ==> r[i] == (if notes[i].id == id then notes[i].(x := x, y := y) else notes[i])
  {
    if notes == [] then []
    else
      var n := notes[0];
      [if n.id == id then n.(x := x, y := y) else n] + MoveById(notes[1..], id, x, y)
  }

  /** A move leaves every note of another id as it was: deleting the id
      afterwards gives the same list either way. */
  lemma {:induction false} MoveByIdKeepsOthers(notes: seq<Note>, id: int, x: int, y: int)
    ensures Without(MoveById(notes, id, x, y), id) == Without(notes, id)
  {
    if notes != [] {
      MoveByIdKeepsOthers(notes[1..], id, x, y);
      var r := MoveById(notes, id, x, y);
      assert r[1..] == MoveById(notes[1..], id, x, y);
    }
  }

  /** Moving to where the moved notes already are changes nothing more. */
  lemma MoveByIdIdempotent(notes: seq<Note>, id: int, x: int, y: int)
    ensures MoveById(MoveById(notes, id, x, y), id, x, y) == MoveById(notes, id, x, y)
  {
  }

  /** A move keeps ids unique. */
  lemma MoveByIdKeepsUniqueIds(notes: seq<Note>, id: int, x: int, y: int)
    requires UniqueIds(notes)
    ensures UniqueIds(MoveById(notes, id, x, y))
  {
    var r := MoveById(notes, id, x, y);
    forall i, j | 0 <= i < |r| && 0 <= j < |r| && i != j
      ensures r[i].id != r[j].id
    {
      assert r[i].id == notes[i].id && r[j].id == notes[j].id;
    }
  }
}
