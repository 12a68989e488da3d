/** The state the timeline component owns and the event handlers that change
    it: the list of notes and two draft slots, one for a note being created
    and one for a note being edited. A call to the store changes nothing in
    this state; only whether it succeeded matters. The list is updated before
    the call and never rolled back. */
module TimelineApp {
  import opened Wrappers
  import opened Layout
  import opened Notes

  /** One change typed into the note form. */
  datatype FieldEdit =
    | SetTitle(title: string)
    | SetDescription(description: string)
    | SetTags(tags: string)
    | SetDate(day: int)
    | SetImage(image: Image)

  /** A draft with one form field changed: that field takes the typed value
      and every other field, the id and the position included, is kept. A
      date change carries a day; a change without one throws in the handler
      before any setter runs, so the state stays as it was. */
  function ApplyEdit(n: Note, e: FieldEdit): (r: Note)
    ensures r.id == n.id && r.x == n.x && r.y == n.y
    ensures r.title == (if e.SetTitle? then e.title else n.title)
    ensures r.description == (if e.SetDescription? then e.description else n.description)
    ensures r.tags == (if e.SetTags? then e.tags else n.tags)
    ensures r.date == (if e.SetDate? then Day(e.day) else n.date)
    ensures r.image == (if e.SetImage? then e.image else n.image)
  {
    match e
    case SetTitle(t) => n.(title := t)
    case SetDescription(d) => n.(description := d)
    case SetTags(t) => n.(tags := t)
    case SetDate(d) => n.(date := Day(d))
    case SetImage(i) => n.(image := i)
  }

  /** The note committed by an update: the edited copy with its vertical
      position recomputed from its date. Every other field is kept, a dateless
      note goes to the centre, and a dated one to the exact grid point its day
      can be read back from. */
  function EditCommit(n: Note, today: int): (r: Note)
    ensures r == n.(y := r.y)
    ensures (r.y - CenterY) % PixelsPerDay == 0
    ensures n.date == NoDate ==> r.y == CenterY
    ensures n.date.Day? ==> DayFromY(r.y, today) == n.date.n
  {
    n.(y := YFromDate(n.date, today))
  }

  /** The note committed by a first save: as for an update, except that an
      empty date is replaced by today's date when the position is computed
      (the stored date itself stays empty). Every other field is kept, a
      dateless draft goes to today's coordinate, and a dated one to the exact
      grid point its day can be read back from. */
  function CreateCommit(n: Note, today: int): (r: Note)
    ensures r == n.(y := r.y)
    ensures (r.y - CenterY) % PixelsPerDay == 0
    ensures n.date == NoDate ==> r.y == YFromDate(Day(today), today)
    ensures n.date.Day? ==> DayFromY(r.y, today) == n.date.n
  {
    var d := if n.date == NoDate then Day(today) else n.date;
    n.(y := YFromDate(d, today))
  }

  /** With dates read as whole day numbers, falling back to today's date
      makes no difference: an empty date already projects to the centre,
      which is where today projects. */
  lemma CreateFallbackIsRedundant(n: Note, today: int)
    ensures CreateCommit(n, today) == EditCommit(n, today)
    ensures n.date == NoDate ==> CreateCommit(n, today).y == CenterY
  {
  }

  /** The component: its note list and its two draft slots. */
  class App {
    var notes: seq<Note>
    var creatingNote: Option<Note>
    var editingNote: Option<Note>

    /** Mounting: no notes and no draft. */
    constructor ()
      ensures notes == [] && creatingNote == None && editingNote == None
    {
      notes := [];
      creatingNote := None;
      editingNote := None;
    }

    /** The draft the form shows: the note being created when there is one,
        otherwise the note being edited. */
    function ActiveNote(): (r: Option<Note>)
      reads this
      ensures r.Some? <==> creatingNote.Some? || editingNote.Some?
      ensures creatingNote.Some? ==> r == creatingNote
      ensures creatingNote.None? ==> r == editingNote
    {
      if creatingNote.Some? then creatingNote else editingNote
    }

    /** The initial load: the fetched rows replace the list; a failed fetch
        (None) leaves the list as it was. */
    method LoadNotes(fetched: Option<seq<Note>>)
      modifies this
      ensures notes == (if fetched.Some? then fetched.value else old(notes))
      ensures creatingNote == old(creatingNote) && editingNote == old(editingNote)
    {
      if fetched.Some? {
        notes := fetched.value;
      }
    }

    /** A click on the canvas at (x, y) at time now: ignored while a note is
        being edited, otherwise it opens a fresh draft there whose id is now. */
    method HandleCreateNote(x: int, y: int, now: int)
      modifies this
      ensures old(editingNote).Some? ==> creatingNote == old(creatingNote)
      ensures old(editingNote).None? ==> creatingNote == Some(Draft(x, y, now))
      ensures notes == old(notes) && editingNote == old(editingNote)
    {
      if editingNote.Some? {
        return;
      }
      creatingNote := Some(Draft(x, y, now));
    }

    /** The add button: opens a fresh draft at (x, y) whatever the slots hold,
        so a draft can be opened while another note is being edited. */
    method AddButton(x: int, y: int, now: int)
      modifies this
      ensures creatingNote == Some(Draft(x, y, now))
      ensures notes == old(notes) && editingNote == old(editingNote)
    {
      creatingNote := Some(Draft(x, y, now));
    }

    /** A double click on a note: a copy of it goes into the edit slot. */
    method HandleEditNote(note: Note)
      modifies this
      ensures editingNote == Some(note)
      ensures notes == old(notes) && creatingNote == old(creatingNote)
    {
      editingNote := Some(note);
    }

    /** A change in the form: it goes to the edit slot when that is filled,
        otherwise to the create slot. The form is only shown while one of the
        slots is filled. */
    method EditActive(e: FieldEdit)
      requires creatingNote.Some? || editingNote.Some?
      modifies this
      ensures old(editingNote).Some? ==>
        editingNote == Some(ApplyEdit(old(editingNote).value, e)) && creatingNote == old(creatingNote)
      ensures old(editingNote).None? ==>
        creatingNote == Some(ApplyEdit(old(creatingNote).value, e)) && editingNote == None
      ensures notes == old(notes)
    {
      if editingNote.Some? {
        editingNote := Some(ApplyEdit(editingNote.value, e));
      } else {
        creatingNote := Some(ApplyEdit(creatingNote.value, e));
      }
    }

    /** The form's save button, with today's day number; written tells
        whether the store accepted the write. With a note being edited, the
        note with its id is replaced by the edited copy placed at its date
        and the list keeps its length. Otherwise the draft being created is
        appended, placed at its date or at today. The list is changed in
        either case. The slot that was saved is cleared only when the write
        succeeded: a rejected write throws before the slot is reset, so the
        form stays open. The other slot is left alone. */
    method SaveNote(today: int, written: bool)
      requires creatingNote.Some? || editingNote.Some?
      modifies this
      ensures old(editingNote).Some? ==>
        var u := EditCommit(old(editingNote).value, today);
        notes == ReplaceById(old(notes), u.id, u) &&
        editingNote == (if written then None else old(editingNote)) &&
        creatingNote == old(creatingNote)
      ensures old(editingNote).None? ==>
        notes == old(notes) + [CreateCommit(old(creatingNote).value, today)] &&
        creatingNote == (if written then None else old(creatingNote)) &&
        editingNote == None
    {
      if editingNote.Some? {
        var updatedNote := EditCommit(editingNote.value, today);
        notes := ReplaceById(notes, editingNote.value.id, updatedNote);
        if !written {
          return;
        }
        editingNote := None;
      } else {
        var newNote := CreateCommit(creatingNote.value, today);
        notes := notes + [newNote];
        if !written {
          return;
        }
        creatingNote := None;
      }
    }

    /** The delete button of a note: every note with that id leaves the list. */
    method DeleteNote(id: int)
      modifies this
      ensures notes == Without(old(notes), id)
      ensures creatingNote == old(creatingNote) && editingNote == old(editingNote)
    {
      notes := Without(notes, id);
    }

    /** The end of a drag: the note with that id moves to (x, y) clamped so the
        card fits a scroll area of the given size; nothing else changes. */
    method UpdateNotePosition(id: int, x: int, y: int, scrollWidth: int, scrollHeight: int)
      modifies this
      ensures var p := ClampPosition(x, y, scrollWidth, scrollHeight);
              notes == MoveById(old(notes), id, p.x, p.y)
      ensures creatingNote == old(creatingNote) && editingNote == old(editingNote)
    {
      var maxX := scrollWidth - NoteWidth;
      var maxY := scrollHeight - NoteHeight;
      var clampedX := Clamp(x, maxX);
      var clampedY := Clamp(y, maxY);
      notes := MoveById(notes, id, clampedX, clampedY);
    }

    /** The form's cancel button: both draft slots are cleared. */
    method Cancel()
      modifies this
      ensures creatingNote == None && editingNote == None
      ensures notes == old(notes)
    {
      creatingNote := None;
      editingNote := None;
    }
  }

  /** Creating a note without a date, saving it and deleting it again: the
      saved note sits at the centre coordinate, and after the delete the list
      is what it was (provided no earlier note had the new id). */
  method CreateSaveDelete(existing: seq<Note>, x: int, y: int, now: int, today: int)
    returns (afterSave: seq<Note>, afterDelete: seq<Note>)
    requires !HasId(existing, now)
    ensures afterSave == existing + [Draft(x, y, now).(y := CenterY)]
    ensures afterDelete == existing
  {
    var app := new App();
    app.LoadNotes(Some(existing));
    app.HandleCreateNote(x, y, now);
    app.SaveNote(today, true);
    afterSave := app.notes;
    app.DeleteNote(now);
    afterDelete := app.notes;
    WithoutAppended(existing, Draft(x, y, now).(y := CenterY));
  }

  /** Editing a note and then pressing the add button fills both slots. The
      form then shows the new empty draft, but what is typed goes into the
      edited note and the save button commits the edited note, leaving the
      new draft open. */
  method EditThenAdd(note: Note, x: int, y: int, now: int, today: int, title: string)
    returns (shown: Option<Note>, saved: seq<Note>, leftOpen: Option<Note>)
    ensures shown == Some(Draft(x, y, now))
    ensures saved == [EditCommit(note.(title := title), today)]
    ensures leftOpen == Some(Draft(x, y, now))
  {
    var app := new App();
    app.LoadNotes(Some([note]));
    app.HandleEditNote(note);
    app.AddButton(x, y, now);
    shown := app.ActiveNote();
    app.EditActive(SetTitle(title));
    app.SaveNote(today, true);
    saved := app.notes;
    leftOpen := app.creatingNote;
  }

  /** A first save that the store rejects leaves the draft open; saving it
      again appends a second copy, so two notes share the draft's id. */
  method RetryAfterRejectedInsert(existing: seq<Note>, x: int, y: int, now: int, today: int)
    returns (afterRetry: seq<Note>)
    ensures |afterRetry| == |existing| + 2
    ensures afterRetry[..|existing|] == existing
    ensures afterRetry[|existing|] == afterRetry[|existing| + 1]
    ensures afterRetry[|existing|].id == now
  {
    var app := new App();
    app.LoadNotes(Some(existing));
    app.HandleCreateNote(x, y, now);
    app.SaveNote(today, false);
    app.SaveNote(today, true);
    afterRetry := app.notes;
  }

  /** A click on the canvas while a note is being edited opens no draft. */
  method ClickWhileEditing(note: Note, x: int, y: int, now: int)
    returns (creating: Option<Note>, active: Option<Note>)
    ensures creating == None
    ensures active == Some(note)
  {
    var app := new App();
    app.HandleEditNote(note);
    app.HandleCreateNote(x, y, now);
    creating := app.creatingNote;
    active := app.ActiveNote();
  }
}
