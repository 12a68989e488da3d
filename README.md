# Timeline notes: layout and note collection

A model of the core of a browser note-taking timeline. Notes sit on a tall
canvas. Their vertical position comes from their date, at 10 pixels per day
around a centre line at 5000. The user drags a note sideways, and the drop
position is clamped so the note card stays inside the scroll area. A
horizontal connector joins each note to the central vertical axis.

The component owns three pieces of state: the list of notes, a slot for a
note being created and a slot for a note being edited. Its handlers open
drafts, edit them, save them (append or replace by id), delete notes
(filter by id), move notes (map by id) and cancel.

Dates are whole day numbers and "today" is a parameter. Coordinates are
integer pixels. A call to the remote store does not change the component's
state. The in-memory list is updated before the call and is kept when the
call fails. Save takes a flag that says whether the store accepted the
write. After a rejected write, the saved draft's slot is not cleared.

Files:
- `wrappers.dfy` (module `Wrappers`): the `Option` type.
- `layout.dfy` (module `Layout`): date to coordinate, clamping, connector
  geometry, and the loop that builds the date labels.
- `notes.dfy` (module `Notes`): the note entity and the remove, replace and
  move rewrites of the list.
- `app.dfy` (module `TimelineApp`): the component as a class `App`. Its
  fields are `notes`, `creatingNote` and `editingNote`, and its methods are
  the event handlers. Four client methods check whole event sequences
  against the handlers' contracts.

Behaviour of the code that the model keeps:
- Earlier dates get a smaller coordinate. Yesterday is at 4990 and 30 days
  ago at 4700 (`Layout.YFromDateExamples`).
- With a scroll area smaller than the card, clamping returns the negative
  bound `scrollDim - noteDim` (`Layout.Clamp`, `Layout.ClampPositionExamples`).
- Only the canvas click checks the edit slot. The add button and the double
  click on a note do not, so both slots can be filled at once. The form then
  shows the create draft, but typing goes into the edited note and Save
  commits the edited note (`TimelineApp.EditThenAdd`).
- A first save that the store rejects leaves the draft open. Saving it again
  appends a second note with the same id
  (`TimelineApp.RetryAfterRejectedInsert`).
- The label loop runs from 1825 days back in steps of 30. Its last offset
  is 25 days back, so today gets no label (`Layout.TimelineLabels`).
- A drag clamps `y` as well as `x`. The new position is kept only in memory
  and is not sent to the store. A later edit-save recomputes `y` from the
  date.

## Model

| member | source | states |
|---|---|---|
| Layout.YFromDate | src/App.js:34-44 | no date and today's date give the centre 5000, and nothing else does; the result lies on the 10-pixel grid; a date is below the centre exactly when it is before today |
| Layout.DayFromYInvertsYFromDate | src/App.js:40-43 | the projection loses nothing: the day can be read back from its coordinate |
| Layout.YFromDateStrictlyIncreasing | src/App.js:40-43 | a later day gets a strictly larger coordinate, exactly 10 pixels per day of difference |
| Layout.YFromDateShiftInvariant | src/App.js:40-43 | the coordinate depends only on how many days the date lies from today |
| Layout.YFromDateExamples | src/App.js:35-43 | no date and today give 5000, yesterday 4990, 30 days ago 4700, tomorrow 5010 |
| Layout.Clamp | src/App.js:100-101 | the result is never above the bound; with a non-negative bound it lies in [0, bound] and equals the input exactly when the input already does; with a negative bound it is that bound |
| Layout.ClampIdempotent | src/App.js:100-101 | clamping a clamped value changes nothing |
| Layout.ClampMonotone | src/App.js:100-101 | clamping keeps the order of two coordinates |
| Layout.ClampIsNearest | src/App.js:100-101 | with a non-empty range, the clamped value is the point of [0, bound] nearest the input |
| Layout.ClampPosition | src/App.js:96-101 | with a 250x150 card, the dropped card lies inside a scroll area that can hold it, keeps its position exactly when it already fitted, and takes the negative bound on an axis that cannot hold it |
| Layout.ClampPositionIdempotent | src/App.js:96-101 | dropping again at the clamped position does not move the note |
| Layout.ClampPositionExamples | src/App.js:96-101 | (-50,-50) in 1000x800 gives (0,0); (900,700) gives (750,650); in 200x100 every drop gives (-50,-50) |
| Layout.Connector | src/App.js:163-175 | the width is never negative; it is positive exactly when the card does not touch the axis; a card left of the axis gets a segment from its right edge to the axis, a card right of it one from the axis to its left edge; a straddling card gets width 0 at the axis; the segment is 20 below the card's top |
| Layout.DrawnConnector | src/App.js:179 | a connector is drawn exactly when the card does not touch the axis, and a drawn one has positive width |
| Layout.DrawnConnectorJoinsNoteToAxis | src/App.js:163-179 | a drawn connector does not overlap the card; one end is on the axis and the other on the card's nearer edge |
| Layout.ConnectorExamples | src/App.js:163-179 | with the axis at 500: a card at 100 gives (350, 150); at 600 gives (500, 100); at 450 and at 250 nothing is drawn |
| Layout.LabelAt | src/App.js:120-123 | label k has offset -1825 + 30k, names the day that many days from today, and sits 10 pixels per day of that offset away from the centre |
| Layout.TimelineLabels | src/App.js:117-144 | 61 labels; label k has offset -1825 + 30k, names day today + offset and sits at that day's coordinate; offsets run from -1825 to -25; coordinates strictly increase |
| Notes.Draft | src/App.js:51-60 | a new draft (the same one the add button builds) has the given position and id, empty title, description and tags, no date and no image |
| Notes.Without | src/App.js:90 | a note is kept exactly when it was in the list and its id differs; the list never grows; it is unchanged when no note has the id and strictly shorter when one does |
| Notes.WithoutAppend | src/App.js:90 | removing by id distributes over concatenation, so the kept notes keep their relative order |
| Notes.WithoutIdempotent | src/App.js:90 | deleting the same id twice is deleting it once |
| Notes.WithoutAppended | src/App.js:83-90 | deleting a note just appended gives the earlier list with that id removed |
| Notes.WithoutKeepsUniqueIds | src/App.js:90 | deleting keeps ids unique |
| Notes.ReplaceById | src/App.js:73-75 | same length; every note with the id becomes the updated note and every other note stays at its place |
| Notes.ReplaceByIdPresence | src/App.js:73-75 | the updated note is in the result when the id was present; with the id absent the list is unchanged (nothing is added) |
| Notes.ReplaceByIdKeepsOthers | src/App.js:73-75 | replacing by a note with the same id leaves every note of another id as it was |
| Notes.ReplaceByIdKeepsIds | src/App.js:73-75 | replacing by a note with the same id keeps every id at its place |
| Notes.MoveById | src/App.js:102-104 | same length; notes with the id get the new x and y and keep every other field; all other notes are unchanged |
| Notes.MoveByIdKeepsOthers | src/App.js:102-104 | moving leaves every note of another id as it was |
| Notes.MoveByIdIdempotent | src/App.js:102-104 | moving twice to the same place is moving once |
| Notes.MoveByIdKeepsUniqueIds | src/App.js:102-104 | moving keeps ids unique |
| TimelineApp.ApplyEdit | src/App.js:240-303 | a form edit sets exactly the edited field (title, description, tags, image, or the picked day as the date) to the typed value and keeps every other field, the id and the position |
| TimelineApp.EditCommit | src/App.js:69-72 | the committed edit keeps every field but y; a dateless note goes to 5000 and a dated one to the exact 10-pixel grid point its day can be read back from |
| TimelineApp.CreateCommit | src/App.js:79-82 | the committed draft keeps every field but y (its date stays empty if it was); a dateless draft goes to today's coordinate and a dated one to the exact 10-pixel grid point its day can be read back from |
| TimelineApp.CreateFallbackIsRedundant | src/App.js:79-82 | with dates read as day numbers, falling back to today's date on a first save changes nothing, because an empty date already gives the centre; a dateless new note sits at 5000 |
| TimelineApp.App.constructor | src/App.js:11-13 | the component starts with no notes and both slots empty |
| TimelineApp.App.ActiveNote | src/App.js:14 | the form shows a draft exactly when a slot is filled, and shows the create slot whenever it is filled |
| TimelineApp.App.LoadNotes | src/App.js:16-26 | fetched rows replace the list; a failed fetch leaves it and the slots as they were |
| TimelineApp.App.HandleCreateNote | src/App.js:46-61 | while a note is being edited a canvas click changes nothing; otherwise the create slot gets an empty draft at the click with the current time as id |
| TimelineApp.App.AddButton | src/App.js:325-342 | the create slot gets an empty draft whatever the edit slot holds; the list and the edit slot are unchanged |
| TimelineApp.App.HandleEditNote | src/App.js:63-65 | the edit slot gets a copy of the note; the list and the create slot are unchanged |
| TimelineApp.App.EditActive | src/App.js:244-302 | a form change goes to the edit slot when it is filled, otherwise to the create slot; the list is unchanged |
| TimelineApp.App.SaveNote | src/App.js:67-87 | with the edit slot filled: the note with its id is replaced by the edited copy placed at its date, and the create slot is kept; otherwise the draft is appended, placed at its date or today; the list change stays either way, and the saved slot is cleared only when the store accepted the write |
| TimelineApp.App.DeleteNote | src/App.js:89-92 | the list becomes the notes whose id differs; the slots are unchanged |
| TimelineApp.App.UpdateNotePosition | src/App.js:94-105 | the note with the id moves to the clamped drop position; every other note and both slots are unchanged |
| TimelineApp.App.Cancel | src/App.js:312-315 | both slots are cleared and the list is unchanged |
| TimelineApp.CreateSaveDelete | src/App.js:46-92 | create without a date, save, delete: the saved note sits at 5000 and the delete restores the earlier list |
| TimelineApp.EditThenAdd | src/App.js:63-87 | edit then press add: the form shows the new draft, but the typed title goes into the edited note, Save commits that note and the new draft stays open |
| TimelineApp.RetryAfterRejectedInsert | src/App.js:79-85 | a rejected first save keeps the draft open, and saving again appends a second copy with the same id after the earlier notes |
| TimelineApp.ClickWhileEditing | src/App.js:46-47 | a canvas click while editing opens no draft and the form keeps showing the edited note |

## Left out

- The store wrapper in `src/supabaseAPI.js` (fetch, insert, update, delete) is not modelled. Only the outcome of each call is kept. A failed fetch is the `None` argument of `LoadNotes`. A rejected insert or update is the `false` argument of `SaveNote`. A rejected delete changes nothing, because nothing follows the call in `deleteNote`. The resulting unhandled promise rejection is not modelled.
- React rendering, framer-motion drag handling, the date picker widget and the file input are UI library glue. Their effect on state is modelled by the handlers that receive their values.
- `getImageURL` (src/App.js:107-115) is not modelled. It inspects types at run time and calls the browser's object-URL API. Images are carried through as an opaque `Image` value.
- JavaScript `Date` handling becomes integer day numbers: midnight normalisation, millisecond division, daylight-saving effects on the floor, and the UTC conversions used to format dates.
- TimelineApp.CreateCommit: the fallback to today's date (src/App.js:81) is read as today's day number. In the code it is today's UTC date. `new Date` parses it as UTC midnight, and `setHours` (src/App.js:38) then works in local time. On either side of UTC that can be the previous local day (west of UTC whenever the UTC date equals the local one, east of UTC in the first hours of the local day while the UTC date is still the previous one), which puts a dateless new note at 4990 instead of 5000. The same applies to the label dates (src/App.js:122-123).
- Click coordinates, canvas centre, element rectangles and scroll sizes are integer parameters. They come from DOM measurements in the source: click-to-canvas conversion, the centre `clientWidth / 2 + scrollLeft` (which can be a half pixel) and the drag offset. The initial `scrollTop` effect (src/App.js:28-32) is left out.
- The label text and styling are left out. Each label keeps its key, day and coordinate.
- TimelineApp.App.SaveNote: requires a filled slot, because the save button exists only inside the form, and the form is rendered only then. The TypeError the code would raise with both slots empty is not modelled.
- TimelineApp.App.EditActive: requires a filled slot for the same reason.
- Notes.UniqueIds: ids come from the clock when a draft is opened, and nothing in the code stops two drafts from getting the same id. The model therefore does not claim that creating a note keeps ids unique. It proves this only for delete, replace and move.
- Asynchrony is not modelled. The `await` between a list update and the clearing of a slot, and the initial fetch overwriting notes created before it returns, both become one step.
