/** Pixel geometry of the timeline canvas: where a date sits vertically, how a
    dragged note is kept inside the scrollable container, where the connector
    between a note and the central axis is drawn, and the month labels along
    the axis. Dates are whole day numbers and coordinates are integer pixels. */
module Layout {
  import opened Wrappers

  /** Vertical coordinate of "today" on the canvas. */
  const CenterY: int := 5000
  /** Vertical distance between two consecutive days. */
  const PixelsPerDay: int := 10
  /** Footprint of a note card. */
  const NoteWidth: int := 250
  const NoteHeight: int := 150
  /** Vertical offset of a connector below the top edge of its note. */
  const ConnectorDrop: int := 20

  /** A note's date field: empty, or a calendar day as a day number. */
  datatype Date = NoDate | Day(n: int)

  // ---------------------------------------------------------------------------
  // Date -> vertical coordinate
  // ---------------------------------------------------------------------------

  /** The vertical coordinate of a date, given the day number of today. An
      absent date sits at the centre; every other date sits on a grid of
      PixelsPerDay pixels, earlier days at smaller coordinates. */
  function YFromDate(date: Date, today: int): (y: int)
    ensures (y - CenterY) % PixelsPerDay == 0
    ensures y == CenterY <==> date == NoDate || date.n == today
    ensures date.Day? ==> (y < CenterY <==> date.n < today)
  {
    match date
    case NoDate => CenterY
    case Day(d) =>
      var diffInDays := today - d;
      CenterY - diffInDays * PixelsPerDay
  }

  /** The day whose coordinate is y (the inverse of YFromDate on the grid). */
  function DayFromY(y: int, today: int): int
  {
    today - (CenterY - y) / PixelsPerDay
  }

  /** Reading the day back from a projected coordinate gives the day again. */
  lemma DayFromYInvertsYFromDate(d: int, today: int)
    ensures DayFromY(YFromDate(Day(d), today), today) == d
  {
  }

  /** Projection is strictly increasing in the day: a later day never shares
      or goes below the coordinate of an earlier one. */
  lemma YFromDateStrictlyIncreasing(d1: int, d2: int, today: int)
    requires d1 < d2
    ensures YFromDate(Day(d1), today) < YFromDate(Day(d2), today)
    ensures YFromDate(Day(d2), today) - YFromDate(Day(d1), today) == PixelsPerDay * (d2 - d1)
  {
  }

  /** Only the distance from today matters: moving both days together keeps
      the coordinate. */
  lemma YFromDateShiftInvariant(d: int, today: int, k: int)
    ensures YFromDate(Day(d + k), today + k) == YFromDate(Day(d), today)
  {
  }

  /** The coordinates of a few particular dates. */
  lemma YFromDateExamples(today: int)
    ensures YFromDate(NoDate, today) == 5000
    ensures YFromDate(Day(today), today) == 5000
    ensures YFromDate(Day(today - 1), today) == 4990
    ensures YFromDate(Day(today - 30), today) == 4700
    ensures YFromDate(Day(today + 1), today) == 5010
  {
  }

  // ---------------------------------------------------------------------------
  // Drag clamping
  // ---------------------------------------------------------------------------

  function Min(a: int, b: int): int { if a <= b then a else b }
  function Max(a: int, b: int): int { if a >= b then a else b }

  /** Clamps one axis as min(max(0, v), hi). When the axis leaves room for the
      note (hi >= 0) the result lies in [0, hi] and is v itself exactly when v
      does; when it does not (hi < 0) the result is hi, a negative value. */
  function Clamp(v: int, hi: int): (r: int)
    ensures r <= hi
    ensures 0 <= hi ==> 0 <= r
    ensures 0 <= hi ==> (r == v <==> 0 <= v <= hi)
    ensures hi < 0 ==> r == hi
  {
    Min(Max(0, v), hi)
  }

  /** Clamping twice is clamping once. */
  lemma ClampIdempotent(v: int, hi: int)
    ensures Clamp(Clamp(v, hi), hi) == Clamp(v, hi)
  {
  }

  /** Clamping keeps the order of two coordinates. */
  lemma ClampMonotone(v1: int, v2: int, hi: int)
    requires v1 <= v2
    ensures Clamp(v1, hi) <= Clamp(v2, hi)
  {
  }

  /** When the interval [0, hi] is not empty, Clamp picks the point of that
      interval nearest to v. */
  lemma ClampIsNearest(v: int, hi: int, w: int)
    requires 0 <= w <= hi
    ensures Abs(Clamp(v, hi) - v) <= Abs(w - v)
  {
  }

  function Abs(a: int): int { if a < 0 then -a else a }

  /** A position on the canvas. */
  datatype Point = Point(x: int, y: int)

  /** The position a note is dropped at: every axis clamped independently so
      that the note card stays inside a scroll area of the given size. */
  function ClampPosition(x: int, y: int, scrollWidth: int, scrollHeight: int): (p: Point)
    ensures NoteWidth <= scrollWidth ==> 0 <= p.x && p.x + NoteWidth <= scrollWidth
    ensures NoteHeight <= scrollHeight ==> 0 <= p.y && p.y + NoteHeight <= scrollHeight
    ensures scrollWidth < NoteWidth ==> p.x == scrollWidth - NoteWidth
    ensures scrollHeight < NoteHeight ==> p.y == scrollHeight - NoteHeight
    ensures NoteWidth <= scrollWidth ==> (p.x == x <==> 0 <= x <= scrollWidth - NoteWidth)
    ensures NoteHeight <= scrollHeight ==> (p.y == y <==> 0 <= y <= scrollHeight - NoteHeight)
  {
    var maxX := scrollWidth - NoteWidth;
    var maxY := scrollHeight - NoteHeight;
    Point(Clamp(x, maxX), Clamp(y, maxY))
  }

  /** Dropping a note where it already was dropped moves it no further. */
  lemma ClampPositionIdempotent(x: int, y: int, scrollWidth: int, scrollHeight: int)
    ensures var p := ClampPosition(x, y, scrollWidth, scrollHeight);
            ClampPosition(p.x, p.y, scrollWidth, scrollHeight) == p
  {
    ClampIdempotent(x, scrollWidth - NoteWidth);
    ClampIdempotent(y, scrollHeight - NoteHeight);
  }

  /** The clamped positions of a few particular drops, and of every drop in a
      scroll area too small for the card. */
  lemma ClampPositionExamples()
    ensures ClampPosition(-50, -50, 1000, 800) == Point(0, 0)
    ensures ClampPosition(900, 700, 1000, 800) == Point(750, 650)
    ensures forall x, y :: ClampPosition(x, y, 200, 100) == Point(-50, -50)
  {
  }

  // ---------------------------------------------------------------------------
  // Connector between a note and the central axis
  // ---------------------------------------------------------------------------

  /** A horizontal segment: its left end, its vertical position and its width. */
  datatype Segment = Segment(left: int, top: int, width: int)

  /** True when the note card [noteX, noteX + NoteWidth] touches or crosses the
      vertical axis at centerX. */
  predicate Straddles(noteX: int, centerX: int)
  {
    noteX <= centerX <= noteX + NoteWidth
  }

  /** The connector computed for a note at (noteX, noteY). A note clear of the
      axis gets a segment of positive width running from its nearer edge to
      the axis; a note that straddles the axis gets a segment of width zero
      at the axis. */
  function Connector(noteX: int, noteY: int, centerX: int): (s: Segment)
    ensures s.top == noteY + ConnectorDrop
    ensures s.width >= 0
    ensures s.width > 0 <==> !Straddles(noteX, centerX)
    ensures noteX + NoteWidth < centerX ==> s.left == noteX + NoteWidth && s.left + s.width == centerX
    ensures centerX < noteX ==> s.left == centerX && s.left + s.width == noteX
    ensures Straddles(noteX, centerX) ==> s.left == centerX
  {
    var lineTop := noteY + ConnectorDrop;
    if noteX + NoteWidth < centerX then
      Segment(noteX + NoteWidth, lineTop, centerX - (noteX + NoteWidth))
    else if noteX > centerX then
      Segment(centerX, lineTop, noteX - centerX)
    else
      Segment(centerX, lineTop, 0)
  }

  /** The connector that is actually drawn: only one of positive width. */
  function DrawnConnector(noteX: int, noteY: int, centerX: int): (r: Option<Segment>)
    ensures r.Some? <==> !Straddles(noteX, centerX)
    ensures r.Some? ==> r.value.width > 0
  {
    var s := Connector(noteX, noteY, centerX);
    if s.width > 0 then Some(s) else None
  }

  /** A drawn connector joins the axis to the note without overlapping the
      note card: it lies wholly on one side of the card and one of its ends is
      on the axis, the other on the card's edge. */
  lemma DrawnConnectorJoinsNoteToAxis(noteX: int, noteY: int, centerX: int)
    requires DrawnConnector(noteX, noteY, centerX).Some?
    ensures var s := DrawnConnector(noteX, noteY, centerX).value;
            (s.left + s.width <= noteX || noteX + NoteWidth <= s.left) &&
            (s.left == centerX || s.left + s.width == centerX) &&
            (s.left == noteX + NoteWidth || s.left + s.width == noteX)
  {
  }

  /** The connectors of a few particular notes, with the axis at 500. */
  lemma ConnectorExamples(noteY: int)
    ensures Connector(100, noteY, 500) == Segment(350, noteY + 20, 150)
    ensures Connector(600, noteY, 500) == Segment(500, noteY + 20, 100)
    ensures Connector(450, noteY, 500).width == 0
    ensures DrawnConnector(450, noteY, 500) == None
    ensures DrawnConnector(250, noteY, 500) == None
  {
  }

  // ---------------------------------------------------------------------------
  // Date labels along the axis
  // ---------------------------------------------------------------------------

  /** Day offset of the first label (five years back) and the label spacing. */
  const FirstLabelOffset: int := -365 * 5
  const LabelStep: int := 30
  /** How many labels the loop from FirstLabelOffset to 0 produces. */
  const LabelCount: nat := 61

  /** One label: its day offset from today (the loop counter, also its key),
      the day it names and its vertical coordinate. */
  datatype Label = Label(offset: int, day: int, top: int)

  /** The k-th label: the day k steps after the first offset, drawn at the
      coordinate of that day. */
  function LabelAt(today: int, k: int): (l: Label)
    ensures l.offset == FirstLabelOffset + LabelStep * k
    ensures l.day == today + l.offset
    ensures l.top == CenterY + PixelsPerDay * l.offset
  {
    var i := FirstLabelOffset + LabelStep * k;
    Label(i, today + i, YFromDate(Day(today + i), today))
  }

  /** Builds the labels for offsets -1825, -1795, ... up to the last one not
      after today. There are 61 of them; the last is 25 days ago, so today
      itself gets no label. Their coordinates increase strictly and sit below
      the centre, 10 pixels for every day before today. */
  method TimelineLabels(today: int) returns (labels: seq<Label>)
    ensures |labels| == LabelCount
    ensures forall k :: 0 <= k < |labels| ==> labels[k] == LabelAt(today, k)
    ensures forall k :: 0 <= k < |labels| ==>
      FirstLabelOffset <= labels[k].offset < 0 &&
      labels[k].top == CenterY + PixelsPerDay * labels[k].offset &&
      labels[k].day == today + labels[k].offset
    ensures labels[0].offset == -1825 && labels[LabelCount - 1].offset == -25
    ensures forall j, k :: 0 <= j < k < |labels| ==> labels[j].top < labels[k].top
  {
    labels := [];
    var i := FirstLabelOffset;
    while i <= 0
      invariant i == FirstLabelOffset + LabelStep * |labels|
      invariant i <= 5
      invariant forall k :: 0 <= k < |labels| ==> labels[k] == LabelAt(today, k)
    {
      var labelY := YFromDate(Day(today + i), today);
      labels := labels + [Label(i, today + i, labelY)];
      i := i + LabelStep;
    }
    forall j, k | 0 <= j < k < |labels|
      ensures labels[j].top < labels[k].top
    {
      YFromDateStrictlyIncreasing(labels[j].day, labels[k].day, today);
    }
  }
}
