/** The one-finger page-turn gesture of the reader page
    (src/pages/ReaderMobile.jsx, `attachSwipeToDoc`): the per-document
    recogniser over `startX/startY/deltaX/isDragging`, the set of documents it
    is attached to, and which panel flags it consults. */
module Swipe {
  import opened Common

  datatype Direction = Next | Prev

  /** Horizontal travel a move must exceed before a drag starts. */
  const DragSlop: real := 2.0

  function Abs(r: real): real { if r < 0.0 then -r else r }

  /** `Math.min(window.innerWidth * 0.1, 60)` */
  function Threshold(innerWidth: real): (t: real)
    ensures t <= 60.0 && t <= innerWidth * 0.1
    ensures t == 60.0 || t == innerWidth * 0.1
  {
    if innerWidth * 0.1 <= 60.0 then innerWidth * 0.1 else 60.0
  }

  /** The recogniser's closure variables. */
  datatype Tracker = Tracker(startX: real, startY: real, deltaX: real, isDragging: bool)

  const Initial := Tracker(0.0, 0.0, 0.0, false)

  /** A move that starts a drag: more horizontal than vertical, and more than
      the slop. */
  predicate StartsDrag(dx: real, dy: real)
  {
    Abs(dx) > Abs(dy) && Abs(dx) > DragSlop
  }

  /** `touchStart`: with one finger and no panel in the way, records the start
      point and resets the drag. */
  function StartStep(t: Tracker, touches: nat, x: real, y: real, blocked: bool): (r: Tracker)
    ensures touches != 1 || blocked ==> r == t
    ensures touches == 1 && !blocked ==> r.startX == x && r.startY == y && r.deltaX == 0.0 && !r.isDragging
  {
    if touches != 1 || blocked then t else Tracker(x, y, 0.0, false)
  }

  /** `touchMove`: the new tracker and whether the move starts a drag (the
      only moves whose default is prevented and that set `isSwiping`). */
  function MoveStep(t: Tracker, touches: nat, x: real, y: real, blocked: bool): (r: (Tracker, bool))
    ensures touches != 1 || blocked ==> r == (t, false)
    ensures r.0.startX == t.startX && r.0.startY == t.startY
    ensures t.isDragging ==> r.0.isDragging && !r.1
    ensures touches == 1 && !blocked && !t.isDragging ==>
      && (r.0.isDragging <==> StartsDrag(x - t.startX, y - t.startY))
      && (r.1 <==> StartsDrag(x - t.startX, y - t.startY))
  {
    if touches != 1 || blocked then (t, false)
    else
      var dx := x - t.startX;
      var dy := y - t.startY;
      var begins := !t.isDragging && StartsDrag(dx, dy);
      var dragging := t.isDragging || begins;
      (if dragging then t.(deltaX := dx, isDragging := true) else t, begins)
  }

  /** `touchEnd`: the page turn it asks for, if any; the drag is over afterwards. */
  function EndStep(t: Tracker, threshold: real): (r: (Tracker, Option<Direction>))
    ensures !r.0.isDragging
    ensures !t.isDragging ==> r.1.None?
    ensures t.isDragging ==> (r.1.Some? <==> Abs(t.deltaX) > threshold)
    ensures r.1 == Some(Next) <==> t.isDragging && Abs(t.deltaX) > threshold && t.deltaX < 0.0
    ensures r.1 == Some(Prev) <==> t.isDragging && Abs(t.deltaX) > threshold && t.deltaX >= 0.0
  {
    if !t.isDragging then (t, None)
    else if Abs(t.deltaX) > threshold then
      (t.(isDragging := false), Some(if t.deltaX < 0.0 then Next else Prev))
    else (t.(isDragging := false), None)
  }

  /** One finger down at (x0, y0), one move to (x1, y1), release.  Unblocked,
      with a threshold beyond the slop, it turns the page exactly when its
      single move was a long enough horizontal drag, in the direction
      opposite to the finger. */
  function Gesture(blocked: bool, x0: real, y0: real, x1: real, y1: real, threshold: real): (d: Option<Direction>)
    ensures blocked ==> d.None?
    ensures !blocked && threshold >= DragSlop ==>
      (d.Some? <==> StartsDrag(x1 - x0, y1 - y0) && Abs(x1 - x0) > threshold)
    ensures d == Some(Next) ==> x1 < x0
    ensures d == Some(Prev) ==> x1 > x0
  {
    var t1 := StartStep(Initial, 1, x0, y0, blocked);
    var t2 := MoveStep(t1, 1, x1, y1, blocked).0;
    EndStep(t2, threshold).1
  }

  /** As written the listeners test the panel flags of the render in which
      they were attached (the attaching effect does not depend on them). */
  function BlockedAsWritten(openAtAttach: bool, openNow: bool): bool
  {
    openAtAttach
  }

  /** What the guard is for: a panel or the context menu open now. */
  function Blocked(openAtAttach: bool, openNow: bool): bool
  {
    openNow
  }

  /** With the listeners attached while every panel was closed, a swipe made
      over a panel opened since turns the page as written, and does not with
      the current flags. */
  lemma SwipeThroughOpenPanel()
    ensures Gesture(BlockedAsWritten(false, true), 200.0, 100.0, 100.0, 100.0, 60.0) == Some(Next)
    ensures Gesture(Blocked(false, true), 200.0, 100.0, 100.0, 100.0, 60.0) == None
  {
  }

  /** With current flags an open panel stops every gesture. */
  lemma OpenPanelStopsGestures(x0: real, y0: real, x1: real, y1: real, threshold: real)
    ensures Gesture(Blocked(false, true), x0, y0, x1, y1, threshold) == None
  {
  }

  /** The recogniser attached to one document.  `isSwiping` is the page's
      flag it sets; `turns` are the page turns it has asked for. */
  class Recognizer {
    var tracker: Tracker
    var isSwiping: bool
    var turns: seq<Direction>
    const threshold: real

    constructor (innerWidth: real)
      ensures tracker == Initial && !isSwiping && turns == [] && threshold == Threshold(innerWidth)
    {
      tracker := Initial;
      isSwiping := false;
      turns := [];
      threshold := Threshold(innerWidth);
    }

    method TouchStart(touches: nat, x: real, y: real, blocked: bool)
      modifies this`tracker
      ensures tracker == StartStep(old(tracker), touches, x, y, blocked)
    {
      if touches != 1 || blocked {
        return;
      }
      tracker := Tracker(x, y, 0.0, false);
    }

    method TouchMove(touches: nat, x: real, y: real, blocked: bool) returns (preventDefault: bool)
      modifies this`tracker, this`isSwiping
      ensures (tracker, preventDefault) == MoveStep(old(tracker), touches, x, y, blocked)
      ensures isSwiping == (old(isSwiping) || preventDefault)
    {
      preventDefault := false;
      if touches != 1 || blocked {
        return;
      }
      var dx := x - tracker.startX;
      var dy := y - tracker.startY;
      if !tracker.isDragging && Abs(dx) > Abs(dy) && Abs(dx) > DragSlop {
        tracker := tracker.(isDragging := true);
        isSwiping := true;
        preventDefault := true;
      }
      if !tracker.isDragging {
        return;
      }
      tracker := tracker.(deltaX := dx);
    }

    /** The page turn is asked for at once; the 250 ms animation before it
        is not modelled. */
    method TouchEnd()
      modifies this`tracker, this`isSwiping, this`turns
      ensures tracker == EndStep(old(tracker), threshold).0
      ensures !isSwiping
      ensures EndStep(old(tracker), threshold).1.None? ==> turns == old(turns)
      ensures EndStep(old(tracker), threshold).1.Some? ==> turns == old(turns) + [EndStep(old(tracker), threshold).1.value]
    {
      if !tracker.isDragging {
        isSwiping := false;
        return;
      }
      if Abs(tracker.deltaX) > threshold {
        var d := if tracker.deltaX < 0.0 then Next else Prev;
        turns := turns + [d];
      }
      isSwiping := false;
      tracker := tracker.(isDragging := false);
    }
  }

  /** `attachedDocs` and the documents that got listeners. */
  class Attachments {
    var attachedDocs: set<nat>
    var listened: seq<nat>

    /** Each document has at most one set of listeners, and only attached
        documents have any. */
    predicate Valid()
      reads this
    {
      (forall i, j :: 0 <= i < j < |listened| ==> listened[i] != listened[j])
      && (forall i :: 0 <= i < |listened| ==> listened[i] in attachedDocs)
    }

    constructor ()
      ensures Valid() && attachedDocs == {} && listened == []
    {
      attachedDocs := {};
      listened := [];
    }

    /** `attachSwipeToDoc(content)` for document `doc`; `hasFrame` is whether
        the document's frame has a parent element to move.  A document is
        marked even when it has no frame, and never gets listeners twice. */
    method Attach(doc: nat, hasFrame: bool)
      requires Valid()
      modifies this
      ensures Valid()
      ensures attachedDocs == old(attachedDocs) + {doc}
      ensures doc !in old(attachedDocs) && hasFrame ==> listened == old(listened) + [doc]
      ensures doc in old(attachedDocs) || !hasFrame ==> listened == old(listened)
    {
      if doc in attachedDocs {
        return;
      }
      attachedDocs := attachedDocs + {doc};
      if !hasFrame {
        return;
      }
      listened := listened + [doc];
    }
  }
}
