/** The pointer disambiguator of the current revision: the drag state that
    WM_LBUTTONDOWN, WM_LBUTTONUP, WM_LBUTTONDBLCLK and WM_MOUSEMOVE update,
    and the way a pen-originated move is rewritten into a small step away
    from where the button went down. */
module Pointer {
  import opened Win32

  /** `(wParam & MK_CONTROL) || (wParam & MK_SHIFT)` of a mouse message. */
  predicate HoldsCtrlOrShift(keys: bv16): (r: bool)
    ensures r <==> keys & (MK_CONTROL | MK_SHIFT) != 0
  {
    (keys & MK_CONTROL) != 0 || (keys & MK_SHIFT) != 0
  }

  /** An errant move: a pen move landing exactly on the button-down point
      while a digitizer event is still unacknowledged. */
  predicate IsErrant(pen: bool, hadDigitizerEvent: bool, m: Point, downPoint: Point): (r: bool)
    ensures !pen || !hadDigitizerEvent ==> !r
    ensures r ==> m.x == downPoint.x && m.y == downPoint.y
    ensures pen && hadDigitizerEvent && m.x == downPoint.x && m.y == downPoint.y ==> r
  {
    pen && hadDigitizerEvent && m == downPoint
  }

  /** The jitter filter: the pending delta is under 3 units on both axes,
      or the random draw is above 70 (about 29 draws in 100). */
  predicate Jitter(delta: Point, draw: int): (r: bool)
    ensures draw > 70 ==> r
    ensures draw <= 70 ==> (r <==> -3 < delta.x < 3 && -3 < delta.y < 3)
  {
    (Abs(delta.x) < 3 && Abs(delta.y) < 3) || draw > 70
  }

  /** The disambiguator's globals as one value: gDragDown, gDragPenDown,
      gDragDownPoint, gDragPrevDigitizerPoint, gDragDigitizerDelta,
      gHadDigitizerEvent, gWasDigitizerClick, gHadDigitizerClick and
      gHadDoubleClick. */
  datatype DragState = DragState(
    dragDown: bool,
    dragPenDown: bool,
    dragDownPoint: Point,
    dragPrevDigitizerPoint: Point,
    dragDigitizerDelta: Point,
    hadDigitizerEvent: bool,
    wasDigitizerClick: bool,
    hadDigitizerClick: bool,
    hadDoubleClick: int)
  {
    /** The double-click counter stays within 0..3. */
    predicate Valid() { 0 <= hadDoubleClick <= 3 }
  }

  /** A message point as rewritten by the disambiguator, and its state after. */
  datatype Rewrite = Rewrite(next: DragState, out: Coords)

  /** WM_LBUTTONDOWN's update. */
  function PressStep(s: DragState, at: Coords, pen: bool): (r: DragState)
    ensures r.dragDown && r.dragPenDown == pen && r.dragDownPoint == ToPoint(at)
    ensures r.hadDoubleClick == s.hadDoubleClick
  {
    s.(dragDown := true, dragPenDown := pen, dragDownPoint := ToPoint(at), wasDigitizerClick := false,
       dragDigitizerDelta := Origin,
       hadDigitizerClick := pen || s.hadDigitizerClick, hadDigitizerEvent := pen || s.hadDigitizerEvent)
  }

  /** WM_LBUTTONUP's update. */
  function ReleaseStep(s: DragState): (r: DragState)
    ensures !r.dragDown && !r.dragPenDown
    ensures r.(dragDown := s.dragDown, dragPenDown := s.dragPenDown) == s
  {
    s.(dragDown := false, dragPenDown := false)
  }

  /** WM_LBUTTONDBLCLK's rewrite. */
  function DoubleClickStep(s: DragState, at: Coords, pen: bool): (r: Rewrite)
    ensures r.next.(hadDoubleClick := s.hadDoubleClick) == s
    ensures s.Valid() ==> r.next.Valid()
    ensures pen ==> r.out == Pack(s.dragPrevDigitizerPoint) && r.next.hadDoubleClick == 3
    ensures !pen ==> r == Rewrite(s, at)
  {
    if pen then Rewrite(s.(hadDoubleClick := 3), Pack(s.dragPrevDigitizerPoint)) else Rewrite(s, at)
  }

  /** The digitizer part of WM_MOUSEMOVE: the rewritten point and the state
      after. A move never touches the button flags, counts the double-click
      counter down, and is not rewritten while the cursor shows. */
  function MoveStep(s: DragState, keys: bv16, at: Coords, cursorShown: bool, pen: bool, draw: Percent): (r: Rewrite)
    ensures r.next.dragDown == s.dragDown && r.next.dragPenDown == s.dragPenDown
    ensures r.next.hadDoubleClick == if s.hadDoubleClick > 0 then s.hadDoubleClick - 1 else s.hadDoubleClick
    ensures cursorShown ==> r.out == at
  {
    var isDoubleClick := s.hadDoubleClick > 0;
    var s1 := if isDoubleClick then s.(hadDoubleClick := s.hadDoubleClick - 1) else s;
    if !cursorShown then
      if pen && !IsErrant(pen, s1.hadDigitizerEvent, ToPoint(at), s1.dragDownPoint) then TrackStep(s1, keys, at, draw)
      else if s1.hadDigitizerEvent || s1.dragPenDown then WarpStep(s1, keys, at)
      else Rewrite(s1, at)
    else if pen && !isDoubleClick then Rewrite(s1.(dragPrevDigitizerPoint := ToPoint(at)), at)
    else Rewrite(s1, at)
  }

  /** A hidden-cursor pen move that is not errant. */
  function TrackStep(s: DragState, keys: bv16, at: Coords, draw: Percent): Rewrite
  {
    var m := ToPoint(at);
    var wasAcknowledged := !s.hadDigitizerEvent;
    var s1 := s.(hadDigitizerEvent := true, wasDigitizerClick := true);
    if HoldsCtrlOrShift(keys) && !wasAcknowledged then Rewrite(s1, Pack(s1.dragDownPoint))
    else
      var target := s1.dragDigitizerDelta.Plus(m.Minus(s1.dragPrevDigitizerPoint));
      var s2 := s1.(dragPrevDigitizerPoint := m, dragDigitizerDelta := target);
      if !wasAcknowledged && Jitter(target, draw) then Rewrite(s2, Pack(s2.dragDownPoint))
      else Rewrite(s2.(dragDigitizerDelta := Origin), Pack(s2.dragDownPoint.Plus(target)))
  }

  /** A hidden-cursor move that absorbs the host's warp back. */
  function WarpStep(s: DragState, keys: bv16, at: Coords): Rewrite
  {
    var s1 := if s.hadDigitizerClick then s.(hadDigitizerClick := false, dragDownPoint := ToPoint(at)) else s;
    var s2 := if HoldsCtrlOrShift(keys) then s1.(dragDigitizerDelta := Origin) else s1;
    Rewrite(s2.(hadDigitizerEvent := false), if HoldsCtrlOrShift(keys) then Pack(s2.dragDownPoint) else at)
  }

  /** The cases of MoveStep. With the cursor shown a pen move only becomes
      the new baseline (unless a double-click is being absorbed). With the
      cursor hidden a tracked pen move is rewritten to the origin plus the
      pending delta, or held at the origin by the modifier and jitter
      filters; any other move, after a digitizer event or during a pen
      drag, is the host warping the cursor back: the origin may be
      re-homed and the pending delta dropped. */
  lemma MoveStepCases(s: DragState, keys: bv16, at: Coords, cursorShown: bool, pen: bool, draw: Percent)
    ensures s.Valid() ==> MoveStep(s, keys, at, cursorShown, pen, draw).next.Valid()
    // Cursor shown: the pen point becomes the baseline, nothing is rewritten.
    ensures var r := MoveStep(s, keys, at, cursorShown, pen, draw);
      cursorShown ==>
        && r.next.dragPrevDigitizerPoint == (if pen && !(s.hadDoubleClick > 0) then ToPoint(at) else s.dragPrevDigitizerPoint)
        && r.next.dragDownPoint == s.dragDownPoint && r.next.dragDigitizerDelta == s.dragDigitizerDelta
        && r.next.hadDigitizerEvent == s.hadDigitizerEvent && r.next.wasDigitizerClick == s.wasDigitizerClick
        && r.next.hadDigitizerClick == s.hadDigitizerClick
    // Cursor hidden, tracked pen move.
    ensures var r := MoveStep(s, keys, at, cursorShown, pen, draw);
      !cursorShown && pen && !IsErrant(pen, s.hadDigitizerEvent, ToPoint(at), s.dragDownPoint) ==>
        && r.next.hadDigitizerEvent && r.next.wasDigitizerClick
        && r.next.dragDownPoint == s.dragDownPoint && r.next.hadDigitizerClick == s.hadDigitizerClick
        && if HoldsCtrlOrShift(keys) && s.hadDigitizerEvent then
             && r.out == Pack(s.dragDownPoint)
             && r.next.dragPrevDigitizerPoint == s.dragPrevDigitizerPoint
             && r.next.dragDigitizerDelta == s.dragDigitizerDelta
           else
             var sum := s.dragDigitizerDelta.Plus(ToPoint(at).Minus(s.dragPrevDigitizerPoint));
             && r.next.dragPrevDigitizerPoint == ToPoint(at)
             && if s.hadDigitizerEvent && Jitter(sum, draw) then
                  r.out == Pack(s.dragDownPoint) && r.next.dragDigitizerDelta == sum
                else
                  r.out == Pack(s.dragDownPoint.Plus(sum)) && r.next.dragDigitizerDelta == Origin
    // Cursor hidden, any other move: a corrective warp while a digitizer drag is live.
    ensures var r := MoveStep(s, keys, at, cursorShown, pen, draw);
      !cursorShown && !(pen && !IsErrant(pen, s.hadDigitizerEvent, ToPoint(at), s.dragDownPoint)) ==>
        && r.next.dragPrevDigitizerPoint == s.dragPrevDigitizerPoint && r.next.wasDigitizerClick == s.wasDigitizerClick
        && if s.hadDigitizerEvent || s.dragPenDown then
             && !r.next.hadDigitizerEvent && !r.next.hadDigitizerClick
             && r.next.dragDownPoint == (if s.hadDigitizerClick then ToPoint(at) else s.dragDownPoint)
             && if HoldsCtrlOrShift(keys) then
                  r.out == Pack(r.next.dragDownPoint) && r.next.dragDigitizerDelta == Origin
                else
                  r.out == at && r.next.dragDigitizerDelta == s.dragDigitizerDelta
           else
             && r.out == at
             && r.next.dragDownPoint == s.dragDownPoint && r.next.dragDigitizerDelta == s.dragDigitizerDelta
             && r.next.hadDigitizerEvent == s.hadDigitizerEvent && r.next.hadDigitizerClick == s.hadDigitizerClick
  {
    var s1 := if s.hadDoubleClick > 0 then s.(hadDoubleClick := s.hadDoubleClick - 1) else s;
    if !cursorShown {
      if pen && !IsErrant(pen, s1.hadDigitizerEvent, ToPoint(at), s1.dragDownPoint) {
        assert MoveStep(s, keys, at, cursorShown, pen, draw) == TrackStep(s1, keys, at, draw);
      } else if s1.hadDigitizerEvent || s1.dragPenDown {
        assert MoveStep(s, keys, at, cursorShown, pen, draw) == WarpStep(s1, keys, at);
      }
    }
  }

  class PointerDisambiguator {
    var dragDown: bool
    var dragPenDown: bool
    var dragDownPoint: Point
    var dragPrevDigitizerPoint: Point
    var dragDigitizerDelta: Point
    var hadDigitizerEvent: bool
    var wasDigitizerClick: bool
    var hadDigitizerClick: bool
    var hadDoubleClick: int

    /** The globals as one value. */
    function State(): DragState
      reads this
    {
      DragState(dragDown, dragPenDown, dragDownPoint, dragPrevDigitizerPoint, dragDigitizerDelta,
                hadDigitizerEvent, wasDigitizerClick, hadDigitizerClick, hadDoubleClick)
    }

    ghost predicate Valid()
      reads this
    {
      State().Valid()
    }

    constructor()
      ensures Valid()
      ensures !dragDown && !dragPenDown && !hadDigitizerEvent && !wasDigitizerClick && !hadDigitizerClick
      ensures dragDownPoint == Origin && dragPrevDigitizerPoint == Origin && dragDigitizerDelta == Origin
      ensures hadDoubleClick == 0
    {
      dragDown, dragPenDown := false, false;
      dragDownPoint, dragPrevDigitizerPoint, dragDigitizerDelta := Origin, Origin, Origin;
      hadDigitizerEvent, wasDigitizerClick, hadDigitizerClick := false, false, false;
      hadDoubleClick := 0;
    }

    /** WM_LBUTTONDOWN: the click point becomes the drag origin and the
        pending delta is cleared; a pen click also marks a digitizer click
        and event. */
    method OnButtonDown(at: Coords, pen: bool)
      requires Valid()
      modifies this
      ensures Valid()
      ensures State() == PressStep(old(State()), at, pen)
      ensures dragDown && dragDownPoint == ToPoint(at) && dragDigitizerDelta == Origin && !wasDigitizerClick
      ensures dragPenDown == pen
      ensures pen ==> hadDigitizerClick && hadDigitizerEvent
      ensures !pen ==> hadDigitizerClick == old(hadDigitizerClick) && hadDigitizerEvent == old(hadDigitizerEvent)
      ensures dragPrevDigitizerPoint == old(dragPrevDigitizerPoint) && hadDoubleClick == old(hadDoubleClick)
    {
      var mpos := ToPoint(at);
      if pen {
        hadDigitizerClick := true;
        hadDigitizerEvent := true;
        dragPenDown := true;
      } else {
        dragPenDown := false;
      }
      dragDown := true;
      dragDownPoint := mpos;
      wasDigitizerClick := false;
      dragDigitizerDelta := Point(0, 0);
    }

    /** WM_LBUTTONUP: only the two down flags are cleared. */
    method OnButtonUp()
      requires Valid()
      modifies this
      ensures Valid()
      ensures State() == ReleaseStep(old(State()))
      ensures !dragDown && !dragPenDown
      ensures dragDownPoint == old(dragDownPoint) && dragPrevDigitizerPoint == old(dragPrevDigitizerPoint)
      ensures dragDigitizerDelta == old(dragDigitizerDelta) && hadDoubleClick == old(hadDoubleClick)
      ensures hadDigitizerEvent == old(hadDigitizerEvent) && wasDigitizerClick == old(wasDigitizerClick)
      ensures hadDigitizerClick == old(hadDigitizerClick)
    {
      dragDown := false;
      dragPenDown := false;
    }

    /** WM_LBUTTONDBLCLK: a pen double-click is moved to the last tracked
        pen point and arms the counter for the next three moves. */
    method OnDoubleClick(at: Coords, pen: bool) returns (out: Coords)
      requires Valid()
      modifies this
      ensures Valid()
      ensures Rewrite(State(), out) == DoubleClickStep(old(State()), at, pen)
      ensures pen ==> out == Pack(dragPrevDigitizerPoint) && hadDoubleClick == 3
      ensures !pen ==> out == at && hadDoubleClick == old(hadDoubleClick)
      ensures dragDown == old(dragDown) && dragPenDown == old(dragPenDown)
      ensures dragDownPoint == old(dragDownPoint) && dragPrevDigitizerPoint == old(dragPrevDigitizerPoint)
      ensures dragDigitizerDelta == old(dragDigitizerDelta)
      ensures hadDigitizerEvent == old(hadDigitizerEvent) && wasDigitizerClick == old(wasDigitizerClick)
      ensures hadDigitizerClick == old(hadDigitizerClick)
    {
      out := at;
      if pen {
        out := Pack(dragPrevDigitizerPoint);
        hadDoubleClick := 3;
      }
    }

    /** The digitizer part of WM_MOUSEMOVE; `out` is the rewritten lParam.
        The new state and `out` are MoveStep's, whose cases MoveStepCases
        spells out. */
    method OnMove(keys: bv16, at: Coords, cursorShown: bool, pen: bool, draw: Percent) returns (out: Coords)
      requires Valid()
      modifies this
      ensures Valid()
      ensures Rewrite(State(), out) == MoveStep(old(State()), keys, at, cursorShown, pen, draw)
    {
      var isDoubleClick := hadDoubleClick > 0;
      if isDoubleClick {
        hadDoubleClick := hadDoubleClick - 1;
      }
      out := at;
      if !cursorShown {
        if pen && !IsErrant(pen, hadDigitizerEvent, ToPoint(at), dragDownPoint) {
          out := TrackPenMove(keys, at, draw);
        } else if hadDigitizerEvent || dragPenDown {
          out := AbsorbWarp(keys, at);
        }
      } else if pen && !isDoubleClick {
        dragPrevDigitizerPoint := ToPoint(at);
      }
    }

    /** A hidden-cursor pen move that is not errant. */
    method TrackPenMove(keys: bv16, at: Coords, draw: Percent) returns (out: Coords)
      modifies this
      ensures Rewrite(State(), out) == TrackStep(old(State()), keys, at, draw)
      ensures hadDigitizerEvent && wasDigitizerClick
      ensures hadDoubleClick == old(hadDoubleClick) && dragDown == old(dragDown) && dragPenDown == old(dragPenDown)
      ensures dragDownPoint == old(dragDownPoint) && hadDigitizerClick == old(hadDigitizerClick)
      ensures HoldsCtrlOrShift(keys) && old(hadDigitizerEvent) ==>
        && out == Pack(dragDownPoint)
        && dragPrevDigitizerPoint == old(dragPrevDigitizerPoint)
        && dragDigitizerDelta == old(dragDigitizerDelta)
      ensures !(HoldsCtrlOrShift(keys) && old(hadDigitizerEvent)) ==>
        var sum := old(dragDigitizerDelta).Plus(ToPoint(at).Minus(old(dragPrevDigitizerPoint)));
        && dragPrevDigitizerPoint == ToPoint(at)
        && if old(hadDigitizerEvent) && Jitter(sum, draw) then
             out == Pack(dragDownPoint) && dragDigitizerDelta == sum
           else
             out == Pack(dragDownPoint.Plus(sum)) && dragDigitizerDelta == Origin
    {
      var m := ToPoint(at);
      var wasAcknowledged := !hadDigitizerEvent;
      hadDigitizerEvent := true;
      wasDigitizerClick := true;
      if HoldsCtrlOrShift(keys) && !wasAcknowledged {
        out := Pack(dragDownPoint);
        return;
      }
      var d := m.Minus(dragPrevDigitizerPoint);
      dragPrevDigitizerPoint := m;
      dragDigitizerDelta := dragDigitizerDelta.Plus(d);
      var target := dragDigitizerDelta;
      if !wasAcknowledged && Jitter(target, draw) {
        out := Pack(dragDownPoint);
        return;
      }
      out := Pack(dragDownPoint.Plus(target));
      dragDigitizerDelta := Point(0, 0);
    }

    /** A hidden-cursor move that is not a tracked pen move, while a
        digitizer event or pen drag is live: the host has warped the cursor
        back to where it believes the button went down. */
    method AbsorbWarp(keys: bv16, at: Coords) returns (out: Coords)
      modifies this
      ensures Rewrite(State(), out) == WarpStep(old(State()), keys, at)
      ensures !hadDigitizerEvent && !hadDigitizerClick
      ensures dragDownPoint == (if old(hadDigitizerClick) then ToPoint(at) else old(dragDownPoint))
      ensures HoldsCtrlOrShift(keys) ==> out == Pack(dragDownPoint) && dragDigitizerDelta == Origin
      ensures !HoldsCtrlOrShift(keys) ==> out == at && dragDigitizerDelta == old(dragDigitizerDelta)
      ensures hadDoubleClick == old(hadDoubleClick) && dragDown == old(dragDown) && dragPenDown == old(dragPenDown)
      ensures dragPrevDigitizerPoint == old(dragPrevDigitizerPoint) && wasDigitizerClick == old(wasDigitizerClick)
    {
      out := at;
      if hadDigitizerClick {
        hadDigitizerClick := false;
        dragDownPoint := ToPoint(at);
      }
      if HoldsCtrlOrShift(keys) {
        dragDigitizerDelta := Point(0, 0);
        out := Pack(dragDownPoint);
      }
      hadDigitizerEvent := false;
    }
  }
}
