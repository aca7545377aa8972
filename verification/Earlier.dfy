/** The earlier revision of OurWndProc (top-level dllmain.cpp). It has no
    pan gesture, no trackpad zoom and no pen-drag flag; a tracked pen move
    is always rewritten and keeps its running delta; a hidden-cursor move
    with no digitizer event pending re-homes the drag origin; the wheel
    uses the older notch formula. Registry, key remaps and
    MakeKeyboardEvent are the shared ones. */
module Earlier {
  import opened Win32
  import opened Keys
  import opened WheelMath
  import opened WindowRegistry

  /** The running delta after the tracked pen moves `moves`, starting from
      delta `delta` and last pen point `prev`: each move adds its distance
      from the point before it. */
  function TrackedDelta(delta: Point, prev: Point, moves: seq<Point>): Point
    decreases |moves|
  {
    if moves == [] then delta
    else TrackedDelta(delta.Plus(moves[0].Minus(prev)), moves[0], moves[1..])
  }

  /** The running delta telescopes: after any run of tracked pen moves it is
      the starting delta plus the distance from the starting point to the
      last move, whatever the moves in between. */
  lemma {:induction false} TrackedDeltaTelescopes(delta: Point, prev: Point, moves: seq<Point>)
    requires moves != []
    ensures TrackedDelta(delta, prev, moves) == delta.Plus(moves[|moves| - 1].Minus(prev))
    decreases |moves|
  {
    if |moves| > 1 {
      TrackedDeltaTelescopes(delta.Plus(moves[0].Minus(prev)), moves[0], moves[1..]);
    }
  }

  /** Extending a run of tracked pen moves by one more move continues from
      the delta and the last point the run left behind. */
  lemma {:induction false} TrackedDeltaSnoc(delta: Point, prev: Point, moves: seq<Point>, m: Point)
    requires moves != []
    ensures TrackedDelta(delta, prev, moves + [m])
      == TrackedDelta(TrackedDelta(delta, prev, moves), moves[|moves| - 1], [m])
    decreases |moves|
  {
    assert (moves + [m])[0] == moves[0];
    assert (moves + [m])[1..] == moves[1..] + [m];
    if |moves| > 1 {
      TrackedDeltaSnoc(delta.Plus(moves[0].Minus(prev)), moves[0], moves[1..], m);
    }
  }

  /** The earlier revision's drag state: the current one's without the pen
      drag flag. */
  datatype EarlyDrag = EarlyDrag(
    dragDown: bool,
    dragDownPoint: Point,
    dragPrevDigitizerPoint: Point,
    dragDigitizerDelta: Point,
    hadDigitizerEvent: bool,
    wasDigitizerClick: bool,
    hadDigitizerClick: bool,
    hadDoubleClick: int)
  {
    /** The double-click counter stays within 0..3. */
    predicate Valid() { 0 <= hadDoubleClick <= 3 }
  }

  /** A drag state together with the point a message is forwarded at. */
  datatype EarlyRewrite = EarlyRewrite(next: EarlyDrag, out: Coords)

  /** WM_LBUTTONDOWN: the click point becomes the drag origin and the
      running delta is cleared; a pen click marks a digitizer click and
      event. */
  function EarlyPress(s: EarlyDrag, at: Coords, pen: bool): (r: EarlyDrag)
    ensures s.Valid() ==> r.Valid()
    ensures r.dragDown && r.dragDownPoint == ToPoint(at) && r.dragDigitizerDelta == Origin && !r.wasDigitizerClick
    ensures pen ==> r.hadDigitizerClick && r.hadDigitizerEvent
    ensures !pen ==> r.hadDigitizerClick == s.hadDigitizerClick && r.hadDigitizerEvent == s.hadDigitizerEvent
    ensures r.dragPrevDigitizerPoint == s.dragPrevDigitizerPoint && r.hadDoubleClick == s.hadDoubleClick
  {
    s.(dragDown := true, dragDownPoint := ToPoint(at), wasDigitizerClick := false, dragDigitizerDelta := Point(0, 0),
       hadDigitizerClick := s.hadDigitizerClick || pen, hadDigitizerEvent := s.hadDigitizerEvent || pen)
  }

  /** WM_LBUTTONUP: only the down flag is cleared. */
  function EarlyRelease(s: EarlyDrag): (r: EarlyDrag)
    ensures s.Valid() ==> r.Valid()
    ensures !r.dragDown && r.(dragDown := s.dragDown) == s
  {
    s.(dragDown := false)
  }

  /** WM_LBUTTONDBLCLK: a pen double-click is moved to the last tracked pen
      point and arms the counter for the next three moves. */
  function EarlyDoubleClick(s: EarlyDrag, at: Coords, pen: bool): (r: EarlyRewrite)
    ensures s.Valid() ==> r.next.Valid()
    ensures pen ==> r.out == Pack(s.dragPrevDigitizerPoint) && r.next.hadDoubleClick == 3
    ensures !pen ==> r.out == at && r.next == s
    ensures r.next.(hadDoubleClick := s.hadDoubleClick) == s
  {
    if pen then EarlyRewrite(s.(hadDoubleClick := 3), Pack(s.dragPrevDigitizerPoint)) else EarlyRewrite(s, at)
  }

  /** WM_MOUSEMOVE in the earlier revision, after the double-click counter
      has counted down. */
  function EarlyMoveAfterCount(s: EarlyDrag, m: Point, at: Coords, cursorShown: bool, pen: bool, isDoubleClick: bool): EarlyRewrite
  {
    if cursorShown then
      if pen && !isDoubleClick then EarlyRewrite(s.(dragPrevDigitizerPoint := m), at) else EarlyRewrite(s, at)
    else if pen && !(s.hadDigitizerEvent && m == s.dragDownPoint) then
      var delta := s.dragDigitizerDelta.Plus(m.Minus(s.dragPrevDigitizerPoint));
      EarlyRewrite(s.(hadDigitizerEvent := true, wasDigitizerClick := true, dragPrevDigitizerPoint := m,
                      dragDigitizerDelta := delta),
                   Pack(s.dragDownPoint.Plus(delta)))
    else if s.hadDigitizerEvent then
      var origin := if s.hadDigitizerClick then m else s.dragDownPoint;
      EarlyRewrite(s.(hadDigitizerClick := false, dragDownPoint := origin, dragDigitizerDelta := Point(0, 0),
                      hadDigitizerEvent := false),
                   Pack(origin))
    else EarlyRewrite(s.(dragDownPoint := m), at)
  }

  /** WM_MOUSEMOVE: the new drag state and the point the move is forwarded
      at. */
  function EarlyMove(s: EarlyDrag, at: Coords, cursorShown: bool, pen: bool): EarlyRewrite
  {
    var isDoubleClick := s.hadDoubleClick > 0;
    var s1 := if isDoubleClick then s.(hadDoubleClick := s.hadDoubleClick - 1) else s;
    EarlyMoveAfterCount(s1, ToPoint(at), at, cursorShown, pen, isDoubleClick)
  }

  /** The cases of EarlyMove. With the cursor hidden, a pen move that is
      not errant is rewritten to the origin plus the running delta, which
      grows by the move's distance from the previous pen point and is never
      reset by emitting (see TrackedDeltaTelescopes). Any other
      hidden-cursor move either absorbs the host's warp back to the origin
      (a digitizer event pending) or re-homes the origin there. With the
      cursor shown a pen move only becomes the new baseline. */
  lemma EarlyMoveCases(s: EarlyDrag, at: Coords, cursorShown: bool, pen: bool)
    ensures var r := EarlyMove(s, at, cursorShown, pen);
      s.Valid() ==> r.next.Valid()
    ensures var r := EarlyMove(s, at, cursorShown, pen);
      && r.next.hadDoubleClick == (if s.hadDoubleClick > 0 then s.hadDoubleClick - 1 else s.hadDoubleClick)
      && r.next.dragDown == s.dragDown
    ensures var r := EarlyMove(s, at, cursorShown, pen);
      cursorShown ==>
        && r.out == at
        && r.next.dragPrevDigitizerPoint == (if pen && !(s.hadDoubleClick > 0) then ToPoint(at) else s.dragPrevDigitizerPoint)
        && r.next.dragDownPoint == s.dragDownPoint && r.next.dragDigitizerDelta == s.dragDigitizerDelta
        && r.next.hadDigitizerEvent == s.hadDigitizerEvent && r.next.wasDigitizerClick == s.wasDigitizerClick
        && r.next.hadDigitizerClick == s.hadDigitizerClick
    // Tracked pen move.
    ensures var r := EarlyMove(s, at, cursorShown, pen);
      !cursorShown && pen && !(s.hadDigitizerEvent && ToPoint(at) == s.dragDownPoint) ==>
        && r.next.hadDigitizerEvent && r.next.wasDigitizerClick
        && r.next.dragPrevDigitizerPoint == ToPoint(at)
        && r.next.dragDigitizerDelta == TrackedDelta(s.dragDigitizerDelta, s.dragPrevDigitizerPoint, [ToPoint(at)])
        && r.out == Pack(r.next.dragDownPoint.Plus(r.next.dragDigitizerDelta))
        && r.next.dragDownPoint == s.dragDownPoint && r.next.hadDigitizerClick == s.hadDigitizerClick
    // Any other hidden-cursor move.
    ensures var r := EarlyMove(s, at, cursorShown, pen);
      !cursorShown && !(pen && !(s.hadDigitizerEvent && ToPoint(at) == s.dragDownPoint)) ==>
        && r.next.dragPrevDigitizerPoint == s.dragPrevDigitizerPoint && r.next.wasDigitizerClick == s.wasDigitizerClick
        && !r.next.hadDigitizerEvent
        && if s.hadDigitizerEvent then
             && !r.next.hadDigitizerClick && r.next.dragDigitizerDelta == Origin
             && r.next.dragDownPoint == (if s.hadDigitizerClick then ToPoint(at) else s.dragDownPoint)
             && r.out == Pack(r.next.dragDownPoint)
           else
             && r.out == at && r.next.dragDownPoint == ToPoint(at)
             && r.next.dragDigitizerDelta == s.dragDigitizerDelta && r.next.hadDigitizerClick == s.hadDigitizerClick
  {
    var m := ToPoint(at);
    assert TrackedDelta(s.dragDigitizerDelta, s.dragPrevDigitizerPoint, [m])
      == s.dragDigitizerDelta.Plus(m.Minus(s.dragPrevDigitizerPoint));
  }

  /** The points of a run of moves. */
  function Points(ats: seq<Coords>): (ps: seq<Point>)
    ensures |ps| == |ats| && forall i :: 0 <= i < |ats| ==> ps[i] == ToPoint(ats[i])
  {
    seq(|ats|, i requires 0 <= i < |ats| => ToPoint(ats[i]))
  }

  /** The drag state after a run of pen moves with the cursor hidden, one
      EarlyMove after another. */
  function EarlyPenRun(s: EarlyDrag, ats: seq<Coords>): EarlyDrag
    decreases |ats|
  {
    if ats == [] then s else EarlyPenRun(EarlyMove(s, ats[0], false, true).next, ats[1..])
  }

  /** A run of hidden-cursor pen moves, none on the button-down point, is
      tracked move by move: the origin stays, the baseline ends at the last
      move, and the running delta is TrackedDelta of the run's points,
      which telescopes to the start delta plus the distance from the start
      baseline to the last move. */
  lemma {:induction false} EarlyPenRunTracks(s: EarlyDrag, ats: seq<Coords>)
    requires forall i :: 0 <= i < |ats| ==> ToPoint(ats[i]) != s.dragDownPoint
    ensures var r := EarlyPenRun(s, ats);
      && r.dragDownPoint == s.dragDownPoint
      && r.dragDigitizerDelta == TrackedDelta(s.dragDigitizerDelta, s.dragPrevDigitizerPoint, Points(ats))
      && (ats != [] ==> r.dragPrevDigitizerPoint == ToPoint(ats[|ats| - 1]) && r.hadDigitizerEvent)
    ensures ats != [] ==>
      EarlyPenRun(s, ats).dragDigitizerDelta == s.dragDigitizerDelta.Plus(ToPoint(ats[|ats| - 1]).Minus(s.dragPrevDigitizerPoint))
    decreases |ats|
  {
    if ats != [] {
      var m := ToPoint(ats[0]);
      var s1 := EarlyMove(s, ats[0], false, true).next;
      EarlyMoveCases(s, ats[0], false, true);
      assert s1.dragDownPoint == s.dragDownPoint && s1.dragPrevDigitizerPoint == m;
      assert s1.dragDigitizerDelta == s.dragDigitizerDelta.Plus(m.Minus(s.dragPrevDigitizerPoint));
      EarlyPenRunTracks(s1, ats[1..]);
      assert Points(ats)[0] == m && Points(ats)[1..] == Points(ats[1..]);
      if |ats| > 1 {
        assert ats[1..][|ats[1..]| - 1] == ats[|ats| - 1];
      }
      TrackedDeltaTelescopes(s.dragDigitizerDelta, s.dragPrevDigitizerPoint, Points(ats));
    }
  }

  /** The earlier revision's wheel accumulators, gWheelDeltaAcc.y and .x. */
  datatype EarlyWheelState = EarlyWheelState(vertical: int, horizontal: int)
  {
    /** Both accumulators hold less than one notch. */
    predicate Valid() { Abs(vertical) < WHEEL_DELTA && Abs(horizontal) < WHEEL_DELTA }
  }

  /** The new accumulators, the deliveries and the reply of one wheel
      message. */
  datatype EarlyWheeled = EarlyWheeled(next: EarlyWheelState, effects: seq<Effect>, reply: Reply)

  /** WM_MOUSEWHEEL: the delta is scaled by 4/3 into the vertical
      accumulator and its whole notches, if any, are forwarded as one wheel
      event with the same key word. */
  function EarlyWheelStep(s: EarlyWheelState, to: Proc, keys: bv16, delta: Short, at: Coords): (r: EarlyWheeled)
    ensures s.Valid() ==> r.next.Valid()
    ensures r.next.horizontal == s.horizontal
    ensures ForwardCount(r.effects) == if r.reply == ForwardResult then 1 else 0
    ensures var out := s.vertical + ScaleVertical(delta) - r.next.vertical;
      && out % WHEEL_DELTA == 0
      && (r.next.vertical == 0 || (r.next.vertical < 0 <==> out + r.next.vertical < 0))
      && (out == 0 ==> r.effects == [] && r.reply == Zero)
      && (out != 0 ==> r.effects == [Forward(to, MouseWheel(keys, Wrap16(out), at))] && r.reply == ForwardResult)
  {
    var deltaAcc := s.vertical + ScaleVertical(delta);
    var outDelta := EarlyNotchPart(deltaAcc);
    EarlyNotchPartAgrees(deltaAcc);
    var next := s.(vertical := deltaAcc - outDelta);
    if outDelta == 0 then EarlyWheeled(next, [], Zero)
    else EarlyWheeled(next, Forwarded(to, MouseWheel(keys, Wrap16(outDelta), at)), ForwardResult)
  }

  /** WM_MOUSEHWHEEL: the delta is doubled and reversed into the horizontal
      accumulator; whole notches, if any, are delivered as a Ctrl+vertical
      wheel event with Ctrl pressed around the delivery, and the delivery's
      result is returned. */
  function EarlyHorizontalWheelStep(s: EarlyWheelState, to: Proc, delta: Short, at: Coords): (r: EarlyWheeled)
    ensures s.Valid() ==> r.next.Valid()
    ensures r.next.vertical == s.vertical
    ensures ForwardCount(r.effects) == if r.reply == ForwardResult then 1 else 0
    ensures var out := s.horizontal + ScaleHorizontal(delta) - r.next.horizontal;
      && out % WHEEL_DELTA == 0
      && (r.next.horizontal == 0 || (r.next.horizontal < 0 <==> out + r.next.horizontal < 0))
      && (out == 0 ==> r.effects == [] && r.reply == Zero)
      && (out != 0 ==>
            && r.effects == [Key(VK_CONTROL, false), Forward(to, MouseWheel(MK_CONTROL, Wrap16(out), at)),
                             Key(VK_CONTROL, true)]
            && r.reply == ForwardResult)
  {
    var deltaAcc := s.horizontal + ScaleHorizontal(delta);
    var outDelta := EarlyNotchPart(deltaAcc);
    EarlyNotchPartAgrees(deltaAcc);
    var next := s.(horizontal := deltaAcc - outDelta);
    if outDelta == 0 then EarlyWheeled(next, [], Zero)
    else
      var effects := [Key(VK_CONTROL, false), Forward(to, MouseWheel(MK_CONTROL, Wrap16(outDelta), at)),
                      Key(VK_CONTROL, true)];
      assert effects[1..][1..][1..] == [];
      assert ForwardCount(effects[1..][1..]) == 0;
      assert ForwardCount(effects[1..]) == 1;
      EarlyWheeled(next, effects, ForwardResult)
  }

  /** What handling one message of a hooked window leaves behind in the
      earlier revision. */
  datatype EarlyHandled = EarlyHandled(effects: seq<Effect>, reply: Reply, drag: EarlyDrag, wheel: EarlyWheelState)

  /** The body of the earlier OurWndProc for a hooked window whose
      original procedure is `to`: pointer messages are rewritten by the drag
      state, wheel messages go through the accumulators, keys are remapped,
      and WM_GESTURE and every other message is forwarded unchanged. Every
      delivery is a forward to the original procedure, and the reply is its
      result exactly when one forward happened; only a wheel message may
      go without one. */
  function EarlyDispatch(to: Proc, msg: Msg, env: Env, d: EarlyDrag, w: EarlyWheelState): (h: EarlyHandled)
    ensures forall e <- h.effects :: e.Delivers() ==> e.IsForward() && e.to == to
    ensures ForwardCount(h.effects) == if h.reply == ForwardResult then 1 else 0
    ensures !(msg.MouseWheel? || msg.MouseHWheel?) ==> h.reply == ForwardResult
  {
    var pen := IsPenEvent(env.extraInfo);
    match msg
    case LButtonDown(_, at) => EarlyHandled(Forwarded(to, msg), ForwardResult, EarlyPress(d, at, pen), w)
    case LButtonUp(_, _) => EarlyHandled(Forwarded(to, msg), ForwardResult, EarlyRelease(d), w)
    case LButtonDblClk(keys, at) =>
      var r := EarlyDoubleClick(d, at, pen);
      EarlyHandled(Forwarded(to, LButtonDblClk(keys, r.out)), ForwardResult, r.next, w)
    case MouseMove(keys, at) =>
      var r := EarlyMove(d, at, env.cursorShown, pen);
      EarlyHandled(Forwarded(to, MouseMove(keys, r.out)), ForwardResult, r.next, w)
    case MouseWheel(keys, delta, at) =>
      var r := EarlyWheelStep(w, to, keys, delta, at);
      EarlyHandled(r.effects, r.reply, d, r.next)
    case MouseHWheel(_, delta, at) =>
      var r := EarlyHorizontalWheelStep(w, to, delta, at);
      EarlyHandled(r.effects, r.reply, d, r.next)
    case KeyDown(vk, _) =>
      var redo := RedoInputs(vk, env.ctrlKeyDown, env.shiftKeyDown);
      NoForwardCountsZero(redo);
      ForwardCountAppend(redo, Forwarded(to, msg));
      EarlyHandled(redo + Forwarded(to, msg), ForwardResult, d, w)
    case Char(code, keyData) => EarlyHandled(Forwarded(to, Char(RemapChar(code), keyData)), ForwardResult, d, w)
    case Gesture(_) => EarlyHandled(Forwarded(to, msg), ForwardResult, d, w)
    case Other(_, _, _) => EarlyHandled(Forwarded(to, msg), ForwardResult, d, w)
  }

  /** Handling a message keeps the earlier components' invariants and
      changes only the component the message belongs to. */
  lemma EarlyDispatchKeeps(to: Proc, msg: Msg, env: Env, d: EarlyDrag, w: EarlyWheelState)
    ensures var h := EarlyDispatch(to, msg, env, d, w);
      d.Valid() && w.Valid() ==> h.drag.Valid() && h.wheel.Valid()
    ensures var h := EarlyDispatch(to, msg, env, d, w);
      && (!(msg.LButtonDown? || msg.LButtonUp? || msg.LButtonDblClk? || msg.MouseMove?) ==> h.drag == d)
      && (!(msg.MouseWheel? || msg.MouseHWheel?) ==> h.wheel == w)
  {
    if msg.MouseMove? {
      EarlyMoveCases(d, msg.at, env.cursorShown, IsPenEvent(env.extraInfo));
    }
  }

  class EarlyPointer {
    var dragDown: bool
    var dragDownPoint: Point
    var dragPrevDigitizerPoint: Point
    var dragDigitizerDelta: Point
    var hadDigitizerEvent: bool
    var wasDigitizerClick: bool
    var hadDigitizerClick: bool
    var hadDoubleClick: int

    /** The fields as one value. */
    function State(): EarlyDrag
      reads this
    {
      EarlyDrag(dragDown, dragDownPoint, dragPrevDigitizerPoint, dragDigitizerDelta,
                hadDigitizerEvent, wasDigitizerClick, hadDigitizerClick, hadDoubleClick)
    }

    ghost predicate Valid()
      reads this
    {
      State().Valid()
    }

    constructor()
      ensures Valid()
      ensures !dragDown && !hadDigitizerEvent && !wasDigitizerClick && !hadDigitizerClick && hadDoubleClick == 0
      ensures dragDownPoint == Origin && dragPrevDigitizerPoint == Origin && dragDigitizerDelta == Origin
    {
      dragDown := false;
      dragDownPoint, dragPrevDigitizerPoint, dragDigitizerDelta := Origin, Origin, Origin;
      hadDigitizerEvent, wasDigitizerClick, hadDigitizerClick := false, false, false;
      hadDoubleClick := 0;
    }

    /** WM_LBUTTONDOWN; the new state is EarlyPress's. */
    method OnButtonDown(at: Coords, pen: bool)
      requires Valid()
      modifies this
      ensures Valid()
      ensures State() == EarlyPress(old(State()), at, pen)
    {
      if pen {
        hadDigitizerClick := true;
        hadDigitizerEvent := true;
      }
      dragDown := true;
      dragDownPoint := ToPoint(at);
      wasDigitizerClick := false;
      dragDigitizerDelta := Point(0, 0);
    }

    /** WM_LBUTTONUP; the new state is EarlyRelease's. */
    method OnButtonUp()
      requires Valid()
      modifies this
      ensures Valid()
      ensures State() == EarlyRelease(old(State()))
    {
      dragDown := false;
    }

    /** WM_LBUTTONDBLCLK; the new state and the point are EarlyDoubleClick's. */
    method OnDoubleClick(at: Coords, pen: bool) returns (out: Coords)
      requires Valid()
      modifies this
      ensures Valid()
      ensures EarlyRewrite(State(), out) == EarlyDoubleClick(old(State()), at, pen)
    {
      out := at;
      if pen {
        out := Pack(dragPrevDigitizerPoint);
        hadDoubleClick := 3;
      }
    }

    /** WM_MOUSEMOVE; the new state and the point are EarlyMove's, whose
        cases EarlyMoveCases states. */
    method OnMove(at: Coords, cursorShown: bool, pen: bool) returns (out: Coords)
      requires Valid()
      modifies this
      ensures Valid()
      ensures EarlyRewrite(State(), out) == EarlyMove(old(State()), at, cursorShown, pen)
    {
      EarlyMoveCases(State(), at, cursorShown, pen);
      var m := ToPoint(at);
      var isDoubleClick := hadDoubleClick > 0;
      if isDoubleClick {
        hadDoubleClick := hadDoubleClick - 1;
      }
      out := at;
      if !cursorShown {
        var isErrantEvent := pen && hadDigitizerEvent && m == dragDownPoint;
        if pen && !isErrantEvent {
          hadDigitizerEvent := true;
          wasDigitizerClick := true;
          var d := m.Minus(dragPrevDigitizerPoint);
          dragPrevDigitizerPoint := m;
          dragDigitizerDelta := dragDigitizerDelta.Plus(d);
          out := Pack(dragDownPoint.Plus(dragDigitizerDelta));
        } else if hadDigitizerEvent {
          if hadDigitizerClick {
            hadDigitizerClick := false;
            dragDownPoint := m;
          }
          dragDigitizerDelta := Point(0, 0);
          hadDigitizerEvent := false;
          out := Pack(dragDownPoint);
        } else {
          dragDownPoint := m;
        }
      } else if pen && !isDoubleClick {
        dragPrevDigitizerPoint := m;
      }
    }
  }

  class EarlyWheel {
    /** gWheelDeltaAcc.y and gWheelDeltaAcc.x. */
    var vertical: int
    var horizontal: int

    /** The fields as one value. */
    function State(): EarlyWheelState
      reads this
    {
      EarlyWheelState(vertical, horizontal)
    }

    ghost predicate Valid()
      reads this
    {
      State().Valid()
    }

    constructor()
      ensures Valid() && vertical == 0 && horizontal == 0
    {
      vertical, horizontal := 0, 0;
    }

    /** WM_MOUSEWHEEL; the new accumulators, the deliveries and the reply
        are EarlyWheelStep's. */
    method OnWheel(to: Proc, keys: bv16, delta: Short, at: Coords) returns (effects: seq<Effect>, reply: Reply)
      requires Valid()
      modifies this
      ensures Valid()
      ensures EarlyWheeled(State(), effects, reply) == EarlyWheelStep(old(State()), to, keys, delta, at)
    {
      var deltaAcc := vertical + ScaleVertical(delta);
      var outDelta := EarlyNotchPart(deltaAcc);
      EarlyNotchPartAgrees(deltaAcc);
      vertical := deltaAcc - outDelta;
      if outDelta == 0 {
        return [], Zero;
      }
      effects, reply := Forwarded(to, MouseWheel(keys, Wrap16(outDelta), at)), ForwardResult;
    }

    /** WM_MOUSEHWHEEL; the new accumulators, the deliveries and the reply
        are EarlyHorizontalWheelStep's. */
    method OnHorizontalWheel(to: Proc, delta: Short, at: Coords) returns (effects: seq<Effect>, reply: Reply)
      requires Valid()
      modifies this
      ensures Valid()
      ensures EarlyWheeled(State(), effects, reply) == EarlyHorizontalWheelStep(old(State()), to, delta, at)
    {
      var deltaAcc := horizontal + ScaleHorizontal(delta);
      var outDelta := EarlyNotchPart(deltaAcc);
      EarlyNotchPartAgrees(deltaAcc);
      horizontal := deltaAcc - outDelta;
      if outDelta == 0 {
        return [], Zero;
      }
      effects := [Key(VK_CONTROL, false), Forward(to, MouseWheel(MK_CONTROL, Wrap16(outDelta), at)),
                  Key(VK_CONTROL, true)];
      reply := ForwardResult;
    }
  }

  class EarlyInterceptor {
    const registry: Registry
    const pointer: EarlyPointer
    const wheel: EarlyWheel

    ghost predicate Valid()
      reads this, registry, pointer, wheel
    {
      registry.Valid() && pointer.Valid() && wheel.Valid()
    }

    constructor(platform: map<Hwnd, Proc>)
      ensures Valid()
      ensures registry.windows == map[] && registry.installed == platform
      ensures !pointer.dragDown && wheel.vertical == 0 && wheel.horizontal == 0
    {
      registry := new Registry(platform);
      pointer := new EarlyPointer();
      wheel := new EarlyWheel();
    }

    /** OurWndProc of the earlier revision. A window that is not hooked
        gets 0; otherwise the deliveries, the reply and the components' new
        states are EarlyDispatch's, from their old states: every delivery
        goes to the window's original procedure and at most one of them is
        the forward whose result is returned. */
    method WndProc(hwnd: Hwnd, msg: Msg, env: Env) returns (effects: seq<Effect>, reply: Reply)
      requires Valid() && msg.Decoded()
      modifies pointer, wheel
      ensures Valid()
      ensures hwnd !in registry.windows ==> effects == [] && reply == Zero && unchanged(pointer, wheel)
      ensures hwnd in registry.windows ==>
        EarlyHandled(effects, reply, pointer.State(), wheel.State())
          == EarlyDispatch(registry.windows[hwnd], msg, env, old(pointer.State()), old(wheel.State()))
      ensures hwnd in registry.windows ==> forall e <- effects :: e.Delivers() ==> e.to == registry.windows[hwnd]
      ensures ForwardCount(effects) == if reply == ForwardResult then 1 else 0
      ensures !(msg.LButtonDown? || msg.LButtonUp? || msg.LButtonDblClk? || msg.MouseMove?) ==> unchanged(pointer)
      ensures !(msg.MouseWheel? || msg.MouseHWheel?) ==> unchanged(wheel)
    {
      if hwnd !in registry.windows {
        return [], Zero;
      }
      var to := registry.windows[hwnd];
      EarlyDispatchKeeps(to, msg, env, pointer.State(), wheel.State());
      if msg.LButtonDown? || msg.LButtonUp? || msg.LButtonDblClk? || msg.MouseMove? {
        effects, reply := OnPointer(to, msg, env);
      } else if msg.MouseWheel? {
        effects, reply := wheel.OnWheel(to, msg.keys, msg.delta, msg.at);
      } else if msg.MouseHWheel? {
        effects, reply := wheel.OnHorizontalWheel(to, msg.delta, msg.at);
      } else if msg.KeyDown? {
        effects, reply := RedoInputs(msg.vk, env.ctrlKeyDown, env.shiftKeyDown) + Forwarded(to, msg), ForwardResult;
      } else if msg.Char? {
        effects, reply := Forwarded(to, Char(RemapChar(msg.code), msg.keyData)), ForwardResult;
      } else {
        effects, reply := Forwarded(to, msg), ForwardResult;
      }
    }

    /** WM_LBUTTONDOWN, WM_LBUTTONUP, WM_LBUTTONDBLCLK and WM_MOUSEMOVE:
        the pointer state is updated and the message forwarded at the point
        the pointer gives, as EarlyDispatch says. */
    method OnPointer(to: Proc, msg: Msg, env: Env) returns (effects: seq<Effect>, reply: Reply)
      requires msg.LButtonDown? || msg.LButtonUp? || msg.LButtonDblClk? || msg.MouseMove?
      requires pointer.Valid()
      modifies pointer
      ensures pointer.Valid()
      ensures EarlyHandled(effects, reply, pointer.State(), wheel.State())
        == EarlyDispatch(to, msg, env, old(pointer.State()), wheel.State())
    {
      var pen := IsPenEvent(env.extraInfo);
      reply := ForwardResult;
      match msg
      case LButtonDown(_, at) =>
        pointer.OnButtonDown(at, pen);
        effects := Forwarded(to, msg);
      case LButtonUp(_, _) =>
        pointer.OnButtonUp();
        effects := Forwarded(to, msg);
      case LButtonDblClk(keys, at) =>
        var out := pointer.OnDoubleClick(at, pen);
        effects := Forwarded(to, LButtonDblClk(keys, out));
      case MouseMove(keys, at) =>
        var out := pointer.OnMove(at, env.cursorShown, pen);
        effects := Forwarded(to, MouseMove(keys, out));
    }
  }
}
