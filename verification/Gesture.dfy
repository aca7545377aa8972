/** The touch pan gesture of the current revision: a one-finger pan is
    replayed to Live as a Ctrl+Alt click-and-drag on the window's original
    procedure, and the mouse moves that arrive while it lasts are filtered. */
module Gesture {
  import opened Win32

  /** Synthetic button presses less synthetic button releases that
      `effects` deliver to the original procedure. */
  function ClickBalance(effects: seq<Effect>): int
    decreases |effects|
  {
    if effects == [] then 0 else ClickWeight(effects[0]) + ClickBalance(effects[1..])
  }

  function ClickWeight(e: Effect): int
  {
    if e.CallOriginal? && e.msg.LButtonDown? then 1
    else if e.CallOriginal? && e.msg.LButtonUp? then -1
    else 0
  }

  lemma ClickBalanceShort(a: Effect, b: Effect, c: Effect)
    ensures ClickBalance([a]) == ClickWeight(a)
    ensures ClickBalance([a, b]) == ClickWeight(a) + ClickWeight(b)
    ensures ClickBalance([a, b, c]) == ClickWeight(a) + ClickWeight(b) + ClickWeight(c)
  {
    assert [a][1..] == [] && [a, b][1..] == [b] && [b][1..] == [];
    assert [a, b, c][1..] == [b, c] && [b, c][1..] == [c] && [c][1..] == [];
    assert ClickBalance([c]) == ClickWeight(c);
    assert ClickBalance([b, c]) == ClickWeight(b) + ClickBalance([c]);
  }

  lemma {:induction false} ClickBalanceAppend(a: seq<Effect>, b: seq<Effect>)
    ensures ClickBalance(a + b) == ClickBalance(a) + ClickBalance(b)
    decreases |a|
  {
    if a == [] {
      assert a + b == b;
    } else {
      assert (a + b)[0] == a[0] && (a + b)[1..] == a[1..] + b;
      ClickBalanceAppend(a[1..], b);
    }
  }

  function Bit(b: bool): int { if b then 1 else 0 }

  /** The Ctrl+Alt chord pressed around the synthetic click. */
  function ChordDown(): seq<Effect> { [Key(VK_CONTROL, false), Key(VK_MENU, false)] }
  function ChordUp(): seq<Effect> { [Key(VK_CONTROL, true), Key(VK_MENU, true)] }

  /** Ctrl and Alt are held while the synthetic click is delivered, and
      released afterwards whatever their state before. */
  lemma ChordKeys(held: set<int>)
    ensures HeldAfter(held, KeysOf(ChordDown())) == held + {VK_CONTROL, VK_MENU}
    ensures HeldAfter(held, KeysOf(ChordDown() + ChordUp())) == held - {VK_CONTROL, VK_MENU}
  {
    var down, up := ChordDown(), ChordUp();
    var cd, md := MakeKeyboardEvent(VK_CONTROL, false), MakeKeyboardEvent(VK_MENU, false);
    var cu, mu := MakeKeyboardEvent(VK_CONTROL, true), MakeKeyboardEvent(VK_MENU, true);
    KeysOfSendKeys(down);
    KeysOfSendKeys(up);
    KeysOfAppend(down, up);
    assert KeysOf(down) == [cd, md] && KeysOf(up) == [cu, mu];
    HeldAfterAppend(held, [cd], [md]);
    assert [cd] + [md] == [cd, md];
    assert HeldAfter(held, [cd]) == held + {VK_CONTROL} by { assert [cd][1..] == []; }
    assert HeldAfter(held + {VK_CONTROL}, [md]) == held + {VK_CONTROL} + {VK_MENU} by { assert [md][1..] == []; }
    var pressed := held + {VK_CONTROL, VK_MENU};
    HeldAfterAppend(pressed, [cu], [mu]);
    assert [cu] + [mu] == [cu, mu];
    assert HeldAfter(pressed, [cu]) == pressed - {VK_CONTROL} by { assert [cu][1..] == []; }
    assert HeldAfter(pressed - {VK_CONTROL}, [mu]) == pressed - {VK_CONTROL} - {VK_MENU} by { assert [mu][1..] == []; }
    HeldAfterAppend(held, [cd, md], [cu, mu]);
  }

  /** The gesture phase flags of GESTUREINFO.dwFlags. */
  predicate Begins(flags: bv32) { flags & GF_BEGIN != 0 }
  predicate Coasts(flags: bv32) { flags & GF_INERTIA != 0 }
  predicate Ends(flags: bv32) { flags & GF_END != 0 }

  /** A pan (re)starts on a begin, or on a flagless event while coasting. */
  predicate Starts(inInertia: bool, flags: bv32) { (inInertia && flags == 0) || Begins(flags) }

  /** The synthetic Ctrl+Alt click at a gesture point. */
  function ClickEffects(to: Proc, location: Coords, screen: Point): (r: seq<Effect>)
    ensures Synthetic(r, to)
    ensures |r| == 7 && r[..2] == ChordDown() && r[5..] == ChordUp()
    ensures r[2] == SetCursor(screen) && r[4] == CallOriginal(to, LButtonDown(0, location))
  {
    ChordDown() + [SetCursor(screen), CallOriginal(to, MouseMove(0, location)),
                   CallOriginal(to, LButtonDown(0, location))] + ChordUp()
  }

  /** Nothing is forwarded, and every synthetic message goes to `to`. */
  predicate Synthetic(effects: seq<Effect>, to: Proc)
  {
    forall e <- effects :: !e.IsForward() && (e.Delivers() ==> e.to == to)
  }

  /** The pan globals as one value: gInPanGesture, gPanGestureDown,
      gPanGestureInInertia, gPanGestureLastPos and gPanGestureBestRealPos. */
  datatype PanState = PanState(
    inPanGesture: bool,
    panGestureDown: bool,
    panGestureInInertia: bool,
    panGestureLastPos: Coords,
    panGestureBestRealPos: Point)
  {
    /** A coasting pan has already had its first mouse move. */
    predicate Valid() { !(inPanGesture && panGestureInInertia) }
  }

  /** What a pan gesture event leaves behind: the state and the synthetic input. */
  datatype Panned = Panned(next: PanState, effects: seq<Effect>)

  /** What the mouse-move filter leaves behind, and whether it swallowed the move. */
  datatype Filtered = Filtered(next: PanState, swallowed: bool, effects: seq<Effect>)

  /** The begin phase of a GID_PAN event. */
  function StartStep(s: PanState, to: Proc, flags: bv32, location: Coords, screen: Point): Panned
  {
    if Starts(s.panGestureInInertia, flags) then
      var cancel := if s.panGestureDown then [CallOriginal(to, LButtonUp(0, s.panGestureLastPos))] else [];
      Panned(s.(inPanGesture := true, panGestureDown := true, panGestureInInertia := false, panGestureLastPos := location),
             cancel + ClickEffects(to, location, screen))
    else Panned(s, [])
  }

  /** The inertia and end phases of a GID_PAN event. */
  function SettleStep(s: PanState, to: Proc, flags: bv32, location: Coords): Panned
  {
    var s1 := if Coasts(flags) then s.(panGestureInInertia := true, inPanGesture := false) else s;
    if Ends(flags) then
      if s1.panGestureDown then
        Panned(s1.(panGestureInInertia := false, panGestureDown := false),
               [CallOriginal(to, LButtonUp(0, location)), SetCursor(s1.panGestureBestRealPos)])
      else Panned(s1.(panGestureInInertia := false), [])
    else Panned(s1, [])
  }

  /** The drag phase of a GID_PAN event. */
  function DragStep(s: PanState, to: Proc, flags: bv32, location: Coords): Panned
  {
    if !Begins(flags) && s.panGestureDown then
      Panned(s.(panGestureLastPos := location), [CallOriginal(to, MouseMove(0, location))])
    else Panned(s, [])
  }

  /** One GID_PAN WM_GESTURE: its three phases in order. */
  function PanStep(s: PanState, to: Proc, flags: bv32, location: Coords, screen: Point): (r: Panned)
    ensures r.next.panGestureBestRealPos == s.panGestureBestRealPos
    ensures Ends(flags) ==> !r.next.panGestureDown && !r.next.panGestureInInertia
    ensures Coasts(flags) ==> !r.next.inPanGesture
  {
    var a := StartStep(s, to, flags, location, screen);
    var b := SettleStep(a.next, to, flags, location);
    var c := DragStep(b.next, to, flags, location);
    Panned(c.next, a.effects + b.effects + c.effects)
  }

  /** The pan filter at the top of WM_MOUSEMOVE. */
  function FilterStep(s: PanState, to: Proc, at: Coords, cursorPos: Point): (r: Filtered)
    ensures r.next.panGestureInInertia == s.panGestureInInertia && r.next.panGestureLastPos == s.panGestureLastPos
    ensures !r.swallowed ==> r.effects == [] && !r.next.inPanGesture
    ensures Synthetic(r.effects, to)
  {
    if !s.inPanGesture && s.panGestureDown then
      Filtered(s.(panGestureDown := false), true,
               [CallOriginal(to, LButtonUp(0, s.panGestureLastPos)), SetCursor(s.panGestureBestRealPos)])
    else if s.panGestureDown && !s.panGestureInInertia && s.panGestureLastPos != at then
      Filtered(s, true, [])
    else
      Filtered(s.(inPanGesture := false,
                  panGestureBestRealPos := if !s.panGestureDown then cursorPos else s.panGestureBestRealPos), false, [])
  }

  /** One GID_PAN WM_GESTURE with flags `flags` at client point `location`
      (`screen` once mapped to the screen). A begin, or a flagless event
      during inertia, (re)starts the synthetic Ctrl+Alt click there,
      releasing a click still held; inertia marks the pan as coasting; an
      end releases the click and puts the real cursor back; any other event
      while the click is held drags it along. Nothing is forwarded, and the
      host sees one press per click held and one release per click let go. */
  lemma PanStepCases(s: PanState, to: Proc, flags: bv32, location: Coords, screen: Point)
    ensures s.Valid() ==> PanStep(s, to, flags, location, screen).next.Valid()
    ensures Synthetic(PanStep(s, to, flags, location, screen).effects, to)
    ensures var r := PanStep(s, to, flags, location, screen);
      ClickBalance(r.effects) == Bit(r.next.panGestureDown) - Bit(s.panGestureDown)
    ensures var r := PanStep(s, to, flags, location, screen);
      var starts := Starts(s.panGestureInInertia, flags);
      var cancel := if starts && s.panGestureDown then [CallOriginal(to, LButtonUp(0, s.panGestureLastPos))] else [];
      var click := if starts then ClickEffects(to, location, screen) else [];
      var downAfterStart := starts || s.panGestureDown;
      var release := if Ends(flags) && downAfterStart
        then [CallOriginal(to, LButtonUp(0, location)), SetCursor(s.panGestureBestRealPos)] else [];
      var drag := if !Begins(flags) && r.next.panGestureDown then [CallOriginal(to, MouseMove(0, location))] else [];
      && r.effects == cancel + click + release + drag
      && r.next.panGestureDown == (downAfterStart && !Ends(flags))
      && r.next.panGestureInInertia == (if Ends(flags) then false
                                        else if Coasts(flags) then true
                                        else !starts && s.panGestureInInertia)
      && r.next.inPanGesture == (if Coasts(flags) then false else starts || s.inPanGesture)
      && r.next.panGestureLastPos == (if starts || r.next.panGestureDown then location else s.panGestureLastPos)
  {
    var starts := Starts(s.panGestureInInertia, flags);
    var cancel := if starts && s.panGestureDown then [CallOriginal(to, LButtonUp(0, s.panGestureLastPos))] else [];
    var click := if starts then ClickEffects(to, location, screen) else [];
    var a := StartStep(s, to, flags, location, screen);
    assert a.effects == cancel + click;
    var b := SettleStep(a.next, to, flags, location);
    var c := DragStep(b.next, to, flags, location);
    PanBalance(to, cancel, click, b.effects, c.effects, screen, location);
    PanSynthetic(to, cancel, click, b.effects, c.effects, screen, location);
  }

  class PanGesture {
    /** gInPanGesture: a pan began and its first mouse move has not been seen. */
    var inPanGesture: bool
    /** gPanGestureDown: the synthetic Ctrl+Alt click is held. */
    var panGestureDown: bool
    /** gPanGestureInInertia: the finger has lifted and the pan coasts. */
    var panGestureInInertia: bool
    /** gPanGestureLastPos: where the synthetic drag last went. */
    var panGestureLastPos: Coords
    /** gPanGestureBestRealPos: where the real cursor was before the pan. */
    var panGestureBestRealPos: Point

    /** The globals as one value. */
    function State(): PanState
      reads this
    {
      PanState(inPanGesture, panGestureDown, panGestureInInertia, panGestureLastPos, panGestureBestRealPos)
    }

    ghost predicate Valid()
      reads this
    {
      State().Valid()
    }

    constructor()
      ensures Valid()
      ensures !inPanGesture && !panGestureDown && !panGestureInInertia
      ensures panGestureLastPos == Coords(0, 0) && panGestureBestRealPos == Origin
    {
      inPanGesture, panGestureDown, panGestureInInertia := false, false, false;
      panGestureLastPos, panGestureBestRealPos := Coords(0, 0), Origin;
    }

    /** One GID_PAN WM_GESTURE with flags `flags` at client point
        `location` (`screen` once mapped to the screen): the new state and
        the synthetic input are PanStep's, whose cases PanStepCases spells
        out. */
    method OnPan(to: Proc, flags: bv32, location: Coords, screen: Point) returns (effects: seq<Effect>)
      requires Valid()
      modifies this
      ensures Valid()
      ensures Panned(State(), effects) == PanStep(old(State()), to, flags, location, screen)
    {
      var cancel, click := StartPan(to, flags, location, screen);
      var release := SettlePan(to, flags, location);
      var drag := DragPan(to, flags, location);
      effects := cancel + click + release + drag;
    }

    /** The begin phase of OnPan: a begin, or a flagless event while
        coasting, releases a click still held and clicks at `location`. */
    method StartPan(to: Proc, flags: bv32, location: Coords, screen: Point) returns (cancel: seq<Effect>, click: seq<Effect>)
      requires Valid()
      modifies this
      ensures Valid()
      ensures Panned(State(), cancel + click) == StartStep(old(State()), to, flags, location, screen)
      ensures var starts := Starts(old(panGestureInInertia), flags);
        && cancel == (if starts && old(panGestureDown) then [CallOriginal(to, LButtonUp(0, old(panGestureLastPos)))] else [])
        && click == (if starts then ClickEffects(to, location, screen) else [])
        && panGestureDown == (starts || old(panGestureDown))
        && panGestureInInertia == (!starts && old(panGestureInInertia))
        && inPanGesture == (starts || old(inPanGesture))
        && panGestureLastPos == (if starts then location else old(panGestureLastPos))
        && panGestureBestRealPos == old(panGestureBestRealPos)
    {
      cancel, click := [], [];
      if Starts(panGestureInInertia, flags) {
        if panGestureDown {
          cancel := [CallOriginal(to, LButtonUp(0, panGestureLastPos))];
        }
        inPanGesture := true;
        panGestureDown := true;
        panGestureInInertia := false;
        click := ClickEffects(to, location, screen);
        panGestureLastPos := location;
      }
    }

    /** The inertia and end phases of OnPan: inertia marks the pan as
        coasting; an end releases a held click and restores the cursor. */
    method SettlePan(to: Proc, flags: bv32, location: Coords) returns (release: seq<Effect>)
      requires Valid()
      modifies this
      ensures Valid()
      ensures Panned(State(), release) == SettleStep(old(State()), to, flags, location)
      ensures release == if Ends(flags) && old(panGestureDown)
        then [CallOriginal(to, LButtonUp(0, location)), SetCursor(old(panGestureBestRealPos))] else []
      ensures panGestureDown == (old(panGestureDown) && !Ends(flags))
      ensures panGestureInInertia == (if Ends(flags) then false else if Coasts(flags) then true else old(panGestureInInertia))
      ensures inPanGesture == (if Coasts(flags) then false else old(inPanGesture))
      ensures panGestureLastPos == old(panGestureLastPos) && panGestureBestRealPos == old(panGestureBestRealPos)
    {
      release := [];
      if Coasts(flags) {
        panGestureInInertia := true;
        inPanGesture := false;
      }
      if Ends(flags) {
        panGestureInInertia := false;
        if panGestureDown {
          panGestureDown := false;
          release := [CallOriginal(to, LButtonUp(0, location)), SetCursor(panGestureBestRealPos)];
        }
      }
    }

    /** The drag phase of OnPan: any event but a begin drags a held click. */
    method DragPan(to: Proc, flags: bv32, location: Coords) returns (drag: seq<Effect>)
      modifies this
      ensures Panned(State(), drag) == DragStep(old(State()), to, flags, location)
      ensures var moves := !Begins(flags) && panGestureDown;
        && drag == (if moves then [CallOriginal(to, MouseMove(0, location))] else [])
        && panGestureLastPos == (if moves then location else old(panGestureLastPos))
      ensures panGestureDown == old(panGestureDown) && panGestureInInertia == old(panGestureInInertia)
      ensures inPanGesture == old(inPanGesture) && panGestureBestRealPos == old(panGestureBestRealPos)
    {
      drag := [];
      if !Begins(flags) && panGestureDown {
        drag := [CallOriginal(to, MouseMove(0, location))];
        panGestureLastPos := location;
      }
    }

    /** The first WM_MOUSEMOVE handling: a move while the synthetic click is
        held and the pan has already had its first move cancels the click
        and puts the real cursor back; a move elsewhere while the finger is
        still down is swallowed; any other move ends the pan's first-move
        window and, with no click held, records the real cursor position
        `cursorPos`. A swallowed move is not handled further. */
    method OnMouseMove(to: Proc, at: Coords, cursorPos: Point) returns (swallowed: bool, effects: seq<Effect>)
      requires Valid()
      modifies this
      ensures Valid()
      ensures Filtered(State(), swallowed, effects) == FilterStep(old(State()), to, at, cursorPos)
      ensures Synthetic(effects, to)
      ensures ClickBalance(effects) == Bit(panGestureDown) - Bit(old(panGestureDown))
      ensures !swallowed ==> effects == [] && !inPanGesture
      ensures !old(inPanGesture) && old(panGestureDown) ==>
        && swallowed && !panGestureDown
        && effects == [CallOriginal(to, LButtonUp(0, panGestureLastPos)), SetCursor(panGestureBestRealPos)]
        && inPanGesture == old(inPanGesture) && panGestureInInertia == old(panGestureInInertia)
        && panGestureLastPos == old(panGestureLastPos) && panGestureBestRealPos == old(panGestureBestRealPos)
      ensures old(inPanGesture) && old(panGestureDown) && !old(panGestureInInertia) && at != old(panGestureLastPos) ==>
        && swallowed && effects == []
        && inPanGesture == old(inPanGesture) && panGestureDown == old(panGestureDown)
        && panGestureBestRealPos == old(panGestureBestRealPos)
      ensures (old(panGestureDown) ==> old(inPanGesture) && (old(panGestureInInertia) || at == old(panGestureLastPos))) ==>
        && !swallowed && effects == []
        && !inPanGesture && panGestureDown == old(panGestureDown)
        && panGestureBestRealPos == (if old(panGestureDown) then old(panGestureBestRealPos) else cursorPos)
      ensures panGestureInInertia == old(panGestureInInertia) && panGestureLastPos == old(panGestureLastPos)
    {
      if !inPanGesture && panGestureDown {
        panGestureDown := false;
        effects := [CallOriginal(to, LButtonUp(0, panGestureLastPos)), SetCursor(panGestureBestRealPos)];
        ClickBalanceShort(effects[0], effects[1], effects[1]);
        return true, effects;
      } else if panGestureDown && !panGestureInInertia && panGestureLastPos != at {
        return true, [];
      }
      inPanGesture := false;
      if !panGestureDown {
        panGestureBestRealPos := cursorPos;
      }
      return false, [];
    }
  }

  /** The pieces of a pan event's effects add up to the change of the held
      click: a cancel or a release lets one go, a start presses one. */
  lemma PanBalance(to: Proc, cancel: seq<Effect>, click: seq<Effect>, release: seq<Effect>, drag: seq<Effect>,
                   screen: Point, location: Coords)
    requires |cancel| <= 1 && (cancel != [] ==> cancel[0].CallOriginal? && cancel[0].msg.LButtonUp?)
    requires click == [] || click == ClickEffects(to, location, screen)
    requires release == [] || (|release| == 2 && release[0] == CallOriginal(to, LButtonUp(0, location)) && !release[1].CallOriginal?)
    requires drag == [] || drag == [CallOriginal(to, MouseMove(0, location))]
    ensures ClickBalance(cancel + click + release + drag)
         == -|cancel| + (if click == [] then 0 else 1) - (if release == [] then 0 else 1)
  {
    PieceBalance(cancel);
    PieceBalance(release);
    PieceBalance(drag);
    if click != [] {
      ClickEffectsBalance(to, location, screen);
    }
    var upToClick := cancel + click;
    ClickBalanceAppend(cancel, click);
    ClickBalanceAppend(upToClick, release);
    ClickBalanceAppend(upToClick + release, drag);
  }

  /** A piece of at most two effects weighs what its effects weigh. */
  lemma PieceBalance(piece: seq<Effect>)
    requires |piece| <= 2
    ensures ClickBalance(piece) == if piece == [] then 0
      else ClickWeight(piece[0]) + (if |piece| == 2 then ClickWeight(piece[1]) else 0)
  {
    if |piece| == 1 {
      assert piece[1..] == [];
    } else if |piece| == 2 {
      assert piece[1..] == [piece[1]] && piece[1..][1..] == [];
    }
  }

  /** The synthetic Ctrl+Alt click presses the button once and leaves it held. */
  lemma ClickEffectsBalance(to: Proc, location: Coords, screen: Point)
    ensures ClickBalance(ClickEffects(to, location, screen)) == 1
  {
    var mid := [SetCursor(screen), CallOriginal(to, MouseMove(0, location)), CallOriginal(to, LButtonDown(0, location))];
    assert ClickEffects(to, location, screen) == ChordDown() + mid + ChordUp();
    ClickBalanceAppend(ChordDown() + mid, ChordUp());
    ClickBalanceAppend(ChordDown(), mid);
    ClickBalanceShort(Key(VK_CONTROL, false), Key(VK_MENU, false), mid[0]);
    ClickBalanceShort(Key(VK_CONTROL, true), Key(VK_MENU, true), mid[0]);
    ClickBalanceShort(mid[0], mid[1], mid[2]);
    assert ClickBalance(ChordDown()) == 0 && ClickBalance(mid) == 1 && ClickBalance(ChordUp()) == 0;
  }

  /** Every piece of a pan event's effects is synthetic input for `to`. */
  lemma PanSynthetic(to: Proc, cancel: seq<Effect>, click: seq<Effect>, release: seq<Effect>, drag: seq<Effect>,
                     screen: Point, location: Coords)
    requires Synthetic(cancel, to) && Synthetic(release, to) && Synthetic(drag, to)
    requires click == [] || click == ClickEffects(to, location, screen)
    ensures Synthetic(cancel + click + release + drag, to)
  {
    assert Synthetic(click, to);
  }
}
