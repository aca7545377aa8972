/** OurWndProc of the current revision: the window procedure installed in
    every hooked window. It looks the window up in the registry, lets the
    pointer, wheel and pan components rewrite, swallow or replace the
    message, and otherwise forwards it to the window's original procedure. */
module Interceptor {
  import opened Win32
  import opened Keys
  import opened WindowRegistry
  import opened Pointer
  import opened Wheel
  import opened Gesture

  /** What handling one message of a hooked window leaves behind: the
      deliveries and synthetic input in order, the reply, and the state of
      the three components. */
  datatype Handled = Handled(effects: seq<Effect>, reply: Reply, drag: DragState, wheel: WheelState, pan: PanState)

  /** The body of OurWndProc for a hooked window whose original procedure
      is `to`, from the components' states `d`, `w` and `p`. Each message
      goes to the component it belongs to; the pan filter may swallow a
      mouse move before the pointer sees it; a GID_PAN gesture is consumed
      and its handle closed; everything else is forwarded, rewritten where
      a component says so. Every delivery goes to the original procedure,
      and the reply is a forward's result exactly when one forward
      happened. */
  function Dispatch(to: Proc, msg: Msg, env: Env, d: DragState, w: WheelState, p: PanState): (h: Handled)
    ensures forall e <- h.effects :: e.Delivers() ==> e.to == to
    ensures ForwardCount(h.effects) == if h.reply == ForwardResult then 1 else 0
  {
    var pen := IsPenEvent(env.extraInfo);
    match msg
    case LButtonDown(_, at) => Handled(Forwarded(to, msg), ForwardResult, PressStep(d, at, pen), w, p)
    case LButtonUp(_, _) => Handled(Forwarded(to, msg), ForwardResult, ReleaseStep(d), w, p)
    case LButtonDblClk(keys, at) =>
      var r := DoubleClickStep(d, at, pen);
      Handled(Forwarded(to, LButtonDblClk(keys, r.out)), ForwardResult, r.next, w, p)
    case MouseMove(keys, at) =>
      var f := FilterStep(p, to, at, env.cursorPos);
      if f.swallowed then
        NoForwardCountsZero(f.effects);
        Handled(f.effects, Zero, d, w, f.next)
      else
        var r := MoveStep(d, keys, at, env.cursorShown, pen, env.draw);
        Handled(Forwarded(to, MouseMove(keys, r.out)), ForwardResult, r.next, w, f.next)
    case MouseWheel(keys, delta, at) =>
      var r := WheelStep(w, to, keys, delta, at);
      Handled(r.effects, r.reply, d, r.next, p)
    case MouseHWheel(_, delta, at) =>
      var r := HorizontalWheelStep(w, to, delta, at);
      Handled(r.effects, r.reply, d, r.next, p)
    case Gesture(handle) =>
      if env.gesture.Some? && env.gesture.value.id == GID_PAN then
        var g := env.gesture.value;
        var r := PanStep(p, to, g.flags, g.location, env.gestureScreenPoint);
        PanStepCases(p, to, g.flags, g.location, env.gestureScreenPoint);
        NoForwardCountsZero(r.effects + [CloseGesture(handle)]);
        Handled(r.effects + [CloseGesture(handle)], Zero, d, w, r.next)
      else Handled(Forwarded(to, msg), ForwardResult, d, w, p)
    case KeyDown(vk, _) =>
      var redo := RedoInputs(vk, env.ctrlKeyDown, env.shiftKeyDown);
      NoForwardCountsZero(redo);
      ForwardCountAppend(redo, Forwarded(to, msg));
      Handled(redo + Forwarded(to, msg), ForwardResult, d, w, p)
    case Char(code, keyData) => Handled(Forwarded(to, Char(RemapChar(code), keyData)), ForwardResult, d, w, p)
    case Other(_, _, _) => Handled(Forwarded(to, msg), ForwardResult, d, w, p)
  }

  /** Handling a message keeps the components' invariants, and changes
      only the components the message belongs to. */
  lemma DispatchKeeps(to: Proc, msg: Msg, env: Env, d: DragState, w: WheelState, p: PanState)
    ensures var h := Dispatch(to, msg, env, d, w, p);
      d.Valid() && w.Valid() && p.Valid() ==> h.drag.Valid() && h.wheel.Valid() && h.pan.Valid()
    ensures var h := Dispatch(to, msg, env, d, w, p);
      && (!(msg.LButtonDown? || msg.LButtonUp? || msg.LButtonDblClk? || msg.MouseMove?) ==> h.drag == d)
      && (!(msg.MouseWheel? || msg.MouseHWheel?) ==> h.wheel == w)
      && (!(msg.MouseMove? || msg.Gesture?) ==> h.pan == p)
  {
    match msg
    case MouseMove(keys, at) =>
      if !FilterStep(p, to, at, env.cursorPos).swallowed {
        MoveStepCases(d, keys, at, env.cursorShown, IsPenEvent(env.extraInfo), env.draw);
      }
    case Gesture(handle) =>
      if env.gesture.Some? && env.gesture.value.id == GID_PAN {
        var g := env.gesture.value;
        PanStepCases(p, to, g.flags, g.location, env.gestureScreenPoint);
      }
    case _ =>
  }

  /** A mouse move is swallowed, with reply 0, exactly when the pan filter
      says so, and then the pointer does not see it; a pan gesture is
      consumed with reply 0 and its handle closed last. */
  lemma DispatchConsumes(to: Proc, msg: Msg, env: Env, d: DragState, w: WheelState, p: PanState)
    ensures var h := Dispatch(to, msg, env, d, w, p);
      msg.MouseMove? ==>
        && (h.reply == Zero <==> FilterStep(p, to, msg.at, env.cursorPos).swallowed)
        && (h.reply == Zero ==> h.drag == d && h.effects == FilterStep(p, to, msg.at, env.cursorPos).effects)
    ensures var h := Dispatch(to, msg, env, d, w, p);
      msg.Gesture? && env.gesture.Some? && env.gesture.value.id == GID_PAN ==>
        h.reply == Zero && |h.effects| > 0 && h.effects[|h.effects| - 1] == CloseGesture(msg.handle)
  {
  }

  class Interceptor {
    /** gWindowMap and the windows' procedure slots. */
    const registry: Registry
    /** gDragDown, gDragPenDown, gDragDownPoint and the digitizer state. */
    const pointer: PointerDisambiguator
    /** gWheelDeltaAcc, gWheelZoomDeltaAcc and gInTrackpadScroll. */
    const wheel: WheelQuantizer
    /** gInPanGesture and the other gPanGesture state. */
    const pan: PanGesture

    ghost predicate Valid()
      reads this, registry, pointer, wheel, pan
    {
      registry.Valid() && pointer.Valid() && wheel.Valid() && pan.Valid()
    }

    /** The state at load: nothing hooked, every component at rest. */
    constructor(platform: map<Hwnd, Proc>)
      ensures Valid()
      ensures registry.windows == map[] && registry.installed == platform
      ensures !pointer.dragDown && pointer.hadDoubleClick == 0
      ensures wheel.vertical == 0 && wheel.horizontal == 0 && wheel.zoom == 0 && !wheel.inTrackpadScroll
      ensures !pan.panGestureDown && !pan.inPanGesture && !pan.panGestureInInertia
    {
      registry := new Registry(platform);
      pointer := new PointerDisambiguator();
      wheel := new WheelQuantizer();
      pan := new PanGesture();
    }

    /** OurWndProc(hwnd, msg, ...), the platform queries of this call in
        `env`. A window that is not hooked gets 0 and nothing happens.
        Otherwise the deliveries, the reply and the components' new states
        are Dispatch's, from the components' old states: every delivery
        goes to the window's original procedure, at most one of them is the
        forward whose result is returned, and only the components the
        message belongs to change. */
    method WndProc(hwnd: Hwnd, msg: Msg, env: Env) returns (effects: seq<Effect>, reply: Reply)
      requires Valid() && msg.Decoded()
      modifies pointer, wheel, pan
      ensures Valid()
      ensures hwnd !in registry.windows ==> effects == [] && reply == Zero && unchanged(pointer, wheel, pan)
      ensures hwnd in registry.windows ==>
        Handled(effects, reply, pointer.State(), wheel.State(), pan.State())
          == Dispatch(registry.windows[hwnd], msg, env, old(pointer.State()), old(wheel.State()), old(pan.State()))
      ensures hwnd in registry.windows ==> forall e <- effects :: e.Delivers() ==> e.to == registry.windows[hwnd]
      ensures ForwardCount(effects) == if reply == ForwardResult then 1 else 0
      ensures !(msg.LButtonDown? || msg.LButtonUp? || msg.LButtonDblClk? || msg.MouseMove?) ==> unchanged(pointer)
      ensures !(msg.MouseWheel? || msg.MouseHWheel?) ==> unchanged(wheel)
      ensures !(msg.MouseMove? || msg.Gesture?) ==> unchanged(pan)
    {
      if hwnd !in registry.windows {
        return [], Zero;
      }
      var to := registry.windows[hwnd];
      DispatchKeeps(to, msg, env, pointer.State(), wheel.State(), pan.State());
      if msg.LButtonDown? || msg.LButtonUp? || msg.LButtonDblClk? || msg.MouseMove? {
        effects, reply := OnPointer(to, msg, env);
      } else if msg.MouseWheel? || msg.MouseHWheel? {
        effects, reply := OnWheel(to, msg, env);
      } else if msg.Gesture? {
        effects, reply := OnGesture(to, msg, env);
      } else {
        effects, reply := OnKeyOrOther(to, msg, env);
      }
    }

    /** WM_LBUTTONDOWN, WM_LBUTTONUP, WM_LBUTTONDBLCLK and WM_MOUSEMOVE:
        the pan filter first sees a move, then the pointer disambiguator
        updates its state and rewrites the point. */
    method OnPointer(to: Proc, msg: Msg, env: Env) returns (effects: seq<Effect>, reply: Reply)
      requires msg.LButtonDown? || msg.LButtonUp? || msg.LButtonDblClk? || msg.MouseMove?
      requires pointer.Valid() && pan.Valid()
      modifies pointer, pan
      ensures pointer.Valid() && pan.Valid()
      ensures Handled(effects, reply, pointer.State(), wheel.State(), pan.State())
        == Dispatch(to, msg, env, old(pointer.State()), wheel.State(), old(pan.State()))
      ensures !msg.MouseMove? ==> unchanged(pan)
    {
      var pen := IsPenEvent(env.extraInfo);
      match msg
      case LButtonDown(keys, at) =>
        pointer.OnButtonDown(at, pen);
        effects, reply := Forwarded(to, msg), ForwardResult;
      case LButtonUp(_, _) =>
        pointer.OnButtonUp();
        effects, reply := Forwarded(to, msg), ForwardResult;
      case LButtonDblClk(keys, at) =>
        var out := pointer.OnDoubleClick(at, pen);
        effects, reply := Forwarded(to, LButtonDblClk(keys, out)), ForwardResult;
      case MouseMove(keys, at) =>
        var swallowed, fx := pan.OnMouseMove(to, at, env.cursorPos);
        if swallowed {
          return fx, Zero;
        }
        var out := pointer.OnMove(keys, at, env.cursorShown, pen, env.draw);
        effects, reply := Forwarded(to, MouseMove(keys, out)), ForwardResult;
    }

    /** WM_MOUSEWHEEL and WM_MOUSEHWHEEL go to the wheel quantizer. */
    method OnWheel(to: Proc, msg: Msg, env: Env) returns (effects: seq<Effect>, reply: Reply)
      requires msg.MouseWheel? || msg.MouseHWheel?
      requires wheel.Valid()
      modifies wheel
      ensures wheel.Valid()
      ensures Handled(effects, reply, pointer.State(), wheel.State(), pan.State())
        == Dispatch(to, msg, env, pointer.State(), old(wheel.State()), pan.State())
    {
      if msg.MouseWheel? {
        effects, reply := wheel.OnWheel(to, msg.keys, msg.delta, msg.at);
      } else {
        effects, reply := wheel.OnHorizontalWheel(to, msg.delta, msg.at);
      }
    }

    /** WM_GESTURE: a pan is consumed, anything else is forwarded. */
    method OnGesture(to: Proc, msg: Msg, env: Env) returns (effects: seq<Effect>, reply: Reply)
      requires msg.Gesture?
      requires pan.Valid()
      modifies pan
      ensures pan.Valid()
      ensures Handled(effects, reply, pointer.State(), wheel.State(), pan.State())
        == Dispatch(to, msg, env, pointer.State(), wheel.State(), old(pan.State()))
    {
      if env.gesture.Some? && env.gesture.value.id == GID_PAN {
        var info := env.gesture.value;
        var fx := pan.OnPan(to, info.flags, info.location, env.gestureScreenPoint);
        effects, reply := fx + [CloseGesture(msg.handle)], Zero;
      } else {
        effects, reply := Forwarded(to, msg), ForwardResult;
      }
    }

    /** WM_KEYDOWN, WM_CHAR and every other message: no state changes. */
    method OnKeyOrOther(to: Proc, msg: Msg, env: Env) returns (effects: seq<Effect>, reply: Reply)
      requires msg.KeyDown? || msg.Char? || msg.Other?
      ensures forall e <- effects :: e.Delivers() ==> e.to == to
      ensures ForwardCount(effects) == 1 && reply == ForwardResult
      ensures msg.KeyDown? ==> effects == RedoInputs(msg.vk, env.ctrlKeyDown, env.shiftKeyDown) + [Forward(to, msg)]
      ensures msg.Char? ==> effects == [Forward(to, Char(RemapChar(msg.code), msg.keyData))]
      ensures msg.Other? ==> effects == [Forward(to, msg)]
    {
      match msg
      case KeyDown(vk, _) =>
        var redo := RedoInputs(vk, env.ctrlKeyDown, env.shiftKeyDown);
        NoForwardCountsZero(redo);
        ForwardCountAppend(redo, Forwarded(to, msg));
        effects, reply := redo + Forwarded(to, msg), ForwardResult;
      case Char(code, keyData) =>
        effects, reply := Forwarded(to, Char(RemapChar(code), keyData)), ForwardResult;
      case Other(_, _, _) =>
        effects, reply := Forwarded(to, msg), ForwardResult;
    }
  }
}
