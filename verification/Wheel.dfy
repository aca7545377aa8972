/** The wheel handling of the current revision: a Ctrl-only vertical wheel
    event is read as a trackpad pinch and turned into taps of Live's zoom
    keys; every other wheel event is rescaled and quantized into whole
    notches; horizontal notches are sent on as Ctrl+vertical wheel. */
module Wheel {
  import opened Win32
  import opened WheelMath

  // ---------------------------------------------------------------------
  // Zoom keystrokes
  // ---------------------------------------------------------------------

  /** `count` taps (press, release) of `vk`. */
  function KeyTaps(vk: int, count: nat): (taps: seq<Effect>)
    ensures |taps| == 2 * count
    ensures forall e <- taps :: e.SendKey?
    decreases count
  {
    if count == 0 then [] else [Key(vk, false), Key(vk, true)] + KeyTaps(vk, count - 1)
  }

  /** One more tap goes at the end. */
  lemma {:induction false} KeyTapsSnoc(vk: int, count: nat)
    ensures KeyTaps(vk, count + 1) == KeyTaps(vk, count) + [Key(vk, false), Key(vk, true)]
    decreases count
  {
    if count > 0 {
      KeyTapsSnoc(vk, count - 1);
    }
  }

  /** The inner loop of the zoom case: one SendInput of a press and a
      release of `vk` per notch. */
  method ZoomKeystrokes(vk: int, count: nat) returns (taps: seq<Effect>)
    ensures taps == KeyTaps(vk, count)
  {
    taps := [];
    var i := 0;
    while i < count
      invariant 0 <= i <= count
      invariant taps == KeyTaps(vk, i)
    {
      KeyTapsSnoc(vk, i);
      taps := taps + [Key(vk, false), Key(vk, true)];
      i := i + 1;
    }
  }

  /** How many key-down records of `vk` are among `inputs`. */
  function PressCount(inputs: seq<KeyInput>, vk: int): nat
    decreases |inputs|
  {
    if inputs == [] then 0
    else (if inputs[0].vk == vk && inputs[0].flags != KEYEVENTF_KEYUP then 1 else 0) + PressCount(inputs[1..], vk)
  }

  lemma {:induction false} PressCountAppend(a: seq<KeyInput>, b: seq<KeyInput>, vk: int)
    ensures PressCount(a + b, vk) == PressCount(a, vk) + PressCount(b, vk)
    decreases |a|
  {
    if a == [] {
      assert a + b == b;
    } else {
      assert (a + b)[0] == a[0] && (a + b)[1..] == a[1..] + b;
      PressCountAppend(a[1..], b, vk);
    }
  }

  /** The zoom key for a notch count: plus to zoom in, minus to zoom out. */
  function ZoomKey(notches: int): (vk: int)
    ensures vk == VK_OEM_PLUS || vk == VK_OEM_MINUS
    ensures vk == VK_OEM_PLUS <==> notches > 0
  {
    if notches > 0 then VK_OEM_PLUS else VK_OEM_MINUS
  }

  /** The synthetic input for `notches` zoom notches: release Ctrl, tap the
      zoom key once per notch, press Ctrl again. */
  function ZoomEffects(notches: int): (r: seq<Effect>)
    ensures notches == 0 <==> r == []
    ensures notches != 0 ==> |r| == 2 * Abs(notches) + 2 && r[0] == Key(VK_CONTROL, true) && r[|r| - 1] == Key(VK_CONTROL, false)
    ensures forall e <- r :: e.SendKey?
  {
    if notches == 0 then []
    else [Key(VK_CONTROL, true)] + KeyTaps(ZoomKey(notches), Abs(notches)) + [Key(VK_CONTROL, false)]
  }

  /** Zoom steps sent: presses of the plus key less presses of the minus key. */
  function ZoomSteps(effects: seq<Effect>): int
  {
    PressCount(KeysOf(effects), VK_OEM_PLUS) - PressCount(KeysOf(effects), VK_OEM_MINUS)
  }

  /** Tapping a key that is up presses it exactly `count` times and leaves
      the keyboard as it was. */
  lemma {:induction false} KeyTapsKeys(vk: int, count: nat, held: set<int>)
    requires 0 <= vk < 0x1_0000 && vk !in held
    ensures PressCount(KeysOf(KeyTaps(vk, count)), vk) == count
    ensures forall other :: other != vk ==> PressCount(KeysOf(KeyTaps(vk, count)), other) == 0
    ensures HeldAfter(held, KeysOf(KeyTaps(vk, count))) == held
    decreases count
  {
    if count > 0 {
      var tap := [Key(vk, false), Key(vk, true)];
      var rest := KeyTaps(vk, count - 1);
      KeyTapsKeys(vk, count - 1, held);
      KeysOfAppend(tap, rest);
      KeysOfSendKeys(tap);
      var keys := [MakeKeyboardEvent(vk, false), MakeKeyboardEvent(vk, true)];
      assert KeysOf(tap) == keys;
      PressCountAppend(keys, KeysOf(rest), vk);
      forall other | other != vk
        ensures PressCount(KeysOf(KeyTaps(vk, count)), other) == 0
      {
        PressCountAppend(keys, KeysOf(rest), other);
      }
      HeldAfterAppend(held, keys, KeysOf(rest));
      assert keys[0].vk == vk && keys[0].flags != KEYEVENTF_KEYUP;
      assert keys[1].vk == vk && keys[1].flags == KEYEVENTF_KEYUP;
      assert keys[1..] == [keys[1]] && [keys[1]][1..] == [];
      assert HeldAfter(held + {vk}, [keys[1]]) == held + {vk} - {vk} == held;
      assert HeldAfter(held, keys) == held;
    }
  }

  /** The zoom keystrokes for `notches` notches: only keyboard records,
      exactly `notches` net zoom steps, all of them on one zoom key, Ctrl
      released while they are tapped, and, when Ctrl was held and the zoom
      keys were up, the keyboard left as it was. */
  lemma {:induction false} ZoomEffectsSpec(notches: int, held: set<int>)
    requires VK_CONTROL in held && VK_OEM_PLUS !in held && VK_OEM_MINUS !in held
    ensures forall e <- ZoomEffects(notches) :: e.SendKey?
    ensures ZoomSteps(ZoomEffects(notches)) == notches
    ensures notches > 0 ==> PressCount(KeysOf(ZoomEffects(notches)), VK_OEM_MINUS) == 0
    ensures notches < 0 ==> PressCount(KeysOf(ZoomEffects(notches)), VK_OEM_PLUS) == 0
    ensures notches != 0 ==> HeldAfter(held, KeysOf(ZoomEffects(notches))[..1]) == held - {VK_CONTROL}
    ensures HeldAfter(held, KeysOf(ZoomEffects(notches))) == held
  {
    if notches != 0 {
      var vk := ZoomKey(notches);
      var up, taps, down := [Key(VK_CONTROL, true)], KeyTaps(vk, Abs(notches)), [Key(VK_CONTROL, false)];
      var released := held - {VK_CONTROL};
      KeyTapsKeys(vk, Abs(notches), released);
      KeysOfAppend(up + taps, down);
      KeysOfAppend(up, taps);
      var ctrlUp, ctrlDown := MakeKeyboardEvent(VK_CONTROL, true), MakeKeyboardEvent(VK_CONTROL, false);
      assert KeysOf(up) == [ctrlUp] && KeysOf(down) == [ctrlDown];
      var keys := KeysOf(ZoomEffects(notches));
      assert keys == [ctrlUp] + KeysOf(taps) + [ctrlDown];
      assert keys[..1] == [ctrlUp];
      PressCountAppend([ctrlUp] + KeysOf(taps), [ctrlDown], VK_OEM_PLUS);
      PressCountAppend([ctrlUp], KeysOf(taps), VK_OEM_PLUS);
      PressCountAppend([ctrlUp] + KeysOf(taps), [ctrlDown], VK_OEM_MINUS);
      PressCountAppend([ctrlUp], KeysOf(taps), VK_OEM_MINUS);
      HeldAfterAppend(held, [ctrlUp], KeysOf(taps));
      HeldAfterAppend(held, [ctrlUp] + KeysOf(taps), [ctrlDown]);
    }
  }

  // ---------------------------------------------------------------------
  // The quantizer
  // ---------------------------------------------------------------------

  /** The quantizer's globals as one value: gWheelDeltaAcc.y,
      gWheelDeltaAcc.x, gWheelZoomDeltaAcc and gInTrackpadScroll. */
  datatype WheelState = WheelState(vertical: int, horizontal: int, zoom: int, inTrackpadScroll: bool)
  {
    /** Every accumulator holds less than one notch. */
    predicate Valid()
    {
      Abs(vertical) < WHEEL_DELTA && Abs(horizontal) < WHEEL_DELTA && Abs(zoom) < WHEEL_DELTA
    }
  }

  /** What a wheel event leaves behind: the state, the deliveries and the reply. */
  datatype Wheeled = Wheeled(next: WheelState, effects: seq<Effect>, reply: Reply)

  /** WM_MOUSEWHEEL: a pinch zooms, anything else scrolls. Every
      accumulator stays below a notch, and the reply is a forward's result
      exactly when one forward happened. */
  function WheelStep(s: WheelState, to: Proc, keys: bv16, delta: Short, at: Coords): (r: Wheeled)
    ensures s.Valid() ==> r.next.Valid()
    ensures r.next.horizontal == s.horizontal && r.next.inTrackpadScroll == s.inTrackpadScroll
    ensures ForwardCount(r.effects) == if r.reply == ForwardResult then 1 else 0
    ensures forall e <- r.effects :: e.Delivers() ==> e.IsForward() && e.to == to
  {
    if !s.inTrackpadScroll && keys == MK_CONTROL then
      var total := s.zoom + delta;
      var notches := NotchCount(total);
      NoForwardCountsZero(ZoomEffects(notches));
      Wheeled(s.(zoom := total - notches * WHEEL_DELTA), ZoomEffects(notches), Zero)
    else
      var total := s.vertical + ScaleVertical(delta);
      var out := NotchPart(total);
      if out == 0 then Wheeled(s.(vertical := total), [], Zero)
      else
        var effects := [Forward(to, MouseWheel(keys, Wrap16(out), at))];
        assert effects[1..] == [];
        Wheeled(s.(vertical := total - out), effects, ForwardResult)
  }

  /** WM_MOUSEHWHEEL: whole horizontal notches go out as a Ctrl+vertical
      wheel event. Every accumulator stays below a notch, the trackpad
      flag is down afterwards, and the reply is the forward's result
      exactly when there was one. */
  function HorizontalWheelStep(s: WheelState, to: Proc, delta: Short, at: Coords): (r: Wheeled)
    ensures s.Valid() ==> r.next.Valid()
    ensures r.next.vertical == s.vertical && r.next.zoom == s.zoom
    ensures r.reply == ForwardResult ==> !r.next.inTrackpadScroll
    ensures ForwardCount(r.effects) == if r.reply == ForwardResult then 1 else 0
    ensures forall e <- r.effects :: e.Delivers() ==> e.IsForward() && e.to == to
  {
    var total := s.horizontal + ScaleHorizontal(delta);
    var out := NotchPart(total);
    if out == 0 then Wheeled(s.(horizontal := total), [], Zero)
    else
      var effects := [Key(VK_CONTROL, false), ForwardInTrackpadScroll(to, MouseWheel(MK_CONTROL, Wrap16(out), at)),
                      Key(VK_CONTROL, true)];
      assert effects[1..][1..][1..] == [];
      assert ForwardCount(effects[1..][1..]) == 0;
      assert ForwardCount(effects[1..]) == 1;
      Wheeled(s.(horizontal := total - out, inTrackpadScroll := false), effects, ForwardResult)
  }

  /** The cases of WheelStep. A pinch (exactly MK_CONTROL, no horizontal
      notch being delivered) is swallowed: the zoom keystrokes carry every
      whole notch of the accumulated raw delta and the rest stays behind
      with its sign. Anything else scrolls: the forwarded amount is a whole
      number of notches and, with the rest, adds up to the accumulator plus
      the scaled delta; it is forwarded once with the same key word. */
  lemma WheelStepCases(s: WheelState, to: Proc, keys: bv16, delta: Short, at: Coords)
    ensures var r := WheelStep(s, to, keys, delta, at);
      !s.inTrackpadScroll && keys == MK_CONTROL ==>
        && r.reply == Zero && r.next.vertical == s.vertical
        && ZoomSteps(r.effects) * WHEEL_DELTA + r.next.zoom == s.zoom + delta
        && (r.next.zoom == 0 || (r.next.zoom < 0 <==> s.zoom + delta < 0))
        && r.effects == ZoomEffects(ZoomSteps(r.effects))
    ensures var r := WheelStep(s, to, keys, delta, at);
      !(!s.inTrackpadScroll && keys == MK_CONTROL) ==>
        var out := s.vertical + ScaleVertical(delta) - r.next.vertical;
        && r.next.zoom == s.zoom
        && out % WHEEL_DELTA == 0
        && (r.next.vertical == 0 || (r.next.vertical < 0 <==> out + r.next.vertical < 0))
        && (out == 0 ==> r.effects == [] && r.reply == Zero)
        && (out != 0 ==> r.effects == [Forward(to, MouseWheel(keys, Wrap16(out), at))] && r.reply == ForwardResult)
  {
    if !s.inTrackpadScroll && keys == MK_CONTROL {
      var notches := NotchCount(s.zoom + delta);
      assert WheelStep(s, to, keys, delta, at).effects == ZoomEffects(notches);
      ZoomEffectsSpec(notches, {VK_CONTROL});
    }
  }

  /** The cases of HorizontalWheelStep: the forwarded amount is a whole
      number of notches and, with the rest, adds up to the accumulator plus
      the doubled and reversed delta; it goes out as Ctrl+vertical wheel
      with Ctrl pressed around the delivery. */
  lemma HorizontalWheelStepCases(s: WheelState, to: Proc, delta: Short, at: Coords)
    ensures var r := HorizontalWheelStep(s, to, delta, at);
      var out := s.horizontal + ScaleHorizontal(delta) - r.next.horizontal;
      && out % WHEEL_DELTA == 0
      && (r.next.horizontal == 0 || (r.next.horizontal < 0 <==> out + r.next.horizontal < 0))
      && (out == 0 ==> r.effects == [] && r.reply == Zero && r.next.inTrackpadScroll == s.inTrackpadScroll)
      && (out != 0 ==>
            && r.effects == [Key(VK_CONTROL, false),
                             ForwardInTrackpadScroll(to, MouseWheel(MK_CONTROL, Wrap16(out), at)),
                             Key(VK_CONTROL, true)]
            && r.reply == ForwardResult)
  {
  }

  class WheelQuantizer {
    /** gWheelDeltaAcc.y, gWheelDeltaAcc.x and gWheelZoomDeltaAcc. */
    var vertical: int
    var horizontal: int
    var zoom: int
    /** gInTrackpadScroll: raised while a horizontal notch is being
        delivered as a Ctrl+vertical wheel event. */
    var inTrackpadScroll: bool

    /** The globals as one value. */
    function State(): WheelState
      reads this
    {
      WheelState(vertical, horizontal, zoom, inTrackpadScroll)
    }

    ghost predicate Valid()
      reads this
    {
      State().Valid()
    }

    constructor()
      ensures Valid()
      ensures vertical == 0 && horizontal == 0 && zoom == 0 && !inTrackpadScroll
    {
      vertical, horizontal, zoom := 0, 0, 0;
      inTrackpadScroll := false;
    }

    /** WM_MOUSEWHEEL. With exactly MK_CONTROL in the key word (and no
        horizontal notch being delivered) the raw delta is added to the zoom
        accumulator and its whole notches become zoom keystrokes; the event
        itself is swallowed. Otherwise the delta is scaled by 4/3 and added
        to the vertical accumulator, and its whole notches, if any, are
        forwarded as one wheel event with the same key word. The new
        accumulators, the effects and the reply are WheelStep's, whose cases
        WheelStepCases spells out. */
    method OnWheel(to: Proc, keys: bv16, delta: Short, at: Coords) returns (effects: seq<Effect>, reply: Reply)
      requires Valid()
      modifies this
      ensures Valid()
      ensures Wheeled(State(), effects, reply) == WheelStep(old(State()), to, keys, delta, at)
    {
      if !inTrackpadScroll && keys == MK_CONTROL {
        var deltaAcc := zoom + delta;
        var outDelta := NotchCount(deltaAcc);
        deltaAcc := deltaAcc - outDelta * WHEEL_DELTA;
        zoom := deltaAcc;
        effects := [];
        if outDelta != 0 {
          var taps := ZoomKeystrokes(ZoomKey(outDelta), Abs(outDelta));
          effects := [Key(VK_CONTROL, true)] + taps + [Key(VK_CONTROL, false)];
        }
        reply := Zero;
        return;
      }
      var deltaAcc := vertical + ScaleVertical(delta);
      var outDelta := NotchPart(deltaAcc);
      vertical := deltaAcc - outDelta;
      if outDelta == 0 {
        effects, reply := [], Zero;
        return;
      }
      effects := [Forward(to, MouseWheel(keys, Wrap16(outDelta), at))];
      reply := ForwardResult;
    }

    /** WM_MOUSEHWHEEL: the delta is doubled and reversed into the
        horizontal accumulator; whole notches, if any, are delivered as a
        Ctrl+vertical wheel event (Live's horizontal scroll) with Ctrl
        pressed around the delivery and the trackpad-scroll flag raised
        during it, and the delivery's result is returned. The new
        accumulators, the effects and the reply are HorizontalWheelStep's. */
    method OnHorizontalWheel(to: Proc, delta: Short, at: Coords) returns (effects: seq<Effect>, reply: Reply)
      requires Valid()
      modifies this
      ensures Valid()
      ensures Wheeled(State(), effects, reply) == HorizontalWheelStep(old(State()), to, delta, at)
    {
      var deltaAcc := horizontal + ScaleHorizontal(delta);
      var outDelta := NotchPart(deltaAcc);
      horizontal := deltaAcc - outDelta;
      if outDelta == 0 {
        effects, reply := [], Zero;
        return;
      }
      var forward := ForwardInTrackpadScroll(to, MouseWheel(MK_CONTROL, Wrap16(outDelta), at));
      inTrackpadScroll := true;
      effects := [Key(VK_CONTROL, false), forward];
      inTrackpadScroll := false;
      effects := effects + [Key(VK_CONTROL, true)];
      reply := ForwardResult;
    }
  }

  /** The (short) cast on the forwarded amount: a large enough single
      wheel event wraps to a delta of the opposite sign. A raw delta of
      24660 scales to 32880, which is 274 whole notches, and goes out as
      -32656. */
  lemma ScrollWrapExample()
    ensures ScaleVertical(24660) == 32880 && NotchPart(32880) == 32880
    ensures Wrap16(32880) == -32656
  {
    assert NotchCount(32880) == 274;
  }
}
