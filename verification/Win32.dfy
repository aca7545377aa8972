/** Platform vocabulary shared by both revisions of the mouse-mode engine:
    packed 16-bit mouse coordinates, C integer division, the window messages
    the engine tells apart, the per-message platform queries it makes, the
    effects it emits, synthetic keyboard input and the pen signature. */
module Win32 {

  // ---------------------------------------------------------------------
  // Integers and points
  // ---------------------------------------------------------------------

  /** A signed 16-bit value: what GET_X_LPARAM, GET_Y_LPARAM and
      GET_WHEEL_DELTA_WPARAM read out of a message parameter. */
  type Short = x: int | -0x8000 <= x < 0x8000

  function Abs(x: int): nat { if x < 0 then -x else x }

  /** A POINT (two LONG fields). Widths beyond 16 bits are not bounded here. */
  datatype Point = Point(x: int, y: int) {
    function Plus(d: Point): Point { Point(x + d.x, y + d.y) }
    function Minus(p: Point): Point { Point(x - p.x, y - p.y) }
  }

  const Origin := Point(0, 0)

  /** The two signed 16-bit halves of a mouse message's lParam. */
  datatype Coords = Coords(x: Short, y: Short)

  function ToPoint(c: Coords): Point { Point(c.x, c.y) }

  /** The C cast `(short) v`: keep the low 16 bits, read them as signed. */
  function Wrap16(v: int): (r: Short)
    ensures (v - r) % 0x1_0000 == 0
    ensures -0x8000 <= v < 0x8000 ==> r == v
  {
    var k := (v + 0x8000) / 0x1_0000;
    assert v - ((v + 0x8000) % 0x1_0000 - 0x8000) == k * 0x1_0000;
    (v + 0x8000) % 0x1_0000 - 0x8000
  }

  /** `MAKELONG((short) p.x, (short) p.y)` as read back by GET_X_LPARAM and
      GET_Y_LPARAM: each coordinate is cut to 16 bits. */
  function Pack(p: Point): (c: Coords)
    ensures -0x8000 <= p.x < 0x8000 && -0x8000 <= p.y < 0x8000 ==> ToPoint(c) == p
  {
    Coords(Wrap16(p.x), Wrap16(p.y))
  }

  lemma PackToPoint(c: Coords)
    ensures Pack(ToPoint(c)) == c
  {
  }

  /** C's `/` on int for a positive divisor: the quotient is truncated
      toward zero (Dafny's own `/` rounds toward minus infinity). */
  function TDiv(a: int, b: int): (q: int)
    requires b > 0
    ensures a >= 0 ==> 0 <= q && q * b <= a < q * b + b
    ensures a < 0 ==> q <= 0 && q * b - b < a <= q * b
  {
    if a >= 0 then
      DivBounds(a, b);
      a / b
    else
      DivBounds(-a, b);
      -((-a) / b)
  }

  lemma DivBounds(a: nat, b: int)
    requires b > 0
    ensures 0 <= a / b && (a / b) * b <= a < (a / b) * b + b
  {
    var q, r := a / b, a % b;
    assert a == q * b + r && 0 <= r < b;
  }

  // ---------------------------------------------------------------------
  // Constants (winuser.h)
  // ---------------------------------------------------------------------

  const MK_SHIFT: bv16 := 0x0004
  const MK_CONTROL: bv16 := 0x0008

  const VK_SHIFT := 0x10
  const VK_CONTROL := 0x11
  const VK_MENU := 0x12
  const VK_Y := 0x59          // 'Y'
  const VK_Z := 0x5A          // 'Z'
  const VK_OEM_PLUS := 0xBB
  const VK_OEM_MINUS := 0xBD

  const CHAR_EQUALS := 0x3D   // '='
  const CHAR_PLUS := 0x2B     // '+'

  const WHEEL_DELTA := 120

  const GID_PAN := 4
  const GF_BEGIN: bv32 := 0x1
  const GF_INERTIA: bv32 := 0x2
  const GF_END: bv32 := 0x4

  const INPUT_KEYBOARD := 1
  const KEYEVENTF_KEYUP := 0x0002

  // Window-lifecycle event codes routed by the WinEvent hook.
  const WM_DESTROY := 0x0002
  const WM_KILLFOCUS := 0x0008

  // ---------------------------------------------------------------------
  // Windows, procedures and messages
  // ---------------------------------------------------------------------

  type Hwnd = int

  /** A window procedure: the engine's own OurWndProc, or any other one,
      identified by its address (a LONG_PTR). */
  datatype Proc = OurWndProc | Native(address: int)

  // Message codes (winuser.h) of the messages OurWndProc tells apart.
  const WM_KEYDOWN := 0x0100
  const WM_CHAR := 0x0102
  const WM_GESTURE := 0x0119
  const WM_MOUSEMOVE := 0x0200
  const WM_LBUTTONDOWN := 0x0201
  const WM_LBUTTONUP := 0x0202
  const WM_LBUTTONDBLCLK := 0x0203
  const WM_MOUSEWHEEL := 0x020A
  const WM_MOUSEHWHEEL := 0x020E

  /** The messages OurWndProc tells apart, with their parameters decoded.
      `keys` is the MK_* word of a mouse message's wParam; `at` is its
      packed lParam; `delta` is the signed high word of a wheel wParam.
      `Other` is every remaining message, with its raw code and parameters. */
  datatype Msg =
    | LButtonDown(keys: bv16, at: Coords)
    | LButtonUp(keys: bv16, at: Coords)
    | LButtonDblClk(keys: bv16, at: Coords)
    | MouseMove(keys: bv16, at: Coords)
    | KeyDown(vk: int, keyData: int)
    | Char(code: int, keyData: int)
    | Gesture(handle: int)
    | MouseWheel(keys: bv16, delta: Short, at: Coords)
    | MouseHWheel(keys: bv16, delta: Short, at: Coords)
    | Other(code: int, wParam: int, lParam: int)
  {
    /** A message decoded into its own case: `Other` never carries the
        code of a message that has one. */
    predicate Decoded()
    {
      Other? ==> code !in {WM_KEYDOWN, WM_CHAR, WM_GESTURE, WM_MOUSEMOVE, WM_LBUTTONDOWN, WM_LBUTTONUP,
                           WM_LBUTTONDBLCLK, WM_MOUSEWHEEL, WM_MOUSEHWHEEL}
    }
  }

  /** What GetGestureInfo fills in for a WM_GESTURE handle. */
  datatype GestureInfo = GestureInfo(id: int, flags: bv32, location: Coords)

  /** A value of `rand() % 100`. */
  type Percent = x: int | 0 <= x < 100

  /** The platform queries OurWndProc makes while handling one message,
      supplied with the message instead of being made:
      GetMessageExtraInfo, CURSOR_SHOWING of GetCursorInfo, the high bytes
      of GetKeyState(VK_CONTROL) and GetKeyState(VK_SHIFT), GetCursorPos,
      GetGestureInfo (None when it fails), ClientToScreen of the gesture
      point, and the random draw. */
  datatype Env = Env(
    extraInfo: bv32,
    cursorShown: bool,
    ctrlKeyDown: bool,
    shiftKeyDown: bool,
    cursorPos: Point,
    gesture: Option<GestureInfo>,
    gestureScreenPoint: Point,
    draw: Percent)

  datatype Option<T> = None | Some(value: T)

  // ---------------------------------------------------------------------
  // Synthetic keyboard input
  // ---------------------------------------------------------------------

  /** The keyboard INPUT record handed to SendInput. */
  datatype KeyInput = KeyInput(kind: int, vk: int, flags: int)

  /** MakeKeyboardEvent: a keyboard input for `vk`, flagged as a release
      exactly when `keyUp` holds. `wVk` is a WORD. */
  function MakeKeyboardEvent(vk: int, keyUp: bool): (r: KeyInput)
    ensures r.kind == INPUT_KEYBOARD
    ensures 0 <= r.vk < 0x1_0000 && (0 <= vk < 0x1_0000 ==> r.vk == vk)
    ensures r.flags == KEYEVENTF_KEYUP <==> keyUp
    ensures !keyUp ==> r.flags == 0
  {
    KeyInput(INPUT_KEYBOARD, vk % 0x1_0000, if keyUp then KEYEVENTF_KEYUP else 0)
  }

  /** The set of virtual keys held down after the platform has applied
      `inputs` in order, starting from `held`. */
  function HeldAfter(held: set<int>, inputs: seq<KeyInput>): set<int>
    decreases |inputs|
  {
    if inputs == [] then held
    else
      var i := inputs[0];
      HeldAfter(if i.flags == KEYEVENTF_KEYUP then held - {i.vk} else held + {i.vk}, inputs[1..])
  }

  lemma {:induction false} HeldAfterAppend(held: set<int>, a: seq<KeyInput>, b: seq<KeyInput>)
    ensures HeldAfter(held, a + b) == HeldAfter(HeldAfter(held, a), b)
    decreases |a|
  {
    if a == [] {
      assert a + b == b;
    } else {
      assert (a + b)[0] == a[0] && (a + b)[1..] == a[1..] + b;
      var i := a[0];
      HeldAfterAppend(if i.flags == KEYEVENTF_KEYUP then held - {i.vk} else held + {i.vk}, a[1..], b);
    }
  }

  // ---------------------------------------------------------------------
  // Effects
  // ---------------------------------------------------------------------

  /** What handling one message does to the outside world, in order.
      Forward: the (possibly rewritten) message goes to the window's
      original procedure, whose result OurWndProc returns.
      ForwardInTrackpadScroll: the same, delivered while gInTrackpadScroll
      is raised. CallOriginal: a synthetic message delivered to the original
      procedure, whose result is dropped. SendKey: one SendInput keyboard
      record. SetCursor: SetCursorPos. CloseGesture: CloseGestureInfoHandle. */
  datatype Effect =
    | Forward(to: Proc, msg: Msg)
    | ForwardInTrackpadScroll(to: Proc, msg: Msg)
    | CallOriginal(to: Proc, msg: Msg)
    | SendKey(input: KeyInput)
    | SetCursor(p: Point)
    | CloseGesture(handle: int)
  {
    predicate IsForward() { Forward? || ForwardInTrackpadScroll? }
    predicate Delivers() { Forward? || ForwardInTrackpadScroll? || CallOriginal? }
  }

  /** What OurWndProc returns: 0, or the result of its one forward. */
  datatype Reply = Zero | ForwardResult

  function Key(vk: int, keyUp: bool): Effect { SendKey(MakeKeyboardEvent(vk, keyUp)) }

  /** The handled message goes to the original procedure unchanged or
      rewritten, and its result is returned. */
  function Forwarded(to: Proc, msg: Msg): (effects: seq<Effect>)
    ensures ForwardCount(effects) == 1
    ensures forall e <- effects :: e.Delivers() ==> e.to == to
  {
    var effects := [Forward(to, msg)];
    assert effects[1..] == [];
    effects
  }

  /** The keyboard records among `effects`, in order. */
  function KeysOf(effects: seq<Effect>): (keys: seq<KeyInput>)
    ensures |keys| <= |effects|
    decreases |effects|
  {
    if effects == [] then []
    else (if effects[0].SendKey? then [effects[0].input] else []) + KeysOf(effects[1..])
  }

  lemma {:induction false} KeysOfAppend(a: seq<Effect>, b: seq<Effect>)
    ensures KeysOf(a + b) == KeysOf(a) + KeysOf(b)
    decreases |a|
  {
    if a == [] {
      assert a + b == b;
    } else {
      assert (a + b)[0] == a[0] && (a + b)[1..] == a[1..] + b;
      KeysOfAppend(a[1..], b);
    }
  }

  /** When every effect is a keyboard record, KeysOf lists their records. */
  lemma {:induction false} KeysOfSendKeys(effects: seq<Effect>)
    requires forall e <- effects :: e.SendKey?
    ensures KeysOf(effects) == seq(|effects|, i requires 0 <= i < |effects| => effects[i].input)
    decreases |effects|
  {
    if effects != [] {
      KeysOfSendKeys(effects[1..]);
    }
  }

  /** How many of `effects` are forwards of the handled message. */
  function ForwardCount(effects: seq<Effect>): (n: nat)
    ensures n <= |effects|
    decreases |effects|
  {
    if effects == [] then 0
    else (if effects[0].IsForward() then 1 else 0) + ForwardCount(effects[1..])
  }

  lemma {:induction false} ForwardCountAppend(a: seq<Effect>, b: seq<Effect>)
    ensures ForwardCount(a + b) == ForwardCount(a) + ForwardCount(b)
    decreases |a|
  {
    if a == [] {
      assert a + b == b;
    } else {
      assert (a + b)[0] == a[0] && (a + b)[1..] == a[1..] + b;
      ForwardCountAppend(a[1..], b);
    }
  }

  lemma {:induction false} NoForwardCountsZero(effects: seq<Effect>)
    requires forall e <- effects :: !e.IsForward()
    ensures ForwardCount(effects) == 0
    decreases |effects|
  {
    if effects != [] {
      NoForwardCountsZero(effects[1..]);
    }
  }

  // ---------------------------------------------------------------------
  // Pen signature
  // ---------------------------------------------------------------------

  const MI_WP_SIGNATURE: bv32 := 0xFF51_5700
  const SIGNATURE_MASK: bv32 := 0xFFFF_FF00

  /** IS_PEN_EVENT: the message extra info carries the pen/touch signature
      in everything but its lowest byte. */
  function IsPenEvent(extraInfo: bv32): (pen: bool)
    ensures pen <==> extraInfo >> 8 == 0xFF_5157
    ensures pen ==> extraInfo & 0xFF == extraInfo ^ MI_WP_SIGNATURE
  {
    extraInfo & SIGNATURE_MASK == MI_WP_SIGNATURE
  }
}
