/** The window registry: which windows OurWndProc is subclassing, and the
    procedure each of them had before. Both revisions carry the same code
    for it. The registry's lock is left out, so each operation is atomic. */
module WindowRegistry {
  import opened Win32

  /** A map with entries has a key to pick. */
  lemma HasKey(m: map<Hwnd, Proc>)
    requires |m| > 0
    ensures exists hwnd :: hwnd in m
  {
    if forall hwnd :: hwnd !in m {
      assert false;
    }
  }

  class Registry {
    /** gWindowMap: hooked window -> the procedure it had when hooked. */
    var windows: map<Hwnd, Proc>
    /** The GWLP_WNDPROC slot of every window the platform knows. */
    var installed: map<Hwnd, Proc>

    /** GetWindowLongPtr(hwnd, GWLP_WNDPROC); a window the platform does
        not know reads as 0. */
    function ProcOf(hwnd: Hwnd): Proc
      reads this
    {
      if hwnd in installed then installed[hwnd] else Native(0)
    }

    /** Every hooked window has OurWndProc installed. */
    ghost predicate Valid()
      reads this
    {
      forall hwnd <- windows :: hwnd in installed && installed[hwnd] == OurWndProc
    }

    constructor(platform: map<Hwnd, Proc>)
      ensures Valid()
      ensures windows == map[] && installed == platform
    {
      windows := map[];
      installed := platform;
    }

    /** MapWindow: hook a window that is not hooked yet, remembering the
        procedure it had; a window already hooked is left alone. */
    method MapWindow(hwnd: Hwnd)
      requires Valid()
      modifies this
      ensures Valid()
      ensures hwnd in windows && ProcOf(hwnd) == OurWndProc
      ensures old(hwnd in windows) ==> windows == old(windows) && installed == old(installed)
      ensures old(hwnd !in windows) ==>
        && windows == old(windows)[hwnd := old(ProcOf(hwnd))]
        && installed == old(installed)[hwnd := OurWndProc]
    {
      if hwnd in windows {
        return;
      }
      var oldWndProc := ProcOf(hwnd);
      windows := windows[hwnd := oldWndProc];
      installed := installed[hwnd := OurWndProc];
    }

    /** UnmapWindow: unhook a hooked window, putting back the procedure it
        had; a window that is not hooked is left alone. */
    method UnmapWindow(hwnd: Hwnd)
      requires Valid()
      modifies this
      ensures Valid()
      ensures hwnd !in windows
      ensures old(hwnd !in windows) ==> windows == old(windows) && installed == old(installed)
      ensures old(hwnd in windows) ==>
        && windows == old(windows) - {hwnd}
        && installed == old(installed)[hwnd := old(windows)[hwnd]]
    {
      if hwnd !in windows {
        return;
      }
      var data := windows[hwnd];
      windows := windows - {hwnd};
      installed := installed[hwnd := data];
    }

    /** UnmapAllWindows: unhook windows one by one, in whatever order the
        map yields them, until none is left. Every hooked window gets its
        own procedure back; no other window is touched. */
    method UnmapAllWindows()
      requires Valid()
      modifies this
      ensures Valid()
      ensures windows == map[]
      ensures installed.Keys == old(installed).Keys
      ensures forall hwnd :: ProcOf(hwnd) == if hwnd in old(windows) then old(windows)[hwnd] else old(ProcOf(hwnd))
    {
      while |windows| > 0
        invariant Valid()
        invariant windows.Keys <= old(windows).Keys
        invariant forall hwnd <- windows :: windows[hwnd] == old(windows)[hwnd]
        invariant installed.Keys == old(installed).Keys
        invariant forall hwnd ::
          ProcOf(hwnd) == if hwnd in old(windows) && hwnd !in windows then old(windows)[hwnd] else old(ProcOf(hwnd))
        decreases |windows|
      {
        HasKey(windows);
        var first :| first in windows;
        UnmapWindow(first);
      }
    }

    /** OurWinEventProc: a WM_DESTROY notification unhooks the window, a
        WM_KILLFOCUS notification hooks it, any other is ignored. */
    method OnWinEvent(event: int, hwnd: Hwnd)
      requires Valid()
      modifies this
      ensures Valid()
      // WM_DESTROY is UnmapWindow: the recorded procedure goes back.
      ensures event == WM_DESTROY ==> hwnd !in windows
      ensures event == WM_DESTROY && old(hwnd in windows) ==>
        && windows == old(windows) - {hwnd}
        && installed == old(installed)[hwnd := old(windows)[hwnd]]
      // WM_KILLFOCUS is MapWindow: a new window's current procedure is recorded.
      ensures event == WM_KILLFOCUS ==> hwnd in windows && ProcOf(hwnd) == OurWndProc
      ensures event == WM_KILLFOCUS && old(hwnd !in windows) ==>
        && windows == old(windows)[hwnd := old(ProcOf(hwnd))]
        && installed == old(installed)[hwnd := OurWndProc]
      ensures (event == WM_DESTROY && old(hwnd !in windows)) || (event == WM_KILLFOCUS && old(hwnd in windows)) ==>
        windows == old(windows) && installed == old(installed)
      ensures event != WM_DESTROY && event != WM_KILLFOCUS ==>
        windows == old(windows) && installed == old(installed)
      ensures forall other :: other != hwnd ==>
        (other in windows <==> old(other in windows)) && ProcOf(other) == old(ProcOf(other))
    {
      if event == WM_DESTROY {
        UnmapWindow(hwnd);
      } else if event == WM_KILLFOCUS {
        MapWindow(hwnd);
      }
    }

    /** Hooking a window that was not hooked and then unhooking it gives
        the registry back as it was, and the window its own procedure. */
    method MapThenUnmap(hwnd: Hwnd)
      requires Valid() && hwnd !in windows
      modifies this
      ensures Valid()
      ensures windows == old(windows)
      ensures forall w :: ProcOf(w) == old(ProcOf(w))
    {
      MapWindow(hwnd);
      UnmapWindow(hwnd);
      assert windows == old(windows);
    }
  }
}
