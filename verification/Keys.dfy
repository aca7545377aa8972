/** The two static keyboard remaps of OurWndProc, written identically in
    both revisions: Ctrl+Shift+Z (redo by undo-with-shift) is turned into
    Ctrl+Y, and the '=' character is turned into '+' so that zooming needs
    no Shift. */
module Keys {
  import opened Win32

  /** The synthetic inputs sent while a WM_KEYDOWN is handled: for Z
      pressed with Ctrl and Shift held, release Shift, tap Y, press Shift
      again; for any other key, nothing. */
  function RedoInputs(vk: int, ctrlKeyDown: bool, shiftKeyDown: bool): (effects: seq<Effect>)
    ensures effects != [] <==> vk == VK_Z && ctrlKeyDown && shiftKeyDown
    ensures forall e <- effects :: e.SendKey?
    ensures effects != [] ==>
      KeysOf(effects) == [MakeKeyboardEvent(VK_SHIFT, true), MakeKeyboardEvent(VK_Y, false),
                          MakeKeyboardEvent(VK_Y, true), MakeKeyboardEvent(VK_SHIFT, false)]
  {
    if vk == VK_Z && ctrlKeyDown && shiftKeyDown then
      var effects := [Key(VK_SHIFT, true), Key(VK_Y, false), Key(VK_Y, true), Key(VK_SHIFT, false)];
      KeysOfSendKeys(effects);
      effects
    else
      []
  }

  /** With Ctrl and Shift held and Y up, the host sees Y pressed while Ctrl
      is held and Shift is not (Ctrl+Y), and afterwards the keyboard is
      exactly as it was. */
  lemma RedoIsCtrlY(held: set<int>)
    requires VK_CONTROL in held && VK_SHIFT in held && VK_Y !in held
    ensures var keys := KeysOf(RedoInputs(VK_Z, true, true));
      && HeldAfter(held, keys[..2]) == held - {VK_SHIFT} + {VK_Y}
      && HeldAfter(held, keys) == held
  {
    var keys := KeysOf(RedoInputs(VK_Z, true, true));
    var shiftUp, yDown, yUp, shiftDown := keys[0], keys[1], keys[2], keys[3];
    assert keys[..2] == [shiftUp, yDown] && keys[2..] == [yUp, shiftDown];
    HeldAfterAppend(held, [shiftUp], [yDown]);
    HeldAfterAppend(held, keys[..2], keys[2..]);
    HeldAfterAppend(HeldAfter(held, keys[..2]), [yUp], [shiftDown]);
    assert keys[..2] + keys[2..] == keys;
  }

  /** The WM_CHAR rewrite: '=' becomes '+', every other character is kept. */
  function RemapChar(code: int): (r: int)
    ensures code == CHAR_EQUALS ==> r == CHAR_PLUS
    ensures code != CHAR_EQUALS ==> r == code
    ensures r != CHAR_EQUALS
  {
    if code == CHAR_EQUALS then CHAR_PLUS else code
  }
}
