/**
 * The low-level global keyboard and mouse hooks (Ergonomy/Hooks/GlobalInputHook.cs).
 *
 * The operating system calls the two hook callbacks with a hook code `nCode`, a
 * message identifier `wParam` and message data `lParam`. A callback decides
 * whether the message is activity for its channel and then always passes the
 * message on to the next hook in the chain. The native calls themselves
 * (installing, removing and chaining hooks) are foreign: installing takes the
 * handle the system returns as a parameter, and the calls made into the system
 * are recorded in `nativeCalls` or returned as a `NextHookCall` value.
 */
module InputHook {
  // Hook kinds.
  const WH_KEYBOARD_LL: int := 13
  const WH_MOUSE_LL: int := 14

  // Message identifiers.
  const WM_KEYDOWN: int := 0x0100
  const WM_KEYUP: int := 0x0101
  const WM_SYSKEYDOWN: int := 0x0104
  const WM_SYSKEYUP: int := 0x0105
  const WM_MOUSEMOVE: int := 0x0200
  const WM_LBUTTONDOWN: int := 0x0201
  const WM_LBUTTONUP: int := 0x0202
  const WM_RBUTTONDOWN: int := 0x0204
  const WM_RBUTTONUP: int := 0x0205
  const WM_MBUTTONDOWN: int := 0x0207
  const WM_MBUTTONUP: int := 0x0208
  const WM_MOUSEWHEEL: int := 0x020A

  /** The messages that count as keyboard activity: key presses, ordinary and system. */
  const KeyboardActivityMessages: set<int> := {WM_KEYDOWN, WM_SYSKEYDOWN}

  /** The messages that count as mouse activity: moves, button presses and wheel turns. */
  const MouseActivityMessages: set<int> :=
    {WM_MOUSEMOVE, WM_LBUTTONDOWN, WM_RBUTTONDOWN, WM_MBUTTONDOWN, WM_MOUSEWHEEL}

  /** A call the hook makes into the operating system. */
  datatype NativeCall =
    | SetWindowsHookEx(hookId: int)
    | UnhookWindowsHookEx(handle: int)

  /** The call that hands a message on to the next hook in the chain. */
  datatype NextHookCall = CallNextHookEx(handle: int, nCode: int, wParam: int, lParam: int)

  /** Releases (key-up, button-up) are never activity, and no message is activity for both channels. */
  lemma ReleasesAreNotActivity()
    ensures KeyboardActivityMessages !! MouseActivityMessages
    ensures WM_KEYUP !in KeyboardActivityMessages && WM_SYSKEYUP !in KeyboardActivityMessages
    ensures WM_LBUTTONUP !in MouseActivityMessages && WM_RBUTTONUP !in MouseActivityMessages
    ensures WM_MBUTTONUP !in MouseActivityMessages
  {
  }

  class GlobalInputHook {
    var keyboardHookHandle: int
    var mouseHookHandle: int
    /** Every call made into the operating system, oldest first. */
    var nativeCalls: seq<NativeCall>

    /** A new hook holds null handles and has installed nothing. */
    constructor ()
      ensures keyboardHookHandle == 0 && mouseHookHandle == 0
      ensures nativeCalls == []
    {
      keyboardHookHandle, mouseHookHandle := 0, 0;
      nativeCalls := [];
    }

    /**
     * Installs the keyboard hook and then the mouse hook; the system answers with
     * `keyboardHandle` and `mouseHandle`, which the hook keeps.
     */
    method Start(keyboardHandle: int, mouseHandle: int)
      modifies this
      ensures keyboardHookHandle == keyboardHandle && mouseHookHandle == mouseHandle
      ensures nativeCalls == old(nativeCalls) + [SetWindowsHookEx(WH_KEYBOARD_LL), SetWindowsHookEx(WH_MOUSE_LL)]
    {
      keyboardHookHandle := keyboardHandle;
      nativeCalls := nativeCalls + [SetWindowsHookEx(WH_KEYBOARD_LL)];
      mouseHookHandle := mouseHandle;
      nativeCalls := nativeCalls + [SetWindowsHookEx(WH_MOUSE_LL)];
    }

    /** Removes both hooks by their handles; the handles themselves are kept. */
    method Stop()
      modifies this
      ensures keyboardHookHandle == old(keyboardHookHandle) && mouseHookHandle == old(mouseHookHandle)
      ensures nativeCalls == old(nativeCalls) + [UnhookWindowsHookEx(keyboardHookHandle), UnhookWindowsHookEx(mouseHookHandle)]
    {
      nativeCalls := nativeCalls + [UnhookWindowsHookEx(keyboardHookHandle), UnhookWindowsHookEx(mouseHookHandle)];
    }

    /** Disposing is stopping. */
    method Dispose()
      modifies this
      ensures keyboardHookHandle == old(keyboardHookHandle) && mouseHookHandle == old(mouseHookHandle)
      ensures nativeCalls == old(nativeCalls) + [UnhookWindowsHookEx(keyboardHookHandle), UnhookWindowsHookEx(mouseHookHandle)]
    {
      Stop();
    }

    /**
     * The keyboard callback: raises KeyboardActivity exactly for a key press the
     * system asks the hook to process, and always forwards the message unchanged.
     */
    method KeyboardHookCallback(nCode: int, wParam: int, lParam: int) returns (keyboardActivity: bool, next: NextHookCall)
      ensures keyboardActivity <==> 0 <= nCode && wParam in KeyboardActivityMessages
      ensures next == CallNextHookEx(keyboardHookHandle, nCode, wParam, lParam)
    {
      keyboardActivity := false;
      if nCode >= 0 && (wParam == WM_KEYDOWN || wParam == WM_SYSKEYDOWN) {
        keyboardActivity := true;
      }
      next := CallNextHookEx(keyboardHookHandle, nCode, wParam, lParam);
    }

    /**
     * The mouse callback: raises MouseActivity exactly for a move, a button press
     * or a wheel turn the system asks the hook to process, and always forwards
     * the message unchanged.
     */
    method MouseHookCallback(nCode: int, wParam: int, lParam: int) returns (mouseActivity: bool, next: NextHookCall)
      ensures mouseActivity <==> 0 <= nCode && wParam in MouseActivityMessages
      ensures next == CallNextHookEx(mouseHookHandle, nCode, wParam, lParam)
    {
      mouseActivity := false;
      if nCode >= 0 {
        if wParam == WM_LBUTTONDOWN || wParam == WM_RBUTTONDOWN || wParam == WM_MBUTTONDOWN
          || wParam == WM_MOUSEMOVE || wParam == WM_MOUSEWHEEL
        {
          mouseActivity := true;
        }
      }
      next := CallNextHookEx(mouseHookHandle, nCode, wParam, lParam);
    }
  }
}
