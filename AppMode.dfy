/** The editor window's modes: view mode, grep mode with its key, and the debug
    monitor mode, whose owner is recorded in a handle shared by all editor
    processes. */
module AppMode {
  import opened Common

  /** Whether a document listener lets the operation go on. */
  datatype CallbackResult = CallbackContinue | CallbackInterrupt

  /** The shared handles: the window that owns the debug monitor, or null. */
  class SharedHandles {
    var hwndDebug: Handle
    constructor ()
      ensures hwndDebug == Null
    {
      hwndDebug := Null;
    }
  }

  /** The editor's main window, as far as the modes need it. */
  class EditWnd {
    const hwnd: Handle
    var grepMode: bool
    constructor (hwnd: Handle)
      ensures this.hwnd == hwnd && !grepMode
    {
      this.hwnd := hwnd;
      grepMode := false;
    }
  }

  /** Closing is refused while a grep is running. */
  function OnBeforeClose(grepRunning: bool): (r: CallbackResult)
    ensures r == CallbackInterrupt <==> grepRunning
  {
    if grepRunning then CallbackInterrupt else CallbackContinue
  }

  class AppMode {
    var viewMode: bool
    var debugMode: bool
    var grepKey: string
    const wnd: EditWnd

    /** This window is in debug mode and owns the shared debug handle. */
    ghost predicate OwnsDebug(shared: SharedHandles)
      reads this, wnd, shared
    {
      debugMode ==> shared.hwndDebug == wnd.hwnd
    }

    constructor (wnd: EditWnd)
      ensures this.wnd == wnd && !viewMode && !debugMode && grepKey == []
    {
      this.wnd := wnd;
      viewMode, debugMode, grepKey := false, false, [];
    }

    /** Turns the debug monitor on for this window unless the shared handle names a
        live editor main window; then nothing changes. */
    method SetDebugModeON(shared: SharedHandles, isMainWindow: Handle -> bool)
      modifies this, shared
      ensures old(shared.hwndDebug) != Null && isMainWindow(old(shared.hwndDebug)) ==>
        unchanged(this) && unchanged(shared)
      ensures !(old(shared.hwndDebug) != Null && isMainWindow(old(shared.hwndDebug))) ==>
        shared.hwndDebug == wnd.hwnd && debugMode && !viewMode && grepKey == old(grepKey)
    {
      if shared.hwndDebug != Null {
        if isMainWindow(shared.hwndDebug) {
          return;
        }
      }
      shared.hwndDebug := wnd.hwnd;
      debugMode := true;
      viewMode := false;
    }

    /** Turns the debug monitor off, and frees the shared handle, only when this
        window owns it; otherwise nothing changes. */
    method SetDebugModeOFF(shared: SharedHandles)
      modifies this, shared
      ensures old(shared.hwndDebug) == wnd.hwnd ==> shared.hwndDebug == Null && !debugMode
      ensures viewMode == old(viewMode) && grepKey == old(grepKey)
      ensures old(shared.hwndDebug) != wnd.hwnd ==> unchanged(this) && unchanged(shared)
    {
      if shared.hwndDebug == wnd.hwnd {
        shared.hwndDebug := Null;
        debugMode := false;
      }
    }

    /** After saving: grep mode off, grep key empty, view mode off, and the debug
        monitor turned off when it was on. */
    method OnAfterSave(shared: SharedHandles)
      modifies this, wnd, shared
      ensures !wnd.grepMode && grepKey == [] && !viewMode
      ensures old(debugMode) && old(shared.hwndDebug) == wnd.hwnd ==> !debugMode && shared.hwndDebug == Null
      ensures old(debugMode) && old(shared.hwndDebug) != wnd.hwnd ==> debugMode && shared.hwndDebug == old(shared.hwndDebug)
      ensures !old(debugMode) ==> !debugMode && shared.hwndDebug == old(shared.hwndDebug)
      ensures old(OwnsDebug(shared)) ==> !debugMode
    {
      wnd.grepMode := false;
      grepKey := [];
      viewMode := false;
      if debugMode {
        SetDebugModeOFF(shared);
      }
    }
  }

  /** Turning debug mode on makes this window the owner of the shared handle. */
  method DebugOnOwns(app: AppMode, shared: SharedHandles, isMainWindow: Handle -> bool)
    requires app.OwnsDebug(shared)
    modifies app, shared
    ensures app.OwnsDebug(shared)
    ensures !(old(shared.hwndDebug) != Null && isMainWindow(old(shared.hwndDebug))) ==> app.debugMode
  {
    app.SetDebugModeON(shared, isMainWindow);
  }

  /** A live debug window keeps its claim: another window asking for debug mode
      changes nothing while the owner is a live main window. */
  method OtherWindowCannotSteal(owner: AppMode, other: AppMode, shared: SharedHandles, isMainWindow: Handle -> bool)
    requires owner != other && owner.wnd != other.wnd
    requires owner.debugMode && owner.OwnsDebug(shared)
    requires owner.wnd.hwnd != Null && isMainWindow(owner.wnd.hwnd)
    modifies other, shared
    ensures owner.OwnsDebug(shared) && !(other.debugMode && !old(other.debugMode))
  {
    other.SetDebugModeON(shared, isMainWindow);
  }
}
