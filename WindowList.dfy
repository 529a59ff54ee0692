/** The window-list dialog: a check-box list of the open editor windows, the
    "save" and "close" buttons that message every checked window, and the dialog
    rectangle kept in the shared settings between two showings. */
module WindowList {
  import opened Common

  /** Activation codes carried in the low word of WM_ACTIVATE's wParam. */
  const WA_INACTIVE := 0
  const WA_ACTIVE := 1
  const WA_CLICKACTIVE := 2

  /** A rectangle as stored in the shared settings. */
  datatype Rect = Rect(left: int, top: int, right: int, bottom: int)

  /** The dialog's position and size. */
  datatype Placement = Placement(x: int, y: int, width: int, height: int)

  /** A point (POINT). */
  datatype Point = Point(x: int, y: int)

  /** The window-size limits of WM_GETMINMAXINFO. */
  datatype MinMaxInfo = MinMaxInfo(maxSize: Point, maxPosition: Point, minTrackSize: Point, maxTrackSize: Point)

  /** One row of the list view: its check box, whether reading its item data
      succeeds, and the editor window stored as the item's parameter. */
  datatype ListItem = ListItem(checked: bool, readable: bool, hwnd: Handle)

  /** The message a button sends to each checked window. */
  datatype Command = FileSave | Close

  /** The buttons of the dialog; any other id goes to the base dialog. */
  datatype Button = ButtonHelp | ButtonSave | ButtonClose | IdOk | IdCancel | OtherButton(id: int)

  /** The windows of the checked rows whose item data can be read, in list order. */
  function Selected(items: seq<ListItem>): seq<Handle>
  {
    if items == [] then []
    else Selected(items[..|items| - 1]) + (if items[|items| - 1].checked && items[|items| - 1].readable then [items[|items| - 1].hwnd] else [])
  }

  /** Every selected window comes from a checked, readable row; every checked,
      readable row contributes its window; at most one window per row. */
  lemma {:induction false} SelectedSpec(items: seq<ListItem>)
    ensures |Selected(items)| <= |items|
    ensures forall h :: h in Selected(items) <==> exists i :: 0 <= i < |items| && items[i].checked && items[i].readable && items[i].hwnd == h
  {
    if items != [] {
      var init := items[..|items| - 1];
      SelectedSpec(init);
      forall h | h in Selected(items)
        ensures exists i :: 0 <= i < |items| && items[i].checked && items[i].readable && items[i].hwnd == h
      {
        if h in Selected(init) {
          var i :| 0 <= i < |init| && init[i].checked && init[i].readable && init[i].hwnd == h;
          assert items[i] == init[i];
        } else {
          assert items[|items| - 1].hwnd == h;
        }
      }
      forall h | exists i :: 0 <= i < |items| && items[i].checked && items[i].readable && items[i].hwnd == h
        ensures h in Selected(items)
      {
        var i :| 0 <= i < |items| && items[i].checked && items[i].readable && items[i].hwnd == h;
        if i < |init| {
          assert init[i] == items[i];
        }
      }
    }
  }

  /** With no row checked nothing is selected. */
  lemma {:induction false} NoneCheckedNoneSelected(items: seq<ListItem>)
    requires forall i :: 0 <= i < |items| ==> !items[i].checked
    ensures Selected(items) == []
  {
    if items != [] {
      NoneCheckedNoneSelected(items[..|items| - 1]);
    }
  }

  /** The rows the list is refilled with: one unchecked row per open window. */
  function Rows(windows: seq<Handle>): (items: seq<ListItem>)
    ensures |items| == |windows|
    ensures forall i :: 0 <= i < |items| ==> items[i] == ListItem(false, true, windows[i])
  {
    seq(|windows|, i requires 0 <= i < |windows| => ListItem(false, true, windows[i]))
  }

  /** Refilling the list leaves nothing checked. */
  lemma RefilledNothingSelected(windows: seq<Handle>)
    ensures Selected(Rows(windows)) == []
  {
    NoneCheckedNoneSelected(Rows(windows));
  }

  /** The rectangle stored when the dialog is destroyed. */
  function Store(p: Placement): (rc: Rect)
    ensures rc.left == p.x && rc.top == p.y
    ensures rc.right - rc.left == p.width && rc.bottom - rc.top == p.height
  {
    Rect(p.x, p.y, p.x + p.width, p.y + p.height)
  }

  /** The placement used when the dialog opens: the stored rectangle unless both its
      left and bottom are 0, which stands for "nothing stored". */
  function Restore(rc: Rect, current: Placement): (p: Placement)
    ensures rc.left != 0 || rc.bottom != 0 ==> Store(p) == rc
    ensures rc.left == 0 && rc.bottom == 0 ==> p == current
  {
    if rc.left != 0 || rc.bottom != 0 then
      Placement(rc.left, rc.top, rc.right - rc.left, rc.bottom - rc.top)
    else current
  }

  /** Storing and restoring gives the placement back exactly when its left edge or
      its bottom edge is not 0; otherwise the dialog keeps its default placement. */
  lemma StoreRestoreRoundTrip(p: Placement, current: Placement)
    ensures p.x != 0 || p.y + p.height != 0 ==> Restore(Store(p), current) == p
    ensures p.x == 0 && p.y + p.height == 0 ==> Restore(Store(p), current) == current
  {
  }

  /** The part of the shared settings that holds the dialog rectangle. */
  class SharedOthers {
    var rcWindowListDialog: Rect

    constructor ()
      ensures rcWindowListDialog == Rect(0, 0, 0, 0)
    {
      rcWindowListDialog := Rect(0, 0, 0, 0);
    }
  }

  class DlgWindowList {
    /** The dialog's placement and its size as designed. */
    var placement: Placement
    const defaultSize: Point
    /** The rows of the list view. */
    var items: seq<ListItem>
    /** Messages sent to editor windows, oldest first. */
    var sent: seq<(Handle, Command)>
    /** The value the dialog was ended with, once ended. */
    var endResult: Option<bool>
    /** Whether the help topic was opened. */
    var helpShown: bool

    constructor (defaultSize: Point, placement: Placement)
      ensures this.defaultSize == defaultSize && this.placement == placement
      ensures items == [] && sent == [] && endResult == None && !helpShown
    {
      this.defaultSize := defaultSize;
      this.placement := placement;
      items, sent, endResult, helpShown := [], [], None, false;
    }

    /** Lists the windows of the checked rows whose data can be read, in list
        order. */
    method GetDataListView() returns (list: seq<Handle>)
      ensures list == Selected(items)
    {
      list := [];
      var i := 0;
      while i < |items|
        invariant 0 <= i <= |items|
        invariant list == Selected(items[..i])
      {
        assert items[..i + 1][..i] == items[..i];
        if items[i].checked && items[i].readable {
          list := list + [items[i].hwnd];
        }
        i := i + 1;
      }
      assert items[..i] == items;
    }

    /** Refills the list with one unchecked row per open window. */
    method SetData(windows: seq<Handle>)
      modifies this
      ensures items == Rows(windows)
      ensures placement == old(placement) && sent == old(sent) && endResult == old(endResult) && helpShown == old(helpShown)
    {
      items := Rows(windows);
    }

    /** Sends `cmd` to each window of `list` in order. */
    method SendAll(list: seq<Handle>, cmd: Command)
      modifies this
      ensures sent == old(sent) + seq(|list|, i requires 0 <= i < |list| => (list[i], cmd))
      ensures items == old(items) && placement == old(placement) && endResult == old(endResult) && helpShown == old(helpShown)
    {
      var i := 0;
      while i < |list|
        invariant 0 <= i <= |list|
        invariant sent == old(sent) + seq(i, k requires 0 <= k < i => (list[k], cmd))
        invariant items == old(items) && placement == old(placement) && endResult == old(endResult) && helpShown == old(helpShown)
      {
        sent := sent + [(list[i], cmd)];
        i := i + 1;
      }
    }

    /** The "save" button: asks every selected window to save, then refills the
        list from the windows open afterwards. */
    method CommandSave(windowsAfter: seq<Handle>)
      modifies this
      ensures sent == old(sent) + seq(|Selected(old(items))|, i requires 0 <= i < |Selected(old(items))| => (Selected(old(items))[i], FileSave))
      ensures items == Rows(windowsAfter)
      ensures placement == old(placement) && endResult == old(endResult) && helpShown == old(helpShown)
    {
      var list := GetDataListView();
      SendAll(list, FileSave);
      SetData(windowsAfter);
    }

    /** The "close" button: asks every selected window to close, then refills the
        list from the windows still open. */
    method CommandClose(windowsAfter: seq<Handle>)
      modifies this
      ensures sent == old(sent) + seq(|Selected(old(items))|, i requires 0 <= i < |Selected(old(items))| => (Selected(old(items))[i], Close))
      ensures items == Rows(windowsAfter)
      ensures placement == old(placement) && endResult == old(endResult) && helpShown == old(helpShown)
    {
      var list := GetDataListView();
      SendAll(list, Close);
      SetData(windowsAfter);
    }

    /** A button click.  OK and Cancel end the dialog with true and false; help,
        save and close do their work; each of these is handled.  Any other button
        goes to the base dialog, whose answer is `baseResult`. */
    method OnBnClicked(id: Button, windowsAfter: seq<Handle>, baseResult: bool) returns (handled: bool)
      modifies this
      ensures id.OtherButton? ==> handled == baseResult && unchanged(this)
      ensures !id.OtherButton? ==> handled
      ensures id == IdOk ==> endResult == Some(true) && items == old(items) && sent == old(sent)
      ensures id == IdCancel ==> endResult == Some(false) && items == old(items) && sent == old(sent)
      ensures id == ButtonHelp ==> helpShown && items == old(items) && sent == old(sent) && endResult == old(endResult)
      ensures id == ButtonSave || id == ButtonClose ==> items == Rows(windowsAfter) && endResult == old(endResult)
      ensures id == ButtonSave ==> sent == old(sent) + seq(|Selected(old(items))|, i requires 0 <= i < |Selected(old(items))| => (Selected(old(items))[i], FileSave))
      ensures id == ButtonClose ==> sent == old(sent) + seq(|Selected(old(items))|, i requires 0 <= i < |Selected(old(items))| => (Selected(old(items))[i], Close))
      ensures placement == old(placement)
    {
      match id {
        case ButtonHelp =>
          helpShown := true;
          return true;
        case ButtonSave =>
          CommandSave(windowsAfter);
          return true;
        case ButtonClose =>
          CommandClose(windowsAfter);
          return true;
        case IdOk =>
          endResult := Some(true);
          return true;
        case IdCancel =>
          endResult := Some(false);
          return true;
        case OtherButton(_) =>
          return baseResult;
      }
    }

    /** Opening the dialog takes the stored rectangle as its placement unless
        nothing was stored. */
    method OnInitDialog(shared: SharedOthers)
      modifies this
      ensures placement == Restore(shared.rcWindowListDialog, old(placement))
      ensures items == old(items) && sent == old(sent) && endResult == old(endResult) && helpShown == old(helpShown)
    {
      var rc := shared.rcWindowListDialog;
      if rc.left != 0 || rc.bottom != 0 {
        placement := Placement(rc.left, rc.top, rc.right - rc.left, rc.bottom - rc.top);
      }
    }

    /** Closing the dialog stores its placement as a rectangle. */
    method OnDestroy(shared: SharedOthers)
      modifies shared
      ensures shared.rcWindowListDialog == Store(placement)
    {
      var left := placement.x;
      var top := placement.y;
      shared.rcWindowListDialog := Rect(left, top, left + placement.width, top + placement.height);
    }

    /** The tracking limits: at least the designed size and at most three times it;
        the other limits are left as given. */
    function OnGetMinMaxInfo(info: MinMaxInfo): (r: MinMaxInfo)
      reads this
      ensures r.minTrackSize == defaultSize
      ensures r.maxTrackSize.x == 3 * r.minTrackSize.x && r.maxTrackSize.y == 3 * r.minTrackSize.y
      ensures r.maxSize == info.maxSize && r.maxPosition == info.maxPosition
    {
      info.(minTrackSize := Point(defaultSize.x, defaultSize.y),
            maxTrackSize := Point(defaultSize.x * 3, defaultSize.y * 3))
    }

    /** Activation by keyboard or mouse refills the list and is handled; any other
        activation code goes to the base dialog, whose answer is `baseResult`. */
    method OnActivate(wParam: int, windowsNow: seq<Handle>, baseResult: bool) returns (handled: bool)
      modifies this
      ensures LoWord(wParam) == WA_ACTIVE || LoWord(wParam) == WA_CLICKACTIVE ==> handled && items == Rows(windowsNow)
      ensures LoWord(wParam) != WA_ACTIVE && LoWord(wParam) != WA_CLICKACTIVE ==> handled == baseResult && items == old(items)
      ensures placement == old(placement) && sent == old(sent) && endResult == old(endResult) && helpShown == old(helpShown)
    {
      var code := LoWord(wParam);
      if code == WA_ACTIVE || code == WA_CLICKACTIVE {
        SetData(windowsNow);
        return true;
      }
      return baseResult;
    }
  }

  /** Closing the dialog and opening it again restores the placement it was closed
      with, unless that placement had left edge 0 and bottom edge 0. */
  method ReopenKeepsPlacement(dlg: DlgWindowList, next: DlgWindowList, shared: SharedOthers)
    requires dlg != next
    modifies shared, next
    ensures dlg.placement.x != 0 || dlg.placement.y + dlg.placement.height != 0 ==> next.placement == dlg.placement
    ensures dlg.placement.x == 0 && dlg.placement.y + dlg.placement.height == 0 ==> next.placement == old(next.placement)
  {
    dlg.OnDestroy(shared);
    next.OnInitDialog(shared);
    StoreRestoreRoundTrip(dlg.placement, old(next.placement));
  }
}
