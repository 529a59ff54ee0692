/** The tray icon's context menus as the functional tests see them: the position
    of a command in the menu that a left or right click opens. */
module TrayMenu {
  const WM_LBUTTONUP: int := 0x0202
  const WM_RBUTTONUP: int := 0x0205
  const INT_MAX: int := 0x7fff_ffff

  /** The editor commands that appear in the tray menus; any other command code
      is `OtherCommand`. */
  datatype FunctionCode =
    | FileNew | FileOpen | GrepDialog | FileUsedRecently | FolderUsedRecently
    | Favorite | FileSaveAll | ExitAllEditors | ExitAll
    | HelpContents | HelpSearch | TypeList | OptionDialog | About
    | OtherCommand(code: int)

  /** A menu position, or the error the lookup throws. */
  datatype MenuIndex = Index(i: int) | MessageError(message: string)

  /** The left-click menu, top to bottom. */
  function LeftItems(): (items: seq<FunctionCode>)
    ensures |items| == 9 && items[0] == FileNew && items[8] == ExitAll
  {
    [FileNew, FileOpen, GrepDialog, FileUsedRecently, FolderUsedRecently,
     Favorite, FileSaveAll, ExitAllEditors, ExitAll]
  }

  /** The right-click menu, top to bottom. */
  function RightItems(): (items: seq<FunctionCode>)
    ensures |items| == 6 && items[0] == HelpContents && items[5] == ExitAll
  {
    [HelpContents, HelpSearch, TypeList, OptionDialog, About, ExitAll]
  }

  /** The menu a mouse-button message opens: none for other messages. */
  function MenuItems(msg: int): seq<FunctionCode>
  {
    if msg == WM_RBUTTONUP then RightItems()
    else if msg == WM_LBUTTONUP then LeftItems()
    else []
  }

  /** `std::find` from position `k`: the first position holding `f`, or the end. */
  function Find(items: seq<FunctionCode>, f: FunctionCode, k: nat): (i: nat)
    requires k <= |items|
    ensures k <= i <= |items|
    ensures i < |items| ==> items[i] == f
    ensures forall j :: k <= j < i ==> items[j] != f
    decreases |items| - k
  {
    if k == |items| || items[k] == f then k else Find(items, f, k + 1)
  }

  /** The distance from the start to what `std::find` returns, or -1 when it
      returns the end. */
  function Position(items: seq<FunctionCode>, f: FunctionCode): (p: int)
    ensures -1 <= p < |items|
    ensures 0 <= p <==> f in items
    ensures 0 <= p ==> items[p] == f && f !in items[..p]
  {
    var it := Find(items, f, 0);
    if it != |items| then it else -1
  }

  /** The position of `f` in the menu message `msg` opens; an error when the
      message is neither button-up message or `f` is not in that menu. */
  function GetContextMenuIndex(msg: int, f: FunctionCode): (r: MenuIndex)
    ensures r.Index? <==> f in MenuItems(msg)
    ensures r.Index? ==> 0 <= r.i < |MenuItems(msg)| && MenuItems(msg)[r.i] == f
    ensures r.Index? ==> f !in MenuItems(msg)[..r.i]
    ensures r.MessageError? ==> r.message == "Invalid message type."
  {
    var index :=
      if msg == WM_RBUTTONUP then Position(RightItems(), f)
      else if msg == WM_LBUTTONUP then Position(LeftItems(), f)
      else -1;
    if index < 0 || INT_MAX < index then MessageError("Invalid message type.")
    else Index(index)
  }

  /** Any message other than the two button-up messages is refused, whatever the
      command. */
  lemma OtherMessageRefused(msg: int, f: FunctionCode)
    requires msg != WM_LBUTTONUP && msg != WM_RBUTTONUP
    ensures GetContextMenuIndex(msg, f).MessageError?
  {
  }

  /** No command appears twice in either menu. */
  lemma MenusDistinct(msg: int, j: nat, k: nat)
    requires j < k < |MenuItems(msg)|
    ensures MenuItems(msg)[j] != MenuItems(msg)[k]
  {
  }

  /** Each entry's position is found again from its command: the lookup inverts
      indexing into either menu. */
  lemma {:induction false} IndexOfEntry(msg: int, i: nat)
    requires i < |MenuItems(msg)|
    ensures GetContextMenuIndex(msg, MenuItems(msg)[i]) == Index(i)
  {
    var items := MenuItems(msg);
    var r := GetContextMenuIndex(msg, items[i]);
    assert items[i] in items;
    if r.i < i {
      MenusDistinct(msg, r.i, i);
    }
  }

  /** "Exit all" is the last entry of both menus. */
  lemma ExitAllIsLast()
    ensures GetContextMenuIndex(WM_LBUTTONUP, ExitAll) == Index(8)
    ensures GetContextMenuIndex(WM_RBUTTONUP, ExitAll) == Index(5)
  {
    IndexOfEntry(WM_LBUTTONUP, 8);
    IndexOfEntry(WM_RBUTTONUP, 5);
  }

  /** A command in neither menu is refused for both buttons. */
  lemma OtherCommandRefused(msg: int, code: int)
    ensures GetContextMenuIndex(msg, OtherCommand(code)).MessageError?
  {
    assert OtherCommand(code) !in MenuItems(msg);
  }
}
