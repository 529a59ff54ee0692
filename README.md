# sakura editor core, modelled in Dafny

This project models the self-contained logic inside the sakura text editor's
Windows front end and proves properties of it. The logic sits among Win32, COM
and dialog plumbing, and the model covers:

- the splitter window that divides an editor window into up to four panes (rows
  and columns, split positions, the active pane, dragging a split bar, the pane
  order used by "next pane" and "previous pane");
- the subject/listener registry, which keeps each listener in exactly one
  subject's list;
- the language-resource selection: the list of message-resource libraries and
  the selected one;
- string-resource loading with its growing buffer and its five-slot ring of
  temporary buffers;
- the process helpers:
  - the command line built to start a new editor process;
  - the name of its start-up event;
  - the settings file name;
  - the order of `Run`;
- in the normal (editor) process:
  - opening the extra files given on the command line;
  - merging grep options from the command line into the grep dialog;
- the window-list dialog: its checked rows, its stored placement, and its
  save/close buttons;
- the common-item file dialog:
  - its filter lists and option flags;
  - its custom controls (read-only box, code-page combo, recent-files combo,
    recent-folders combo);
  - writing the choices back on success;
- the application modes: view mode, grep mode, and the debug monitor, whose
  owner is recorded in a handle shared by all editor processes;
- clipboard format-name lookup and the bounded retry when opening the clipboard;
- the search-option value type and the lazily created system-library wrappers;
- the command-line result object: its numeric option reader and its accessors;
- the tray-icon context-menu index lookup used by the functional test harness.

Each source file is one module and one `.dfy` file:

| module | file | source |
|---|---|---|
| `Common` | Common.dfy | shared handles, options and word packing |
| `Splitter` | Splitter.dfy | window/CSplitterWnd.cpp, .h |
| `Relation` | Relation.dfy | util/relation_tool.cpp, .h |
| `SelectLang` | SelectLang.dfy | CSelectLang.cpp, .h |
| `Process` | Process.dfy | _main/CProcess.cpp |
| `NormalProcess` | NormalProcess.dfy | _main/CNormalProcess.cpp |
| `WindowList` | WindowList.dfy | dlg/CDlgWindowList.cpp |
| `OpenFileDialog` | OpenFileDialog.dfy | dlg/CDlgOpenFile_CommonItemDialog.cpp |
| `AppMode` | AppMode.dfy | _main/CAppMode.cpp |
| `Clipboard` | Clipboard.dfy | apiwrap/CClipboardApi.cpp |
| `Global` | Global.dfy | _main/global.cpp |
| `CmdLine` | CommandLine.dfy | _main/CCommandLine.h |
| `TrayMenu` | TrayMenu.dfy | tests/unittests/test-winmain.cpp |

Objects whose fields the source updates in place are classes:

- the splitter;
- subject and listener;
- the language environment and the string buffers;
- the dialogs;
- the application mode;
- the command line.

Pure computations are functions. Loops in the source are methods with loop
invariants, each proved against a specification function.

The following become parameters or function-valued oracles:

- operating-system results:
  - whether a window is a live editor window;
  - whether a file opens;
  - `LoadString`;
  - `RegisterClipboardFormatW`;
  - `LoadLibrary`;
  - memory allocation;
  - the client rectangle;
  - DPI scaling;
- user actions in the dialogs.

## Model

| member | source | states |
|---|---|---|
| Common.MakeLongRoundTrip | sakura_core/window/CSplitterWnd.cpp:709-742 | a point packed with MAKELONG and unpacked as two signed shorts gives both coordinates back whenever they fit in a short, as the double-click handler relies on when it forwards the point to the mouse-move handler |
| Common.ShortOf | sakura_core/window/CSplitterWnd.cpp:607-608 | the `(short)` cast maps a 16-bit word to the signed range and agrees with the word modulo 2^16 |
| Common.DirLength | sakura_core/_main/CProcess.cpp:237-244 | the directory part of a path ends at a separator and no separator follows it |
| Splitter.CheckMargin | sakura_core/window/CSplitterWnd.cpp:44-49 | a split position inside `[margin, max - 2*margin]` is kept unchanged; any other position becomes 0 |
| Splitter.CheckMarginIdempotent | sakura_core/window/CSplitterWnd.cpp:44-49 | normalising a position twice gives the same result as once |
| Splitter.PaneListSpec | sakura_core/window/CSplitterWnd.cpp:103-126 | the pane list holds exactly the panes visible in the layout (row index below the row count, column index below the column count), in strictly increasing order |
| Splitter.PaneListShapes | sakura_core/window/CSplitterWnd.cpp:103-126 | the layouts 1x1, 2x1, 1x2 and 2x2 have the panes [0], [0,2], [0,1] and [0,1,2,3] |
| Splitter.VisibleFromMembers | sakura_core/window/CSplitterWnd.cpp:103-126 | the panes listed from `p` on are exactly the visible panes not below `p` |
| Splitter.VisibleFromIncreasing | sakura_core/window/CSplitterWnd.cpp:103-126 | the panes listed from `p` on are strictly increasing |
| Splitter.NextPrevInverse | sakura_core/window/CSplitterWnd.cpp:462-551 | stepping forward from an entry of a list of distinct panes gives the entry after it, and stepping back gives the entry before it; past either end the result is -1 |
| Splitter.StepAbsent | sakura_core/window/CSplitterWnd.cpp:462-551 | from a pane not in the list both steps give -1 |
| Splitter.PrevAbsent | sakura_core/window/CSplitterWnd.cpp:462-505 | stepping back from the first pane, or from a pane not in the list, gives -1 |
| Splitter.PanesFollowPaneList | sakura_core/window/CSplitterWnd.cpp:462-551 | the next-pane and previous-pane queries are the neighbours of the active pane in the layout's pane list, -1 past either end and always -1 in the 1x1 layout |
| Splitter.ProjectPaneVisible | sakura_core/window/CSplitterWnd.cpp:283-362 | the pane re-activated after a split is visible in the new layout, and is the old active pane whenever that pane is still visible |
| Splitter.CountViewsPrefix | sakura_core/window/CSplitterWnd.h:49-50 | when the first `c` view slots are filled and the rest empty, the number of views is `c` |
| Splitter.Clamp | sakura_core/window/CSplitterWnd.cpp:622-641 | a drag position is kept inside the bounds, and a position already inside them is unchanged |
| Splitter.SplitterWnd.constructor | sakura_core/window/CSplitterWnd.h:49-60 | a fresh splitter has one view in slot 0, a view count of 1, one row and one column, both split positions 0, active pane 0, and no drag in progress |
| Splitter.SplitterWnd.GetActiveView | sakura_core/window/CSplitterWnd.h:65 | the active view is the view held in the active pane's slot |
| Splitter.SplitterWnd.GetView | sakura_core/window/CSplitterWnd.h:66 | the view returned for `n` is the view of pane `n` |
| Splitter.SplitterWnd.IsPaneEnabled | sakura_core/window/CSplitterWnd.h:67 | a pane is enabled exactly when its index is below the view count, that is, when its slot holds a view |
| Splitter.SplitterWnd.CountPanes | sakura_core/window/CSplitterWnd.h:68 | the pane count is the number of filled slots, between 1 and MAXCOUNTOFVIEW (4) |
| Splitter.SplitterWnd.CalcChildren | sakura_core/window/CSplitterWnd.cpp:103-126 | the child rectangles are listed for exactly the layout's pane list, starting with pane 0 |
| Splitter.SplitterWnd.HitTestSplitter | sakura_core/window/CSplitterWnd.cpp:212-247 | the hit code is in 0..3; it includes the horizontal bar (1) exactly when there are two rows and y lies strictly inside the bar widened by the margin; it includes the vertical bar (2) in the same way for columns and x; 3 means both |
| Splitter.SplitterWnd.GetFirstPane | sakura_core/window/CSplitterWnd.cpp:554-557 | the first pane is the head of the layout's pane list |
| Splitter.SplitterWnd.GetLastPane | sakura_core/window/CSplitterWnd.cpp:560-575 | the last pane is the last entry of the layout's pane list |
| Splitter.SplitterWnd.CreatePane | sakura_core/window/CSplitterWnd.cpp:128-138 | a view is created exactly when the pane is among the children and its slot is empty; only that slot changes, and the view count grows by one |
| Splitter.SplitterWnd.FillViews | sakura_core/window/CSplitterWnd.cpp:271-279 | after the fill loop all four slots hold their views and the view count is 4 |
| Splitter.SplitterWnd.CreatePanes | sakura_core/window/CSplitterWnd.cpp:128-138 | once all slots are filled, creating the children's panes changes no slot |
| Splitter.SplitterWnd.SetSplitPositions | sakura_core/window/CSplitterWnd.cpp:253-266 | a position of -1 keeps the current position; both positions are then normalised by the margin check |
| Splitter.SplitterWnd.ApplyLayout | sakura_core/window/CSplitterWnd.cpp:283-362 | there are two rows exactly when the vertical position is not 0, and two columns exactly when the horizontal position is not 0; the pane made active is visible in that layout |
| Splitter.SplitterWnd.DoSplit | sakura_core/window/CSplitterWnd.cpp:253-363 | after a split the positions are the normalised targets, all four slots hold views, and the pane notified as active is the old active pane projected into the new layout (0 with no split; 0 or 2, or 0 or 1, with one split; unchanged with both) |
| Splitter.SplitterWnd.SetActivePane | sakura_core/window/CSplitterWnd.cpp:386-391 | the active pane becomes the given pane |
| Splitter.SplitterWnd.VSplitOnOff | sakura_core/window/CSplitterWnd.cpp:394-411 | the horizontal position is kept; the vertical split is removed when present, and otherwise placed at half the client height; afterwards all four slots hold views, the pane notified is the active pane projected into the new layout, and only the split fields and slots may change |
| Splitter.SplitterWnd.HSplitOnOff | sakura_core/window/CSplitterWnd.cpp:414-431 | the vertical position is kept; the horizontal split is removed when present, and otherwise placed at half the client width; afterwards all four slots hold views, the pane notified is the active pane projected into the new layout, and only the split fields and slots may change |
| Splitter.SplitterWnd.VHSplitOnOff | sakura_core/window/CSplitterWnd.cpp:434-459 | both splits are removed when both exist; otherwise each missing split is placed at half the client size; afterwards all four slots hold views, the pane notified is the active pane projected into the new layout, and only the split fields and slots may change |
| Splitter.SplitterWnd.DrawSplitter | sakura_core/window/CSplitterWnd.cpp:155-209 | the drag position becomes the drawn position |
| Splitter.SplitterWnd.OnMouseMove | sakura_core/window/CSplitterWnd.cpp:600-643 | without a drag the drag position is unchanged; while dragging it follows the pointer, clamped to `[DpiScaleX(1), right - DpiScaleX(6)]` |
| Splitter.SplitterWnd.OnLButtonDown | sakura_core/window/CSplitterWnd.cpp:646-666 | a nonzero hit starts a drag with the hit code as the drag state, and a zero hit leaves the drag state as it was; the tracker is drawn at the pointer position |
| Splitter.SplitterWnd.OnLButtonUp | sakura_core/window/CSplitterWnd.cpp:669-706 | the drag state is reset and the drag position kept. Without a drag, nothing else changes. After a drag, the window is re-split, changing only the dragged bar or bars; all four slots hold views, and the projected active pane is notified |
| Splitter.SplitterWnd.OnLButtonDblClk | sakura_core/window/CSplitterWnd.cpp:709-742 | a double click on hit 1, 2 or 3 removes the horizontal bar, the vertical bar or both, and fills all four slots; elsewhere no split field or slot changes. The drag state is unchanged. The cursor and drag position are then those of a mouse move to the same point: the cursor follows the hit code in the new layout |
| Splitter.SplitterWnd.DispatchEvent_WM_APP | sakura_core/window/CSplitterWnd.cpp:745-769 | the split message splits at the given positions, keeping the active pane and filling all four slots; the active-pane message sets only the active pane; any other message leaves the splitter and its slots unchanged |
| Relation.RemoveFirstAt | sakura_core/util/relation_tool.cpp:55-62 | removing a listener found at index `i`, with no earlier occurrence, deletes exactly that entry |
| Relation.RemoveFirstAbsent | sakura_core/util/relation_tool.cpp:55-62 | removing an absent listener changes nothing |
| Relation.RemoveFirstNoDup | sakura_core/util/relation_tool.cpp:55-62 | removal keeps a list free of duplicates, and the result holds every other listener and not the removed one |
| Relation.NoDupCard | sakura_core/util/relation_tool.h:47 | for a list without duplicates, the length is the number of distinct listeners |
| Relation.AppendNoDup | sakura_core/util/relation_tool.cpp:52 | appending a listener not yet present keeps the list free of duplicates |
| Relation.Subject.constructor | sakura_core/util/relation_tool.h:41 | a new subject has no listeners |
| Relation.Subject.GetListenerCount | sakura_core/util/relation_tool.h:47 | the count is the length of the listener list |
| Relation.Subject.GetListener | sakura_core/util/relation_tool.h:54 | the listener returned for index i is the i-th entry of the list |
| Relation.ListenerCountDistinct | sakura_core/util/relation_tool.h:47 | for a duplicate-free list the count is the number of distinct listeners watching the subject |
| Relation.ListenerAtOneIndex | sakura_core/util/relation_tool.h:92-97 | in a duplicate-free list the listener returned for index i occurs at index i only |
| Relation.Subject.AddListener | sakura_core/util/relation_tool.cpp:41-53 | a listener already present leaves the list unchanged; a new listener is appended at the end, keeping the others in order |
| Relation.Subject.RemoveListener | sakura_core/util/relation_tool.cpp:55-62 | the first matching entry is removed and nothing else changes |
| Relation.Subject.Destroy | sakura_core/util/relation_tool.cpp:32-39 | after destruction the listener list is empty |
| Relation.Listener.constructor | sakura_core/util/relation_tool.h:89 | a new listener watches no subject |
| Relation.Listener.Release | sakura_core/util/relation_tool.h:60-71 | the releaser removes its bound listener from the subject |
| Relation.Listener.Listen | sakura_core/util/relation_tool.cpp:68-82 | returns the subject watched before; the listener leaves the old subject's list and joins the new one's; the new subject is recorded; the registry invariant is kept: every listener is in exactly its own subject's list, once, and in no other |
| SelectLang.NewLangDll | sakura_core/CSelectLang.h:34-39 | a language entry stores its path, name and id, and holds no module handle |
| SelectLang.Truncate | sakura_core/CSelectLang.h:21 | a language name read into a MAX_SELLANG_NAME_STR buffer is a prefix of the resource text, at most that long, and the whole text when it fits |
| SelectLang.Registered | sakura_core/CSelectLang.cpp:117-142 | the enumerated libraries add at most one entry each, none of them holding a module handle |
| SelectLang.RegisteredAccepted | sakura_core/CSelectLang.cpp:117-142 | every registered entry has a non-empty name and a nonzero id, and comes from an enumerated file that is not a directory |
| SelectLang.RegisteredAppend | sakura_core/CSelectLang.cpp:117-142 | registering two batches of files one after the other is registering them together |
| SelectLang.AsWrittenStuck | sakura_core/CSelectLang.cpp:119-137 | as written, once a skipped file is reached the enumeration never advances past it: any number of further steps leaves the state unchanged and still running |
| SelectLang.AsWrittenStuckOnDirectory | sakura_core/CSelectLang.cpp:119-121 | with a single directory named like a language library, the enumeration as written runs forever without registering anything |
| SelectLang.DefaultEntry | sakura_core/CSelectLang.cpp:80-96 | the default entry uses the application instance, the application's language id, and its language name read into the name buffer |
| SelectLang.FindPath | sakura_core/CSelectLang.cpp:150-158 | the first entry with the given path, or none when no entry has it |
| SelectLang.LangEnvironment.constructor | sakura_core/CSelectLang.h:52-53 | the environment starts with an empty list and index 0 selected |
| SelectLang.LangEnvironment.GetLangRsrcInstance | sakura_core/CSelectLang.cpp:38-41 | the resource handle is the application instance when the list is empty, and otherwise the selected entry's handle |
| SelectLang.LangEnvironment.GetDefaultLangString | sakura_core/CSelectLang.cpp:52-55 | the default language name is entry 0's name |
| SelectLang.LangEnvironment.GetDefaultLangId | sakura_core/CSelectLang.cpp:58-64 | the default id is the user default when the list is empty, and otherwise entry 0's id |
| SelectLang.LangEnvironment.UninitializeLanguageEnvironment | sakura_core/CSelectLang.cpp:24-27 | the list becomes empty |
| SelectLang.LangEnvironment.RegisterLanguages | sakura_core/CSelectLang.cpp:117-142 | the enumeration loop appends the accepted libraries in order, advancing to the next file on every path |
| SelectLang.LangEnvironment.InitializeLanguageEnvironment | sakura_core/CSelectLang.cpp:78-148 | the corrected initialisation of the :80-96 finding: entry 0 is created once, holding the name read from the executable, so the default language string is that name; a longer list is cut back to entry 0; the libraries are then registered, index 0 is selected, and the application instance is returned; the handle invariant holds |
| SelectLang.LangEnvironment.InitializeLanguageEnvironmentAsWritten | sakura_core/CSelectLang.cpp:80-96 | the default entry as written, which has no name, so the default language string is empty afterwards; the libraries are registered by the corrected enumeration loop |
| SelectLang.LangEnvironment.ChangeLang | sakura_core/CSelectLang.cpp:160-185 | an index out of range or already selected changes nothing and returns the current handle; otherwise the new entry is loaded unless it is entry 0, the old entry is released unless it is entry 0, and the index is selected; only entry 0 and the selected entry hold handles |
| SelectLang.LangEnvironment.ChangeLangByPath | sakura_core/CSelectLang.cpp:150-158 | changes to the first entry with the given path, exactly as changing to that index does: the entry is loaded (the executable itself for entry 0), selected and its language becomes the thread language, and no other entry changes; when it is already selected, or no entry has the path, the list, the selection and the thread language are unchanged |
| SelectLang.CString | sakura_core/CSelectLang.cpp:280 | the string in a buffer ends at its first terminator |
| SelectLang.CopyResource | sakura_core/CSelectLang.cpp:280 | the system `LoadString` copies as much of the text as fits before a terminator, and returns that length |
| SelectLang.StrLen | sakura_core/CSelectLang.cpp:313 | `wcslen` stops at the first terminator |
| SelectLang.LoadStrBuffer.constructor | sakura_core/CSelectLang.h:88-94 | a new buffer uses its inline LOADSTR_ADD_SIZE (256) array, with length 0 and an empty string |
| SelectLang.LoadStrBuffer.Destroy | sakura_core/CSelectLang.h:96-102 | the buffer is freed exactly when it is a heap buffer, never the inline array |
| SelectLang.LoadStrBuffer.LoadGrowing | sakura_core/CSelectLang.cpp:279-319 | the text is read again into a buffer LOADSTR_ADD_SIZE larger while it does not fit; if allocation fails, the loop stops with the length of what the old buffer holds |
| SelectLang.LoadStrBuffer.LoadString | sakura_core/CSelectLang.cpp:260-324 | falls back from the language library to the application instance at most once; a string found in neither gives "" and 0; the stored length equals the result; the buffer holds a prefix of the resource text |
| SelectLang.TempBuffers.constructor | sakura_core/CSelectLang.h:121-122 | the ring of five buffers starts at index 0 with every buffer empty |
| SelectLang.TempBuffers.LoadStringSt | sakura_core/CSelectLang.cpp:206-214 | the ring index advances to `(index + 1) % 5` before loading; the result is that slot's string; the other four slots are untouched |
| SelectLang.TempBuffers.LoadRun | sakura_core/CSelectLang.h:151 | after a run of `LS` calls, each of the last five strings returned is still in the buffer it was loaded into, so a string stays intact through the next four `LS` calls; the ring advances once per call |
| SelectLang.TempBuffers.LoadNext | sakura_core/CSelectLang.h:151 | one `LS` call of a run keeps the run's four previous strings in their buffers and puts its own string in the next one |
| SelectLang.NextFourLoadsUseOtherBuffers | sakura_core/CSelectLang.h:151 | the ring index arithmetic: the four loads after load `k` use slots different from load `k`'s, and load `k + 5` uses the same slot |
| Process.FindFrom | sakura_core/_main/CProcess.cpp:88 | `find` returns the first position at which the pattern occurs, or none when it occurs nowhere |
| Process.FoundHasAll | sakura_core/_main/CProcess.cpp:88 | when the literal pattern is found, every one of its characters is in the string |
| Process.MissingCharNotFound | sakura_core/_main/CProcess.cpp:88 | a string lacking any one character of the pattern does not contain the pattern |
| Process.PiecesSnoc | sakura_core/_main/CProcess.cpp:124 | under either quoting, adding one more argument adds its piece at the end |
| Process.JoinArgsPieces | sakura_core/_main/CProcess.cpp:124 | under either quoting, folding CombineArg from the empty string over the arguments gives every argument's piece in order, each preceded by one space |
| Process.AsWrittenImpliesIntended | sakura_core/_main/CProcess.cpp:88 | every argument the code as written quotes would also be quoted under the intended test |
| Process.FoundSpecialContainsAny | sakura_core/_main/CProcess.cpp:88 | a string in which the whole sequence is found contains a special character |
| Process.PlainNotFound | sakura_core/_main/CProcess.cpp:88 | a string without any special character never matches the written test |
| Process.SpecialArgQuoted | sakura_core/_main/CProcess.cpp:85-92 | the corrected CombineArg of the :88 finding wraps every argument holding a special character in double quotes, unless the argument already ends with a quote |
| Process.AsWrittenLeavesSpaceUnquoted | sakura_core/_main/CProcess.cpp:88 | as written, the argument `a b` is passed unquoted, and so splits into two arguments |
| Process.AsWrittenArgUnquoted | sakura_core/_main/CProcess.cpp:88 | as written, an argument with a special character but without the whole seven-character sequence is not quoted |
| Process.SpecialExeQuoted | sakura_core/_main/CProcess.cpp:112-116 | the corrected exe test of the :112 finding quotes every executable path holding a special character |
| Process.AsWrittenExeUnquoted | sakura_core/_main/CProcess.cpp:112-116 | as written, an executable path containing a space but not the whole sequence is left unquoted, where the intended test quotes it |
| Process.AsWrittenProgramFilesUnquoted | sakura_core/_main/CProcess.cpp:112-116 | as written, `C:\Program Files\sakura\sakura.exe` stays unquoted; the intended test quotes it |
| Process.AsWrittenCommandStartsBare | sakura_core/_main/CProcess.cpp:109-124 | as written, a command line for such a path begins with the bare path, where the intended one begins with the quoted path |
| Process.Command | sakura_core/_main/CProcess.cpp:109-124 | under either quoting the command line starts with the executable path as that quoting leaves it and ends with the arguments' pieces |
| Process.PlainPiecesAgree | sakura_core/_main/CProcess.cpp:124 | for arguments without special characters both quotings give the same argument text |
| Process.CommandsAgreeWithoutSpecials | sakura_core/_main/CProcess.cpp:109-124 | the written and the intended command lines are the same string whenever neither the path nor any argument holds a special character |
| Process.CombineArgs | sakura_core/_main/CProcess.cpp:124 | the accumulation loop, folding the written CombineArg, produces the written pieces of all arguments in order |
| Process.BuildCommand | sakura_core/_main/CProcess.cpp:105-124 | the command line as the source builds it: the executable quoted by the written test, then ` -PROF="name"` exactly when a profile is given (even an empty one), then the arguments joined with the written CombineArg |
| Process.StartSakuraProcess | sakura_core/_main/CProcess.cpp:99-160 | the command line is the one the source builds, with the written quoting; pinning is prevented exactly when `-NOWIN` is an argument, which also selects the system directory and the control-process title; otherwise the window shows in its default state; a current directory that is not a directory is dropped |
| Process.HexValue | sakura_core/_main/CProcess.cpp:211 | a hexadecimal digit's value is below 16 |
| Process.HexRoundTrip | sakura_core/_main/CProcess.cpp:211 | reading back `k` zero-padded hex digits of `n`, for `n < 16^k`, gives `n` |
| Process.EventName | sakura_core/_main/CProcess.cpp:211 | the event name is `SakuraThread-0x` followed by exactly eight hex digits |
| Process.EventNameRoundTrip | sakura_core/_main/CProcess.cpp:211 | the thread id can be read back from the event name |
| Process.EventNameInjective | sakura_core/_main/CProcess.cpp:211 | different thread ids give different event names |
| Process.SetSyncEvent | sakura_core/_main/CProcess.cpp:208-216 | succeeds exactly when the thread's event exists and setting it succeeds |
| Process.StemLength | sakura_core/_main/CProcess.cpp:237-244 | a non-empty file name keeps a non-empty stem |
| Process.LastDotStem | sakura_core/_main/CProcess.cpp:237-244 | the stem ends before the last dot that is not the first character |
| Process.ReplaceExtension | sakura_core/_main/CProcess.cpp:237-244 | replacing the extension keeps the directory and ends with the new extension |
| Process.GetIniFileName | sakura_core/_main/CProcess.cpp:237-244 | with private settings the private file name is used; otherwise the executable's name with the extension `.ini` |
| Process.Run | sakura_core/_main/CProcess.cpp:274-283 | the main loop and the exit handler run, in that order, exactly when initialisation succeeds, and the result is that of initialisation |
| NormalProcess.EditInfo.constructor | sakura_core/_main/CNormalProcess.cpp:357-378 | the open-file record holds the given path |
| NormalProcess.RestInOrder | sakura_core/_main/CNormalProcess.cpp:364-377 | the files are attempted in list order, each attempted one preceded only by files that opened |
| NormalProcess.RestStopsAtFailure | sakura_core/_main/CNormalProcess.cpp:364-377 | the attempts stop at the first file that fails to open |
| NormalProcess.RestAllOpen | sakura_core/_main/CNormalProcess.cpp:364-377 | when every file opens, every file is attempted |
| NormalProcess.RestFromPrefix | sakura_core/_main/CNormalProcess.cpp:364-377 | once the first `i` files have opened, the attempts are those files followed by the attempts from `i` on |
| NormalProcess.OpenFiles | sakura_core/_main/CNormalProcess.cpp:357-378 | with no extra files nothing is opened and the result is false; otherwise the original file is opened first and then the listed files in order, stopping at the first failure, the record holds the last file attempted, and the result is true |
| NormalProcess.OpenEach | sakura_core/_main/CNormalProcess.cpp:364-377 | the loop attempts the listed files in order up to the first failure, and leaves the last attempted path in the record |
| NormalProcess.MergedPath | sakura_core/_main/CNormalProcess.cpp:413-425 | a usable command-line value wins; otherwise history entry 0 is used only outside dialog mode, with no value given and a non-empty history; otherwise the current value stays |
| NormalProcess.ApplyGrepOptions | sakura_core/_main/CNormalProcess.cpp:387-443 | without grep mode or the grep dialog nothing changes and the result is false; otherwise the key is copied only when usable, file and folder are merged, the flags agree in the shared settings and the dialog, and the dialog is requested when asked for or when text, file or folder is still empty |
| WindowList.SelectedSpec | sakura_core/dlg/CDlgWindowList.cpp:95-113 | the selected windows are exactly those of checked rows whose data can be read, at most one per row |
| WindowList.NoneCheckedNoneSelected | sakura_core/dlg/CDlgWindowList.cpp:95-113 | with no row checked nothing is selected |
| WindowList.Rows | sakura_core/dlg/CDlgWindowList.cpp:141-168 | the list is refilled with one unchecked row per open window, in order |
| WindowList.RefilledNothingSelected | sakura_core/dlg/CDlgWindowList.cpp:141-168 | a freshly refilled list selects nothing |
| WindowList.Store | sakura_core/dlg/CDlgWindowList.cpp:235-243 | the stored rectangle starts at the placement's corner and has its width and height |
| WindowList.Restore | sakura_core/dlg/CDlgWindowList.cpp:198-205 | a stored rectangle whose left or bottom is not 0 is restored exactly; otherwise the default placement is kept |
| WindowList.StoreRestoreRoundTrip | sakura_core/dlg/CDlgWindowList.cpp:198-243 | storing then restoring gives the placement back exactly when `x != 0 or y + h != 0`, and the default placement otherwise |
| WindowList.SharedOthers.constructor | sakura_core/dlg/CDlgWindowList.cpp:198-205 | the shared rectangle starts empty, which means nothing is stored |
| WindowList.DlgWindowList.constructor | sakura_core/dlg/CDlgWindowList.cpp:54 | a new dialog has no rows, has sent nothing and has not ended |
| WindowList.DlgWindowList.GetDataListView | sakura_core/dlg/CDlgWindowList.cpp:95-113 | lists the windows of the checked, readable rows in list order |
| WindowList.DlgWindowList.SetData | sakura_core/dlg/CDlgWindowList.cpp:141-168 | refills the rows from the open windows and changes nothing else |
| WindowList.DlgWindowList.SendAll | sakura_core/dlg/CDlgWindowList.cpp:115-139 | sends the command to each listed window once, in order |
| WindowList.DlgWindowList.CommandSave | sakura_core/dlg/CDlgWindowList.cpp:115-126 | asks each selected window to save, in order, then refills the list |
| WindowList.DlgWindowList.CommandClose | sakura_core/dlg/CDlgWindowList.cpp:128-139 | asks each selected window to close, in order, then refills the list |
| WindowList.DlgWindowList.OnBnClicked | sakura_core/dlg/CDlgWindowList.cpp:72-93 | OK ends the dialog with true and Cancel with false; help, save and close are handled; any other button goes to the base dialog and changes nothing here |
| WindowList.DlgWindowList.OnInitDialog | sakura_core/dlg/CDlgWindowList.cpp:189-233 | the placement is restored from the stored rectangle |
| WindowList.DlgWindowList.OnDestroy | sakura_core/dlg/CDlgWindowList.cpp:235-243 | the placement is stored as a rectangle |
| WindowList.DlgWindowList.OnGetMinMaxInfo | sakura_core/dlg/CDlgWindowList.cpp:268-276 | the minimum tracking size is the designed size and the maximum is exactly three times it; the other limits are kept |
| WindowList.DlgWindowList.OnActivate | sakura_core/dlg/CDlgWindowList.cpp:278-290 | activation by keyboard or mouse refills the list and is handled; any other activation goes to the base dialog |
| WindowList.ReopenKeepsPlacement | sakura_core/dlg/CDlgWindowList.cpp:198-243 | closing the dialog and opening it again restores the placement it had, provided its left edge is not 0 or its bottom edge is not 0; otherwise the new dialog keeps its default placement |
| OpenFileDialog.MacroFilters | sakura_core/dlg/CDlgOpenFile_CommonItemDialog.cpp:223-229 | the macro filter group has five entries |
| OpenFileDialog.OpenFileFiltersSpec | sakura_core/dlg/CDlgOpenFile_CommonItemDialog.cpp:209-239 | the open filters are the user wildcard first, then a text-file entry, the five macro entries or nothing, then `*.*` exactly when the wildcard is not `*.*` |
| OpenFileDialog.SaveFilters | sakura_core/dlg/CDlgOpenFile_CommonItemDialog.cpp:492-496 | the save filters are the wildcard, `*.txt` and `*.*` |
| OpenFileDialog.TypeFiltersAllReadable | sakura_core/dlg/CDlgOpenFile_CommonItemDialog.cpp:445-460 | when every type configuration is available, there is one filter per type, in type order, named after the type |
| OpenFileDialog.TypeFiltersBound | sakura_core/dlg/CDlgOpenFile_CommonItemDialog.cpp:445-460 | there are never more type filters than types |
| OpenFileDialog.OpenOptions | sakura_core/dlg/CDlgOpenFile_CommonItemDialog.cpp:373-380 | the options keep the dialog's own flags, always add NOCHANGEDIR, FORCEFILESYSTEM and FILEMUSTEXIST, add ALLOWMULTISELECT exactly when it is requested, and add nothing else |
| OpenFileDialog.ApplyUntouched | sakura_core/dlg/CDlgOpenFile_CommonItemDialog.cpp:578-652 | a choice whose control received no event keeps its value |
| OpenFileDialog.LastReadOnlyToggleWins | sakura_core/dlg/CDlgOpenFile_CommonItemDialog.cpp:628-652 | the view mode is the state of the last read-only toggle |
| OpenFileDialog.RemoveFilename | sakura_core/dlg/CDlgOpenFile_CommonItemDialog.cpp:612-619 | removing the file name keeps the directory part up to the last separator |
| OpenFileDialog.FileDialog.constructor | sakura_core/dlg/CDlgOpenFile_CommonItemDialog.cpp:356-372 | a new system dialog has the given options and no file types, name, folder or custom controls |
| OpenFileDialog.NumberedItems | sakura_core/dlg/CDlgOpenFile_CommonItemDialog.cpp:300-311 | combo items are registered with ids `i + 1` for list element `i` |
| OpenFileDialog.NumberedItemsSelect | sakura_core/dlg/CDlgOpenFile_CommonItemDialog.cpp:607-619 | the item with id `k` stands for list element `k - 1`, and for no other |
| OpenFileDialog.OpenFileDlg.constructor | sakura_core/dlg/CDlgOpenFile_CommonItemDialog.cpp:105-116 | the dialog starts with the wildcard `*.*`, no initial directory, no recent lists, no customisation, not in view mode, and UTF-8 with a BOM |
| OpenFileDialog.OpenFileDlg.Create | sakura_core/dlg/CDlgOpenFile_CommonItemDialog.cpp:175-203 | the default wildcard is replaced only when a user wildcard is given; the initial directory is the default path when one is given and the executable's directory otherwise; the recent lists are copied verbatim |
| OpenFileDialog.OpenFileDlg.Customize | sakura_core/dlg/CDlgOpenFile_CommonItemDialog.cpp:277-313 | the read-only box shows the view mode when enabled; the recent-file and recent-folder combos list their entries with ids `i + 1`; the options, file types, file name, folder, default extension, character-code items and selection and the code-page and BOM boxes are unchanged |
| OpenFileDialog.OpenFileDlg.AddComboCodePages | sakura_core/dlg/CDlgOpenFile_CommonItemDialog.cpp:654-679 | adds the code-page items and returns the requested code exactly when it is among them, and -1 otherwise |
| OpenFileDialog.OpenFileDlg.OnCheckButtonToggled | sakura_core/dlg/CDlgOpenFile_CommonItemDialog.cpp:628-652 | the read-only box sets the view mode and the BOM box sets the BOM; the code-page box fills the code combo; any other control returns E_NOTIMPL and changes nothing |
| OpenFileDialog.OpenFileDlg.OnItemSelected | sakura_core/dlg/CDlgOpenFile_CommonItemDialog.cpp:578-626 | selecting a code sets the code and the BOM box; a recent file or folder with id `k != 0` fills in list element `k - 1`; id 0 does nothing; other controls return E_NOTIMPL |
| OpenFileDialog.OpenFileDlg.Interact | sakura_core/dlg/CDlgOpenFile_CommonItemDialog.cpp:578-652 | the choices after the user's events are the events applied in order |
| OpenFileDialog.OpenFileDlg.OpenDlgImpl | sakura_core/dlg/CDlgOpenFile_CommonItemDialog.cpp:356-428 | the options and file types are set; the result is true exactly when files are chosen, and then lists them |
| OpenFileDialog.OpenFileDlg.BuildOpenFileFilters | sakura_core/dlg/CDlgOpenFile_CommonItemDialog.cpp:209-239 | builds the open-file filter list |
| OpenFileDialog.OpenFileDlg.GetOpenFileName | sakura_core/dlg/CDlgOpenFile_CommonItemDialog.cpp:205-248 | on success the caller's path becomes the first chosen file, and on failure it is untouched; single selection, no customisation |
| OpenFileDialog.OpenFileDlg.BuildOpenDlgFilters | sakura_core/dlg/CDlgOpenFile_CommonItemDialog.cpp:437-460 | builds `*.*`, `*.txt` and then the type filters |
| OpenFileDialog.OpenFileDlg.DoModalOpenDlg | sakura_core/dlg/CDlgOpenFile_CommonItemDialog.cpp:432-473 | multiple selection with the type filters; the character code and view mode are written back only on success |
| OpenFileDialog.OpenFileDlg.SaveDlgImpl | sakura_core/dlg/CDlgOpenFile_CommonItemDialog.cpp:475-517 | save filters with default extension `txt`; the chosen path on success, the given path otherwise |
| OpenFileDialog.OpenFileDlg.DoModalSaveDlg | sakura_core/dlg/CDlgOpenFile_CommonItemDialog.cpp:538-576 | failure clears the file path; simple mode disables customisation and changes no choice; otherwise success copies the character code back, and the line ending and BOM only when their controls are in use |
| OpenFileDialog.LoadInfo.constructor | sakura_core/dlg/CDlgOpenFile_CommonItemDialog.cpp:432-473 | the load record holds the given path, code and view mode |
| OpenFileDialog.SaveInfo.constructor | sakura_core/dlg/CDlgOpenFile_CommonItemDialog.cpp:538-576 | the save record holds the given path, code, line ending and BOM |
| AppMode.OnBeforeClose | sakura_core/_main/CAppMode.cpp:22-35 | closing is interrupted exactly when a grep is running |
| AppMode.SharedHandles.constructor | sakura_core/_main/CAppMode.cpp:51-63 | no window owns the debug monitor at first |
| AppMode.EditWnd.constructor | sakura_core/_main/CAppMode.cpp:37-42 | a new editor window is not in grep mode |
| AppMode.AppMode.constructor | sakura_core/_main/CAppMode.h:36-39 | view mode and debug mode start off, with an empty grep key |
| AppMode.AppMode.SetDebugModeON | sakura_core/_main/CAppMode.cpp:51-63 | when the shared handle names a live editor window nothing changes; otherwise this window claims the handle, debug mode is turned on and view mode off |
| AppMode.AppMode.SetDebugModeOFF | sakura_core/_main/CAppMode.cpp:67-75 | only the owner clears the shared handle and its debug flag; for any other window nothing changes |
| AppMode.AppMode.OnAfterSave | sakura_core/_main/CAppMode.cpp:37-48 | grep mode is cleared, the grep key emptied and view mode turned off; debug mode is turned off when it was on and owned, and stays on, with the shared handle unchanged, when it was on but another window owns the handle |
| AppMode.DebugOnOwns | sakura_core/_main/CAppMode.cpp:51-63 | turning debug mode on keeps the ownership invariant: a window in debug mode owns the shared handle |
| AppMode.OtherWindowCannotSteal | sakura_core/_main/CAppMode.cpp:51-63 | while the owner is a live editor window, another window asking for debug mode gets nothing and the owner keeps the handle |
| Clipboard.GetClipboardFormat | sakura_core/apiwrap/CClipboardApi.cpp:31-60 | the empty name gives CF_INVALID without registering anything; a name that matches a predefined entry gets the number of a matching entry; any other name gets the number the system registers for it (matching is equality ignoring case, see the three lemmas below) |
| Clipboard.Predefined | sakura_core/apiwrap/CClipboardApi.cpp:39-57 | the lookup table has the 17 predefined formats |
| Clipboard.Lower | sakura_core/apiwrap/CClipboardApi.cpp:39-57 | the comparison lower-cases only ASCII capitals |
| Clipboard.MatchIsWholeName | sakura_core/apiwrap/CClipboardApi.cpp:39-57 | comparing one character beyond the format name takes in the terminator, so a name matches exactly when it equals the format name ignoring case; prefixes and extensions do not match |
| Clipboard.LookupFrom | sakura_core/apiwrap/CClipboardApi.cpp:39-57 | the first table entry that matches, or none when none does |
| Clipboard.PredefinedPlain | sakura_core/apiwrap/CClipboardApi.cpp:39-57 | the predefined names are upper-case identifiers |
| Clipboard.PredefinedDistinct | sakura_core/apiwrap/CClipboardApi.cpp:39-57 | the predefined names are pairwise different |
| Clipboard.PlainEqualIgnoringCase | sakura_core/apiwrap/CClipboardApi.cpp:39-57 | two upper-case names equal to the same name ignoring case are the same name |
| Clipboard.PredefinedWellFormed | sakura_core/apiwrap/CClipboardApi.cpp:39-57 | the table is well formed |
| Clipboard.MatchesIff | sakura_core/apiwrap/CClipboardApi.cpp:39-57 | a name matches an entry exactly when it equals the entry's name ignoring case |
| Clipboard.TableLookup | sakura_core/apiwrap/CClipboardApi.cpp:39-57 | a name equal to entry `j` ignoring case finds exactly entry `j` |
| Clipboard.PredefinedNameGetsItsNumber | sakura_core/apiwrap/CClipboardApi.cpp:39-57 | a predefined name in any letter case gives that format's number |
| Clipboard.OtherNameIsRegistered | sakura_core/apiwrap/CClipboardApi.cpp:59 | any other non-empty name gives the number the system registers for it |
| Clipboard.OpenClipboard | sakura_core/apiwrap/CClipboardApi.cpp:69-82 | at most `retryCount + 1` attempts, none for a negative count; the result is true at the first success; every failed attempt yields the processor once |
| Clipboard.OpenClipboardSucceedsIff | sakura_core/apiwrap/CClipboardApi.cpp:69-82 | the clipboard is opened exactly when one of the allowed attempts would succeed |
| Global.SearchOption.Equals | sakura_core/_main/global.cpp:103-109 | two options are equal exactly when all three flags agree |
| Global.SearchOption.NotEquals | sakura_core/_main/global.cpp:118-121 | `!=` is the negation of `==`: some flag differs |
| Global.SearchOption.Reset | sakura_core/_main/global.cpp:89-94 | resetting turns every flag off, giving the default option |
| Global.DefaultSearchOption | sakura_core/_main/global.cpp:69-72 | the default option has all three flags off |
| Global.EqualsReflexive | sakura_core/_main/global.cpp:103-121 | `==` is reflexive and symmetric, and `!=` is irreflexive |
| Global.Dll.constructor | sakura_core/_main/global.cpp:123-161 | a library wrapper records which library it wraps |
| Global.LazyDll.constructor | sakura_core/_main/global.cpp:123-161 | before the first call no wrapper exists |
| Global.LazyDll.Get | sakura_core/_main/global.cpp:123-161 | the first call creates the wrapper and every later call returns the same one |
| Global.GetTwice | sakura_core/_main/global.cpp:123-161 | two calls return the same object |
| CmdLine.LeadingDigits | sakura_core/_main/CCommandLine.h:62-65 | the digit run that `_wtoi` reads consists of decimal digits |
| CmdLine.Clamp32 | sakura_core/_main/CCommandLine.h:62-65 | an out-of-range number becomes the nearest 32-bit limit, and an in-range number is unchanged |
| CmdLine.Wtoi | sakura_core/_main/CCommandLine.h:62-65 | `_wtoi` gives a 32-bit value |
| CmdLine.AtoiOptionInt | sakura_core/_main/CCommandLine.h:62-65 | a numeric option gives a 32-bit value |
| CmdLine.Digit | sakura_core/_main/CCommandLine.h:62-65 | the spelled digit reads back as its value |
| CmdLine.ShowNat | sakura_core/_main/CCommandLine.h:62-65 | a spelled number is a non-empty run of digits |
| CmdLine.DigitsValueShowNat | sakura_core/_main/CCommandLine.h:62-65 | reading a spelled natural number gives it back |
| CmdLine.LeadingDigitsOfDigits | sakura_core/_main/CCommandLine.h:62-65 | the digit run ends at the first non-digit |
| CmdLine.SignedDigitsShowInt | sakura_core/_main/CCommandLine.h:62-65 | a spelled integer followed by a non-digit reads back as itself |
| CmdLine.ShowIntStart | sakura_core/_main/CCommandLine.h:62-65 | a spelled integer starts with a minus sign or a digit |
| CmdLine.WtoiShowInt | sakura_core/_main/CCommandLine.h:62-65 | `_wtoi` reads back any 32-bit integer followed by nothing or a non-digit |
| CmdLine.BareOptionInt | sakura_core/_main/CCommandLine.h:62-65 | a bare number is read as itself |
| CmdLine.QuotedOptionInt | sakura_core/_main/CCommandLine.h:62-65 | a number opened by one double or single quote, closed or not, is read as itself |
| CmdLine.OnlyOneQuoteSkipped | sakura_core/_main/CCommandLine.h:62-65 | only one quote is skipped: a number behind two quotes reads as 0 |
| CmdLine.NoDigitsIsZero | sakura_core/_main/CCommandLine.h:62-65 | text that does not start with a number reads as 0 |
| CmdLine.ToInt32 | sakura_core/_main/CCommandLine.h:95 | the `static_cast<int>` of a size never exceeds it and equals it when the size fits |
| CmdLine.CommandLine.constructor | sakura_core/_main/CCommandLine.h:104-117 | every mode flag is off, the group id is -1, and there is no macro, macro type, profile or extra file |
| CmdLine.CommandLine.GetFileNum | sakura_core/_main/CCommandLine.h:95 | the file count is the number of stored files (whenever that fits in an int) |
| CmdLine.CommandLine.GetFileName | sakura_core/_main/CCommandLine.h:96 | the i-th file for `i` below the count, and null otherwise |
| CmdLine.CommandLine.ClearFile | sakura_core/_main/CCommandLine.h:97 | afterwards the count is 0, every file name is null, and nothing else changes |
| CmdLine.CommandLine.GetProfileName | sakura_core/_main/CCommandLine.h:81 | null exactly when no profile was given, and otherwise the profile name |
| CmdLine.CommandLine.IsSetProfile | sakura_core/_main/CCommandLine.h:82 | a profile is set exactly when the profile name is not null |
| CmdLine.CommandLine.SetProfileName | sakura_core/_main/CCommandLine.h:83 | afterwards a profile is set, its name is `s`, and nothing else changes |
| TrayMenu.LeftItems | tests/unittests/test-winmain.cpp:731-741 | the left-click menu has nine entries, from "new file" to "exit all" |
| TrayMenu.RightItems | tests/unittests/test-winmain.cpp:744-751 | the right-click menu has six entries, from "help contents" to "exit all" |
| TrayMenu.Find | tests/unittests/test-winmain.cpp:755 | `std::find` returns the first position holding the command, or the end |
| TrayMenu.Position | tests/unittests/test-winmain.cpp:753-764 | the distance to what `std::find` returns is non-negative exactly when the command is in the menu, and is then its first position |
| TrayMenu.GetContextMenuIndex | tests/unittests/test-winmain.cpp:726-771 | an index is returned exactly when the command is in the menu the message opens; it lies within the menu, holds the command, and is the first occurrence; otherwise the error "Invalid message type." is thrown |
| TrayMenu.OtherMessageRefused | tests/unittests/test-winmain.cpp:753-768 | any message other than the two button-up messages is refused |
| TrayMenu.MenusDistinct | tests/unittests/test-winmain.cpp:731-751 | no command appears twice in either menu |
| TrayMenu.IndexOfEntry | tests/unittests/test-winmain.cpp:726-771 | the lookup inverts indexing into either menu |
| TrayMenu.ExitAllIsLast | tests/unittests/test-winmain.cpp:726-771 | "exit all" is at 8 in the left-click menu and at 5 in the right-click menu |
| TrayMenu.OtherCommandRefused | tests/unittests/test-winmain.cpp:766-768 | a command in neither menu is refused for every message |

## Left out

- Window, dialog and COM plumbing is not modelled:
  - creating windows;
  - painting the split bars and frames (`DrawFrame`, `OnPaint`, `OnSize`, `OnCreate`, `Create` in the splitter);
  - cursors and mouse capture;
  - `DeferWindowPos`;
  - COM reference counting and the file dialog object's own behaviour.

  Only the state these calls leave behind is modelled.
- Splitter.SplitterWnd.CalcChildren: the rectangle arithmetic is not stated beyond which panes are listed. The source's rectangles mix coordinates and extents, so no tiling property holds.
- Splitter.SplitterWnd.GetPrevPane and GetNextPane carry no contract of their own. Splitter.PanesFollowPaneList states what they compute.
- Splitter.SplitterWnd.DrawSplitter: only the drag position it records is modelled, not the XOR drawing.
- The user interface language set by `SetThreadUILanguage` after a language change is recorded as a field, not applied.
- Enumerating the language libraries (`FindFirstFileW`, `FindNextFileW`, `LoadLibraryExedir`) is replaced by a given sequence of found files. The outcome of loading each library is folded into the found record.
- `CLoadString::LoadString` (sakura_core/CSelectLang.cpp:235-240) only forwards to the buffer's LoadString, which is modelled.
- SelectLang.LangEnvironment.GetDefaultLangString: requires a non-empty list. The source calls `front()`, which is undefined on an empty list.
- Relation.Subject.Destroy: models only the empty list that `~CSubject` leaves. The source erases from the vector while iterating over it, which is undefined behaviour.
- Relation.Listener.GetListeningSubject carries no contract: it returns the recorded subject.
- `CreateProcessW`, its error message box, `OpenEventW` and `SetEvent` are outside the model:
  - the launch is modelled up to the plan handed to the system;
  - the event is modelled by its name and by two oracles.
- `wcstombs_s` is not modelled: it is locale-dependent conversion.
- Process.ReplaceExtension: only the directory part and the new extension are stated. Idempotence of `replace_extension` is not proved.
- `CNormalProcess::InitializeProcess`, `StartControlProcess` and the initialisation mutex are not modelled. Process.Run takes the result of initialisation as a parameter.
- The shared grep history and the `_MAX_PATH`/`MAX_GREP_PATH` limits are parameters of the grep merge.
- `CDlgWindowList::DoModal`, `OnSize` and the help-id table are not modelled.
- OpenFileDialog.OpenFileDlg.Customize: the character-code and line-ending groups (`UseCharCode`, `UseEol`, `UseBom`) are modelled only through their setting flags, not as control layouts.
- `DoModal_GetSaveFileName` (sakura_core/dlg/CDlgOpenFile_CommonItemDialog.cpp:253-275) is not modelled. It is the save-side twin of GetOpenFileName, using the save-dialog implementation that is modelled.
- The code-page constants (`CODE_UTF8`, `CODE_CPACP`, `CODE_CPOEM`) come from charset.h, which is not part of this model. They are named constants here.
- The editor command codes (`F_FILENEW` ... `F_EXITALL`) come from Funccode_enum.h, which is not part of this model. They are a datatype here.
- CAppMode's caption refresh and the message box shown when another window owns the debug monitor are not modelled.
- CmdLine.Wtoi: follows the documented Microsoft `_wtoi`, which clamps an out-of-range number to INT_MAX or INT_MIN.
- CmdLine.ToInt32: `GetFileNum` is exact only up to INT_MAX files; beyond that the `static_cast<int>` wraps, and the model states only that it never exceeds the count.
- The command-line parser itself (`ParseCommandLine`, `ParseKanjiCodeFromFileName`) is not modelled; it is outside the header.
- The `EditInfo` and `GrepInfo` accessors and the plain flag accessors (`IsNoWindow`, `IsGrepMode` and the like) are not modelled: they return fields unchanged.
- SelectLang.LangEnvironment.InitializeLanguageEnvironmentAsWritten: it is as written for the default entry only. The libraries are registered by the corrected enumeration loop, because the written loop does not terminate (see SelectLang.AsWrittenStuck).
- `GetMacro` and `GetMacroType` (sakura_core/_main/CCommandLine.h:79-80) are not modelled: they return fields that only the parser, which is not modelled, sets. The fields exist and start empty.
- Global.SearchOption.Reset is a function returning the reset value. Assignment copies an `SSearchOption`, so this is equivalent to resetting in place.
- The Python functional tests and the rest of the unit-test harness (threads, polling, process start and stop) are not modelled.

## Findings

| source | as written | input that shows it | evidently intended | confidence | as-written member | corrected member |
|---|---|---|---|---|---|---|
| sakura_core/CSelectLang.cpp:119-137 | each `continue` that skips a directory or an unusable library also skips `FindNextFileW`, so the same file is examined again forever | one directory named `sakura_lang_en_US.dll` next to the executable | advance to the next file before skipping it | not executed | SelectLang.AsWrittenStuck | SelectLang.LangEnvironment.RegisterLanguages |
| sakura_core/CSelectLang.cpp:80-96 | the default entry's language name is read into a local buffer that is never stored in the entry | any application language name, for example `Japanese` | the entry holds the name it read | not executed | SelectLang.LangEnvironment.InitializeLanguageEnvironmentAsWritten | SelectLang.LangEnvironment.InitializeLanguageEnvironment |
| sakura_core/_main/CProcess.cpp:88 | quoting tests whether the argument contains the whole seven-character sequence ` <>|()&` | the argument `a b` is passed unquoted and splits into two arguments | quote when the argument contains any one of those characters | not executed | Process.AsWrittenArgUnquoted | Process.SpecialArgQuoted |
| sakura_core/_main/CProcess.cpp:112 | the executable path is quoted only when it contains the whole seven-character sequence ` <>|()&` | the path `C:\Program Files\sakura\sakura.exe` is passed unquoted, so the command line's first word is `C:\Program` | quote the path when it contains any one of those characters | not executed | Process.AsWrittenProgramFilesUnquoted | Process.SpecialExeQuoted |
