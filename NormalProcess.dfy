/** The editor process's start-up helpers: opening the extra files given on the
    command line, and merging the command line's grep options into the grep
    dialog and the shared search settings. */
module NormalProcess {
  import opened Common
  import opened Global

  /** Longest path the grep key may reach (exclusive). */
  const MAX_PATH := 260

  // ---------------------------------------------------------------------------
  // Opening several files

  /** The file-open request handed to each new editor; its path is overwritten for
      every extra file. */
  class EditInfo {
    var path: string
    constructor (path: string)
      ensures this.path == path
    {
      this.path := path;
    }
  }

  /** The paths handed to the editor-opening call: the original one, then each extra
      file, stopping after the first failure. */
  function OpenAttempts(first: string, files: seq<string>, open: string -> bool): seq<string>
  {
    [first] + (if open(first) then RestFrom(files, 0, open) else [])
  }

  /** The extra files attempted from position `i` on. */
  function RestFrom(files: seq<string>, i: nat, open: string -> bool): seq<string>
    decreases |files| - i
  {
    if |files| <= i then []
    else [files[i]] + (if open(files[i]) then RestFrom(files, i + 1, open) else [])
  }

  /** The attempts from `i` on are the next files in order, and every attempt but
      the last one succeeded. */
  lemma {:induction false} RestInOrder(files: seq<string>, i: nat, open: string -> bool)
    requires i <= |files|
    ensures var r := RestFrom(files, i, open);
      && |r| <= |files| - i && r == files[i..i + |r|]
      && (forall k :: 0 <= k < |r| - 1 ==> open(r[k]))
    decreases |files| - i
  {
    if i < |files| && open(files[i]) {
      RestInOrder(files, i + 1, open);
      var r' := RestFrom(files, i + 1, open);
      assert RestFrom(files, i, open) == [files[i]] + RestFrom(files, i + 1, open);
      assert files[i..i + 1 + |r'|] == [files[i]] + files[i + 1..i + 1 + |r'|];
    }
  }

  /** The attempts stop before the end of the list only at a failure. */
  lemma {:induction false} RestStopsAtFailure(files: seq<string>, i: nat, open: string -> bool)
    requires i <= |files|
    ensures var r := RestFrom(files, i, open);
      i + |r| < |files| ==> 0 < |r| && !open(r[|r| - 1])
    decreases |files| - i
  {
    if i < |files| && open(files[i]) {
      RestStopsAtFailure(files, i + 1, open);
      assert RestFrom(files, i, open) == [files[i]] + RestFrom(files, i + 1, open);
      var r' := RestFrom(files, i + 1, open);
      if i + 1 + |r'| < |files| {
        assert ([files[i]] + r')[|r'|] == r'[|r'| - 1];
      }
    }
  }

  /** When every file from `i` on opens, every one of them is attempted. */
  lemma {:induction false} RestAllOpen(files: seq<string>, i: nat, open: string -> bool)
    requires i <= |files|
    requires forall k :: i <= k < |files| ==> open(files[k])
    ensures RestFrom(files, i, open) == files[i..]
    decreases |files| - i
  {
    if i < |files| {
      RestAllOpen(files, i + 1, open);
      assert RestFrom(files, i, open) == [files[i]] + RestFrom(files, i + 1, open);
      assert files[i..] == [files[i]] + files[i + 1..];
    }
  }

  /** Opens the original request, then each extra file in order with the request's
      path replaced, and stops at the first failure.  Without extra files nothing
      is opened and the result is false; otherwise the result is true, whatever
      failed. */
  method OpenFiles(fi: EditInfo, files: seq<string>, open: string -> bool) returns (r: bool, attempts: seq<string>)
    modifies fi
    ensures r <==> files != []
    ensures files == [] ==> attempts == [] && fi.path == old(fi.path)
    ensures files != [] ==> attempts == OpenAttempts(old(fi.path), files, open)
    ensures files != [] ==> fi.path == attempts[|attempts| - 1]
  {
    if files == [] {
      return false, [];
    }
    r := true;
    attempts := [fi.path];
    if open(fi.path) {
      var rest := OpenEach(fi, files, open);
      attempts := attempts + rest;
    }
  }

  /** When the files before position `i` all open, the attempts are those files
      followed by the attempts from `i` on. */
  lemma {:induction false} RestFromPrefix(files: seq<string>, i: nat, open: string -> bool)
    requires i <= |files|
    requires forall k :: 0 <= k < i ==> open(files[k])
    ensures RestFrom(files, 0, open) == files[..i] + RestFrom(files, i, open)
  {
    if i > 0 {
      RestFromPrefix(files, i - 1, open);
      var rest := RestFrom(files, i, open);
      assert RestFrom(files, i - 1, open) == [files[i - 1]] + rest;
      assert files[..i - 1] + ([files[i - 1]] + rest) == (files[..i - 1] + [files[i - 1]]) + rest;
      assert files[..i - 1] + [files[i - 1]] == files[..i];
    }
  }

  /** The loop over the extra files. */
  method OpenEach(fi: EditInfo, files: seq<string>, open: string -> bool) returns (attempts: seq<string>)
    requires files != []
    modifies fi
    ensures attempts == RestFrom(files, 0, open)
    ensures fi.path == attempts[|attempts| - 1]
  {
    attempts := [];
    var i := 0;
    while i < |files|
      invariant 0 <= i <= |files| && attempts == files[..i]
      invariant forall k :: 0 <= k < i ==> open(files[k])
      invariant 0 < i ==> fi.path == files[i - 1]
    {
      fi.path := files[i];
      attempts := attempts + [files[i]];
      assert attempts == files[..i + 1];
      if !open(files[i]) {
        RestFromPrefix(files, i, open);
        return;
      }
      i := i + 1;
    }
    RestFromPrefix(files, i, open);
    assert files[..i] == files;
  }

  // ---------------------------------------------------------------------------
  // Grep options

  /** The grep search settings shared by the command line, the shared search
      settings and the grep dialog. */
  datatype GrepSettings = GrepSettings(
    subFolder: bool,
    searchOption: SearchOption,
    charSet: int,
    outputLineType: int,
    outputStyle: int,
    outputFileOnly: bool,
    outputBaseFolder: bool,
    separateFolder: bool)

  /** The grep part of the command line; absent strings are null pointers. */
  datatype GrepInfo = GrepInfo(
    settings: GrepSettings,
    grepStdout: bool,
    grepHeader: bool,
    key: Option<string>,
    file: Option<string>,
    folder: Option<string>)

  /** The grep part of the shared search settings. */
  class ShareSearch {
    var grep: GrepSettings
    constructor (grep: GrepSettings)
      ensures this.grep == grep
    {
      this.grep := grep;
    }
  }

  /** The grep dialog's fields. */
  class DlgGrep {
    var text: string
    var setText: bool
    var file: string
    var folder: string
    var grepStdout: bool
    var grepHeader: bool
    var settings: GrepSettings

    constructor (settings: GrepSettings)
      ensures text == [] && file == [] && folder == [] && !setText && this.settings == settings
    {
      text, file, folder, setText := [], [], [], false;
      this.settings := settings;
    }
  }

  /** A command-line string usable as given: present, non-empty and within the
      limit. */
  predicate Usable(s: Option<string>, limit: int)
  {
    s.Some? && s.value != [] && |s.value| <= limit
  }

  /** The value a file or folder field gets: the command line's, else (outside the
      dialog mode, when the option is absent) the newest history entry, else the
      field's own. */
  function MergedPath(given: Option<string>, history: seq<string>, grepDlg: bool, current: string, maxGrepPath: int): (r: string)
    ensures Usable(given, maxGrepPath) ==> r == given.value
    ensures !Usable(given, maxGrepPath) && !grepDlg && given.None? && history != [] ==> r == history[0]
    ensures !Usable(given, maxGrepPath) && (grepDlg || given.Some? || history == []) ==> r == current
  {
    if Usable(given, maxGrepPath) then given.value
    else if !grepDlg && given.None? && |history| != 0 then history[0]
    else current
  }

  /** Copies the command line's grep options into the shared settings and the
      dialog.  Returns whether the dialog must be shown: always when it was asked
      for, otherwise when text, file or folder is still empty.  Without grep mode
      and grep dialog nothing changes and the result is false. */
  method ApplyGrepOptions(gi: GrepInfo, grepMode: bool, grepDlg: bool,
                          historyFiles: seq<string>, historyFolders: seq<string>,
                          sSearch: ShareSearch, dlg: DlgGrep, maxGrepPath: int)
    returns (showDlg: bool)
    modifies sSearch, dlg
    ensures !grepMode && !grepDlg ==> !showDlg && unchanged(sSearch) && unchanged(dlg)
    ensures grepMode || grepDlg ==>
      && (Usable(gi.key, MAX_PATH - 1) ==> dlg.text == gi.key.value && dlg.setText)
      && (!Usable(gi.key, MAX_PATH - 1) ==> dlg.text == old(dlg.text) && dlg.setText == old(dlg.setText))
      && dlg.file == MergedPath(gi.file, historyFiles, grepDlg, old(dlg.file), maxGrepPath)
      && dlg.folder == MergedPath(gi.folder, historyFolders, grepDlg, old(dlg.folder), maxGrepPath)
      && dlg.grepStdout == gi.grepStdout && dlg.grepHeader == gi.grepHeader
      && sSearch.grep == gi.settings
      && dlg.settings == sSearch.grep
      && showDlg == (grepDlg || dlg.text == [] || dlg.file == [] || dlg.folder == [])
  {
    showDlg := grepDlg;
    var bGrepMode := grepMode || showDlg;
    if bGrepMode {
      sSearch.grep := gi.settings;

      if gi.key.Some? && gi.key.value != [] && |gi.key.value| < MAX_PATH {
        dlg.text := gi.key.value;
        dlg.setText := true;
      }
      dlg.file := MergedPath(gi.file, historyFiles, showDlg, dlg.file, maxGrepPath);
      dlg.folder := MergedPath(gi.folder, historyFolders, showDlg, dlg.folder, maxGrepPath);
      dlg.grepStdout := gi.grepStdout;
      dlg.grepHeader := gi.grepHeader;
      dlg.settings := sSearch.grep;

      if !showDlg {
        showDlg := dlg.text == [] || dlg.file == [] || dlg.folder == [];
      }
    }
  }
}
