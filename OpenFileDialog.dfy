/** The open and save file dialogs built on the common item dialog: the filter
    lists, the option flags, the customised controls (read-only box, BOM box,
    character-code, line-ending, recent-file and recent-folder combos), their event
    handlers, and what is written back to the caller. */
module OpenFileDialog {
  import opened Common

  /** File-dialog option bits (FILEOPENDIALOGOPTIONS). */
  const FOS_NOCHANGEDIR: bv32 := 0x8
  const FOS_FORCEFILESYSTEM: bv32 := 0x40
  const FOS_ALLOWMULTISELECT: bv32 := 0x200
  const FOS_FILEMUSTEXIST: bv32 := 0x1000

  /** Ids of the added controls. */
  const CHECK_READONLY := 2000
  const LABEL_CODE := 2001
  const COMBO_CODE := 2002
  const CHECK_BOM := 2003
  const CHECK_CP := 2004
  const LABEL_EOL := 2005
  const COMBO_EOL := 2006
  const LABEL_MRU := 2007
  const COMBO_MRU := 2008
  const LABEL_OPENFOLDER := 2009
  const COMBO_OPENFOLDER := 2010

  /** Character codes used here (from the editor's code type enumeration). */
  const CODE_UTF8 := 4
  const CODE_CPACP := 90
  const CODE_CPOEM := 91

  const ALL_FILES: string := "*.*"
  const TEXT_FILES: string := "*.txt"

  /** The result of an event handler (HRESULT). */
  datatype HResult = SOk | ENotImpl | EFail

  /** Which extra filters the open-file call adds. */
  datatype EFilter = FilterNone | FilterText | FilterMacro

  /** One entry of the file-type list: its label and its pattern. */
  datatype FilterSpec = FilterSpec(name: string, spec: string)

  /** Localised labels of the filters; their texts do not matter here. */
  datatype Labels = Labels(userSpecified: string, textFiles: string, allFiles: string)

  /** Which controls the dialog adds. */
  datatype CustomizeSetting = CustomizeSetting(
    customize: bool, skipAutoDetect: bool, showReadOnly: bool,
    useEol: bool, useBom: bool, useCharCode: bool)

  /** The user's choices the handlers keep: view mode, character code, line ending
      and BOM. */
  datatype Choices = Choices(viewMode: bool, charCode: int, eol: int, bom: bool)

  /** A control event raised while the dialog is shown. */
  datatype ControlEvent = CheckToggled(ctl: int, checked: bool) | ItemSelected(ctl: int, item: nat)

  /** How showing the dialog ended: cancelled or failed, or with the chosen files
      (there is always a first one). */
  datatype Outcome = Failed | Chosen(first: string, more: seq<string>)

  /** Facts about code pages the dialog asks of the system: whether a code uses a
      BOM, whether the BOM is on by default, the installed code pages, and whether
      a folder path can be opened as a shell item. */
  datatype Env = Env(useBom: int -> bool, bomDefOn: int -> bool, codePages: seq<int>, parseOk: string -> bool)

  /** The five macro filters. */
  function MacroFilters(): (r: seq<FilterSpec>)
    ensures |r| == 5
  {
    [FilterSpec("Macros", "*.js;*.vbs;*.ppa;*.mac"),
     FilterSpec("JScript", "*.js"),
     FilterSpec("VBScript", "*.vbs"),
     FilterSpec("Pascal", "*.ppa"),
     FilterSpec("Key Macro", "*.mac")]
  }

  /** The open-file filter list: the user wildcard, then the extra filters, then
      "all files" unless the wildcard already is "*.*". */
  function OpenFileFilters(labels: Labels, wildCard: string, filter: EFilter): seq<FilterSpec>
  {
    [FilterSpec(labels.userSpecified, wildCard)]
    + (match filter
       case FilterText => [FilterSpec(labels.textFiles, TEXT_FILES)]
       case FilterMacro => MacroFilters()
       case FilterNone => [])
    + (if wildCard != ALL_FILES then [FilterSpec(labels.allFiles, ALL_FILES)] else [])
  }

  /** The user wildcard comes first; the list holds 1, 2 or 6 entries plus the
      "all files" entry; "*.*" is offered exactly once, and last when the wildcard
      is something else. */
  lemma OpenFileFiltersSpec(labels: Labels, wildCard: string, filter: EFilter)
    ensures var r := OpenFileFilters(labels, wildCard, filter);
      && r[0] == FilterSpec(labels.userSpecified, wildCard)
      && |r| == 1 + (match filter case FilterText => 1 case FilterMacro => 5 case FilterNone => 0)
                  + (if wildCard != ALL_FILES then 1 else 0)
      && (exists i :: 0 <= i < |r| && r[i].spec == ALL_FILES)
      && (forall i, j :: 0 <= i < j < |r| ==> !(r[i].spec == ALL_FILES && r[j].spec == ALL_FILES))
      && (wildCard != ALL_FILES ==> r[|r| - 1] == FilterSpec(labels.allFiles, ALL_FILES))
  {
    var r := OpenFileFilters(labels, wildCard, filter);
    var m := MacroFilters();
    assert m[0].spec != ALL_FILES && m[1].spec != ALL_FILES && m[2].spec != ALL_FILES;
    assert m[3].spec != ALL_FILES && m[4].spec != ALL_FILES;
    assert TEXT_FILES != ALL_FILES;
    if wildCard == ALL_FILES {
      assert r[0].spec == ALL_FILES;
    } else {
      assert r[|r| - 1].spec == ALL_FILES;
    }
  }

  /** The filters of the save dialog: the user wildcard, text files, all files. */
  function SaveFilters(labels: Labels, wildCard: string): (r: seq<FilterSpec>)
    ensures |r| == 3 && r[0].spec == wildCard && r[1].spec == TEXT_FILES && r[2].spec == ALL_FILES
  {
    [FilterSpec(labels.userSpecified, wildCard),
     FilterSpec(labels.textFiles, TEXT_FILES),
     FilterSpec(labels.allFiles, ALL_FILES)]
  }

  /** A document type as far as the open dialog needs it. */
  datatype TypeConfig = TypeConfig(name: string, exts: string)

  /** One filter per document type whose configuration can be read, in type order;
      the pattern is the converted extension list. */
  function TypeFilters(types: seq<Option<TypeConfig>>, toDlgExt: string -> string): seq<FilterSpec>
  {
    if types == [] then []
    else
      var last := match types[|types| - 1]
        case Some(t) => [FilterSpec(t.name, toDlgExt(t.exts))]
        case None => [];
      TypeFilters(types[..|types| - 1], toDlgExt) + last
  }

  /** Every readable type gets one filter, in order: when all are readable the
      filters are exactly the types, one each, named after them. */
  lemma {:induction false} TypeFiltersAllReadable(types: seq<Option<TypeConfig>>, toDlgExt: string -> string)
    requires forall i :: 0 <= i < |types| ==> types[i].Some?
    ensures |TypeFilters(types, toDlgExt)| == |types|
    ensures forall i :: 0 <= i < |types| ==>
      TypeFilters(types, toDlgExt)[i] == FilterSpec(types[i].value.name, toDlgExt(types[i].value.exts))
  {
    if types != [] {
      var init := types[..|types| - 1];
      TypeFiltersAllReadable(init, toDlgExt);
      assert forall i :: 0 <= i < |init| ==> init[i] == types[i];
    }
  }

  /** There are never more type filters than types. */
  lemma {:induction false} TypeFiltersBound(types: seq<Option<TypeConfig>>, toDlgExt: string -> string)
    ensures |TypeFilters(types, toDlgExt)| <= |types|
  {
    if types != [] {
      TypeFiltersBound(types[..|types| - 1], toDlgExt);
    }
  }

  /** The filters of the "open" dialog: all files, text files, then the types. */
  function OpenDlgFilters(labels: Labels, types: seq<Option<TypeConfig>>, toDlgExt: string -> string): seq<FilterSpec>
  {
    [FilterSpec(labels.allFiles, ALL_FILES), FilterSpec(labels.textFiles, TEXT_FILES)] + TypeFilters(types, toDlgExt)
  }

  /** The options the open dialog is given: the dialog's own options plus
      NOCHANGEDIR, FORCEFILESYSTEM and FILEMUSTEXIST, plus ALLOWMULTISELECT when
      asked for. */
  function OpenOptions(given: bv32, multiSelect: bool): (r: bv32)
    ensures r & given == given
    ensures r & FOS_NOCHANGEDIR != 0 && r & FOS_FORCEFILESYSTEM != 0 && r & FOS_FILEMUSTEXIST != 0
    ensures (r & FOS_ALLOWMULTISELECT != 0) <==> multiSelect || given & FOS_ALLOWMULTISELECT != 0
    ensures r & !(given | FOS_NOCHANGEDIR | FOS_FORCEFILESYSTEM | FOS_FILEMUSTEXIST | FOS_ALLOWMULTISELECT) == 0
  {
    var o := given | FOS_NOCHANGEDIR | FOS_FORCEFILESYSTEM | FOS_FILEMUSTEXIST;
    if multiSelect then o | FOS_ALLOWMULTISELECT else o
  }

  /** What a control event does to the user's choices. */
  function Step(c: Choices, e: ControlEvent): Choices
  {
    match e
    case CheckToggled(ctl, checked) =>
      if ctl == CHECK_READONLY then c.(viewMode := checked)
      else if ctl == CHECK_BOM then c.(bom := checked)
      else c
    case ItemSelected(ctl, item) =>
      if ctl == COMBO_CODE then c.(charCode := item)
      else if ctl == COMBO_EOL then c.(eol := item)
      else c
  }

  /** The choices after a sequence of events. */
  function Apply(c: Choices, events: seq<ControlEvent>): Choices
  {
    if events == [] then c else Step(Apply(c, events[..|events| - 1]), events[|events| - 1])
  }

  /** Events that touch neither the read-only box nor the BOM box nor the two
      combos leave the choices as they were; each choice moves only through its own
      control. */
  lemma {:induction false} ApplyUntouched(c: Choices, events: seq<ControlEvent>)
    ensures (forall i :: 0 <= i < |events| ==> !(events[i].CheckToggled? && events[i].ctl == CHECK_READONLY))
      ==> Apply(c, events).viewMode == c.viewMode
    ensures (forall i :: 0 <= i < |events| ==> !(events[i].CheckToggled? && events[i].ctl == CHECK_BOM))
      ==> Apply(c, events).bom == c.bom
    ensures (forall i :: 0 <= i < |events| ==> !(events[i].ItemSelected? && events[i].ctl == COMBO_CODE))
      ==> Apply(c, events).charCode == c.charCode
    ensures (forall i :: 0 <= i < |events| ==> !(events[i].ItemSelected? && events[i].ctl == COMBO_EOL))
      ==> Apply(c, events).eol == c.eol
  {
    if events != [] {
      var init := events[..|events| - 1];
      ApplyUntouched(c, init);
      assert forall i :: 0 <= i < |init| ==> init[i] == events[i];
    }
  }

  /** The last toggle of the read-only box decides the view mode. */
  lemma {:induction false} LastReadOnlyToggleWins(c: Choices, events: seq<ControlEvent>, k: nat, b: bool)
    requires k < |events| && events[k] == CheckToggled(CHECK_READONLY, b)
    requires forall i :: k < i < |events| ==> !(events[i].CheckToggled? && events[i].ctl == CHECK_READONLY)
    ensures Apply(c, events).viewMode == b
    decreases |events|
  {
    if k < |events| - 1 {
      LastReadOnlyToggleWins(c, events[..|events| - 1], k, b);
    }
  }

  /** An event the handlers can receive: the recent-file and recent-folder combos
      only hold ids 1 to the list length, plus 0. */
  predicate ValidEvent(e: ControlEvent, mru: seq<string>, openFolder: seq<string>)
  {
    e.ItemSelected? ==>
      (e.ctl == COMBO_MRU ==> e.item <= |mru|) && (e.ctl == COMBO_OPENFOLDER ==> e.item <= |openFolder|)
  }

  /** The part of a path `remove_filename` keeps: everything up to the last
      separator. */
  function RemoveFilename(p: string): (r: string)
    ensures r <= p
    ensures r == [] || IsSeparator(r[|r| - 1])
    ensures forall i :: |r| <= i < |p| ==> !IsSeparator(p[i])
  {
    p[..DirLength(p)]
  }

  /** The common item dialog object, as far as this code configures and reads it. */
  class FileDialog {
    var options: bv32
    var fileTypes: seq<FilterSpec>
    var fileName: string
    var folder: string
    var defaultExt: string
    /** The read-only box, when added, with its initial state. */
    var readOnlyBox: Option<bool>
    /** Items of the recent-file and recent-folder combos: (id, text). */
    var mruItems: seq<(nat, string)>
    var folderItems: seq<(nat, string)>
    /** Items and selection of the character-code combo. */
    var codeItems: seq<int>
    var codeSel: Option<int>
    /** Whether the code-page box is enabled; whether the BOM box is enabled and
        checked. */
    var cpEnabled: bool
    var bomEnabled: bool
    var bomChecked: bool

    constructor (options: bv32)
      ensures this.options == options && fileTypes == [] && fileName == [] && folder == []
      ensures readOnlyBox == None && mruItems == [] && folderItems == [] && codeItems == [] && codeSel == None
    {
      this.options := options;
      fileTypes, fileName, folder, defaultExt := [], [], [], [];
      readOnlyBox, mruItems, folderItems, codeItems, codeSel := None, [], [], [], None;
      cpEnabled, bomEnabled, bomChecked := true, true, false;
    }
  }

  /** The combo items for a list: the i-th element gets id i + 1. */
  function NumberedItems(list: seq<string>): (r: seq<(nat, string)>)
    ensures |r| == |list|
    ensures forall i :: 0 <= i < |r| ==> r[i] == (i + 1, list[i])
  {
    seq(|list|, i requires 0 <= i < |list| => (i + 1, list[i]))
  }

  /** Selecting id `k` in a numbered combo picks list element `k - 1`. */
  lemma NumberedItemsSelect(list: seq<string>, k: nat)
    requires 0 < k <= |list|
    ensures (k, list[k - 1]) in NumberedItems(list)
    ensures forall p :: p in NumberedItems(list) && p.0 == k ==> p.1 == list[k - 1]
  {
    assert NumberedItems(list)[k - 1] == (k, list[k - 1]);
  }

  /** The code pages offered after the current ones: ANSI, OEM, then the installed
      ones. */
  function CodePageItems(codePages: seq<int>): seq<int>
  {
    [CODE_CPACP, CODE_CPOEM] + codePages
  }

  class OpenFileDlg {
    var wildCard: string
    var initialDir: string
    var mru: seq<string>
    var openFolder: seq<string>
    var setting: CustomizeSetting
    var viewMode: bool
    var charCode: int
    var eol: int
    var bom: bool

    /** The choices the handlers keep. */
    function Current(): Choices
      reads this
    {
      Choices(viewMode, charCode, eol, bom)
    }

    /** A fresh dialog: wildcard "*.*", not in view mode, UTF-8, BOM on, nothing
        customised. */
    constructor (eol: int)
      ensures wildCard == ALL_FILES && initialDir == [] && mru == [] && openFolder == []
      ensures setting == CustomizeSetting(false, false, false, false, false, false)
      ensures Current() == Choices(false, CODE_UTF8, eol, true)
    {
      wildCard, initialDir, mru, openFolder := ALL_FILES, [], [], [];
      setting := CustomizeSetting(false, false, false, false, false, false);
      viewMode, charCode, this.eol, bom := false, CODE_UTF8, eol, true;
    }

    /** Takes the user wildcard when one is given, the folder of the default path
        (its long form when the system gives one) or else the program's folder as
        the initial folder, and copies the two lists. */
    method Create(userWildCard: Option<string>, defaultPath: Option<string>, exeDir: string,
                  longName: string -> Option<string>, vMRU: seq<string>, vOpenFolder: seq<string>)
      modifies this
      ensures wildCard == (if userWildCard.Some? then userWildCard.value else old(wildCard))
      ensures defaultPath.Some? && defaultPath.value != [] ==>
        initialDir == (match longName(RemoveFilename(defaultPath.value))
                       case Some(l) => l
                       case None => RemoveFilename(defaultPath.value))
      ensures defaultPath.None? || defaultPath.value == [] ==> initialDir == exeDir
      ensures mru == vMRU && openFolder == vOpenFolder
      ensures setting == old(setting) && Current() == old(Current())
    {
      if userWildCard.Some? {
        wildCard := userWildCard.value;
      }
      if defaultPath.Some? && defaultPath.value != [] {
        var folderPath := RemoveFilename(defaultPath.value);
        var long := longName(folderPath);
        if long.Some? {
          initialDir := long.value;
        } else {
          initialDir := folderPath;
        }
      } else {
        initialDir := exeDir;
      }
      mru := vMRU;
      openFolder := vOpenFolder;
    }

    /** Adds the recent-file and recent-folder combos (and the read-only box when
        asked for), numbering items from 1. */
    method Customize(dlg: FileDialog)
      modifies dlg
      ensures dlg.readOnlyBox == (if setting.showReadOnly then Some(viewMode) else old(dlg.readOnlyBox))
      ensures dlg.mruItems == NumberedItems(mru) && dlg.folderItems == NumberedItems(openFolder)
      ensures dlg.fileName == old(dlg.fileName) && dlg.folder == old(dlg.folder) && dlg.options == old(dlg.options)
      ensures dlg.fileTypes == old(dlg.fileTypes) && dlg.defaultExt == old(dlg.defaultExt)
      ensures dlg.codeItems == old(dlg.codeItems) && dlg.codeSel == old(dlg.codeSel)
      ensures dlg.cpEnabled == old(dlg.cpEnabled) && dlg.bomEnabled == old(dlg.bomEnabled) && dlg.bomChecked == old(dlg.bomChecked)
    {
      if setting.showReadOnly {
        dlg.readOnlyBox := Some(viewMode);
      }
      var items: seq<(nat, string)> := [];
      for i := 0 to |mru|
        invariant items == NumberedItems(mru[..i])
      {
        items := items + [(i + 1, mru[i])];
      }
      assert mru[..|mru|] == mru;
      dlg.mruItems := items;
      items := [];
      for i := 0 to |openFolder|
        invariant items == NumberedItems(openFolder[..i])
      {
        items := items + [(i + 1, openFolder[i])];
      }
      assert openFolder[..|openFolder|] == openFolder;
      dlg.folderItems := items;
    }

    /** Adds the ANSI, OEM and installed code pages to the character-code combo and
        selects the one equal to `selCode`.  Returns `selCode` when one matched,
        else -1. */
    method AddComboCodePages(dlg: FileDialog, selCode: int, codePages: seq<int>) returns (sel: int)
      modifies dlg
      ensures dlg.codeItems == old(dlg.codeItems) + CodePageItems(codePages)
      ensures sel == (if selCode in CodePageItems(codePages) then selCode else -1)
      ensures dlg.codeSel == (if selCode in CodePageItems(codePages) then Some(selCode) else old(dlg.codeSel))
      ensures dlg.fileName == old(dlg.fileName) && dlg.folder == old(dlg.folder)
      ensures dlg.bomEnabled == old(dlg.bomEnabled) && dlg.bomChecked == old(dlg.bomChecked)
      ensures dlg.cpEnabled == old(dlg.cpEnabled)
      ensures dlg.options == old(dlg.options) && dlg.fileTypes == old(dlg.fileTypes) && dlg.defaultExt == old(dlg.defaultExt)
    {
      sel := -1;
      dlg.codeItems := dlg.codeItems + [CODE_CPACP];
      if selCode == CODE_CPACP {
        dlg.codeSel := Some(CODE_CPACP);
        sel := selCode;
      }
      dlg.codeItems := dlg.codeItems + [CODE_CPOEM];
      if selCode == CODE_CPOEM {
        dlg.codeSel := Some(CODE_CPOEM);
        sel := selCode;
      }
      for i := 0 to |codePages|
        invariant dlg.codeItems == old(dlg.codeItems) + CodePageItems(codePages[..i])
        invariant sel == (if selCode in CodePageItems(codePages[..i]) then selCode else -1)
        invariant dlg.codeSel == (if selCode in CodePageItems(codePages[..i]) then Some(selCode) else old(dlg.codeSel))
        invariant dlg.fileName == old(dlg.fileName) && dlg.folder == old(dlg.folder)
        invariant dlg.bomEnabled == old(dlg.bomEnabled) && dlg.bomChecked == old(dlg.bomChecked)
        invariant dlg.cpEnabled == old(dlg.cpEnabled)
        invariant dlg.options == old(dlg.options) && dlg.fileTypes == old(dlg.fileTypes) && dlg.defaultExt == old(dlg.defaultExt)
      {
        assert CodePageItems(codePages[..i + 1]) == CodePageItems(codePages[..i]) + [codePages[i]];
        dlg.codeItems := dlg.codeItems + [codePages[i]];
        if selCode == codePages[i] {
          dlg.codeSel := Some(codePages[i]);
          sel := selCode;
        }
      }
      assert codePages[..|codePages|] == codePages;
    }

    /** A check box was toggled: the read-only box sets the view mode, the BOM box
        the BOM flag, the code-page box disables itself and adds the code pages;
        any other control is not handled and changes nothing. */
    method OnCheckButtonToggled(dlg: FileDialog, ctl: int, checked: bool, env: Env) returns (hr: HResult)
      modifies this, dlg
      ensures Current() == Step(old(Current()), CheckToggled(ctl, checked))
      ensures hr == (if ctl in {CHECK_READONLY, CHECK_CP, CHECK_BOM} then SOk else ENotImpl)
      ensures ctl != CHECK_CP ==> unchanged(dlg)
      ensures ctl == CHECK_CP ==> !dlg.cpEnabled && dlg.codeItems == old(dlg.codeItems) + CodePageItems(env.codePages)
      ensures dlg.fileName == old(dlg.fileName) && dlg.folder == old(dlg.folder)
      ensures dlg.options == old(dlg.options) && dlg.fileTypes == old(dlg.fileTypes) && dlg.defaultExt == old(dlg.defaultExt)
      ensures wildCard == old(wildCard) && mru == old(mru) && openFolder == old(openFolder)
      ensures initialDir == old(initialDir) && setting == old(setting)
    {
      if ctl == CHECK_READONLY {
        viewMode := checked;
      } else if ctl == CHECK_CP {
        dlg.cpEnabled := false;
        var _ := AddComboCodePages(dlg, charCode, env.codePages);
      } else if ctl == CHECK_BOM {
        bom := checked;
      } else {
        return ENotImpl;
      }
      return SOk;
    }

    /** A combo item was selected.  A character code updates the BOM box (enabled
        and checked as kept or by default for codes that use a BOM, visible but
        disabled and unchecked otherwise) and becomes the character code; a line
        ending becomes the line ending; recent-file id k > 0 sets the file name to
        entry k - 1; recent-folder id k > 0 opens folder k - 1 and reports whether
        that worked; id 0 does nothing; other controls are not handled. */
    method OnItemSelected(dlg: FileDialog, ctl: int, item: nat, env: Env) returns (hr: HResult)
      requires ValidEvent(ItemSelected(ctl, item), mru, openFolder)
      modifies this, dlg
      ensures wildCard == old(wildCard) && mru == old(mru) && openFolder == old(openFolder)
      ensures initialDir == old(initialDir) && setting == old(setting)
      ensures dlg.options == old(dlg.options) && dlg.fileTypes == old(dlg.fileTypes) && dlg.defaultExt == old(dlg.defaultExt)
      ensures Current() == Step(old(Current()), ItemSelected(ctl, item))
      ensures ctl == COMBO_CODE ==> dlg.bomEnabled == env.useBom(item)
      ensures ctl == COMBO_CODE ==>
        dlg.bomChecked == (env.useBom(item) && (if item == old(charCode) then old(bom) else env.bomDefOn(item)))
      ensures ctl == COMBO_MRU && item != 0 ==> dlg.fileName == mru[item - 1]
      ensures !(ctl == COMBO_MRU && item != 0) ==> dlg.fileName == old(dlg.fileName)
      ensures ctl == COMBO_OPENFOLDER && item != 0 ==>
        (env.parseOk(openFolder[item - 1]) ==> dlg.folder == openFolder[item - 1] && hr == SOk)
        && (!env.parseOk(openFolder[item - 1]) ==> dlg.folder == old(dlg.folder) && hr == EFail)
      ensures !(ctl == COMBO_OPENFOLDER && item != 0) ==> dlg.folder == old(dlg.folder)
      ensures ctl !in {COMBO_CODE, COMBO_EOL, COMBO_MRU, COMBO_OPENFOLDER} ==> hr == ENotImpl && unchanged(dlg)
      ensures ctl in {COMBO_CODE, COMBO_EOL, COMBO_MRU} ==> hr == SOk
    {
      if ctl == COMBO_CODE {
        if env.useBom(item) {
          dlg.bomEnabled := true;
          dlg.bomChecked := if item == charCode then bom else env.bomDefOn(item);
        } else {
          dlg.bomEnabled := false;
          dlg.bomChecked := false;
        }
        charCode := item;
      } else if ctl == COMBO_EOL {
        eol := item;
      } else if ctl == COMBO_MRU {
        if item != 0 {
          dlg.fileName := mru[item - 1];
        }
      } else if ctl == COMBO_OPENFOLDER {
        if item != 0 {
          var path := openFolder[item - 1];
          if env.parseOk(path) {
            dlg.folder := path;
            return SOk;
          }
          return EFail;
        }
      } else {
        return ENotImpl;
      }
      return SOk;
    }

    /** Delivers the events raised while the dialog is shown, in order. */
    method Interact(dlg: FileDialog, events: seq<ControlEvent>, env: Env)
      requires forall i :: 0 <= i < |events| ==> ValidEvent(events[i], mru, openFolder)
      modifies this, dlg
      ensures Current() == Apply(old(Current()), events)
      ensures wildCard == old(wildCard) && mru == old(mru) && openFolder == old(openFolder)
      ensures initialDir == old(initialDir) && setting == old(setting)
      ensures dlg.options == old(dlg.options) && dlg.fileTypes == old(dlg.fileTypes) && dlg.defaultExt == old(dlg.defaultExt)
    {
      var i := 0;
      while i < |events|
        invariant 0 <= i <= |events|
        invariant Current() == Apply(old(Current()), events[..i])
        invariant wildCard == old(wildCard) && mru == old(mru) && openFolder == old(openFolder)
        invariant initialDir == old(initialDir) && setting == old(setting)
        invariant dlg.options == old(dlg.options) && dlg.fileTypes == old(dlg.fileTypes) && dlg.defaultExt == old(dlg.defaultExt)
      {
        assert events[..i + 1][..i] == events[..i];
        var e := events[i];
        if e.CheckToggled? {
          var _ := OnCheckButtonToggled(dlg, e.ctl, e.checked, env);
        } else {
          var _ := OnItemSelected(dlg, e.ctl, e.item, env);
        }
        i := i + 1;
      }
      assert events[..i] == events;
    }

    /** Configures and shows the open dialog: no line-ending or BOM controls, the
        open options, the filters, the file name and the initial folder; the chosen
        files come back on success. */
    method OpenDlgImpl(dlg: FileDialog, fileName: string, specs: seq<FilterSpec>, multiSelect: bool,
                       events: seq<ControlEvent>, env: Env, outcome: Outcome)
      returns (ok: bool, fileNames: seq<string>)
      requires forall i :: 0 <= i < |events| ==> ValidEvent(events[i], mru, openFolder)
      modifies this, dlg
      ensures ok <==> outcome.Chosen?
      ensures ok ==> fileNames == [outcome.first] + outcome.more
      ensures !ok ==> fileNames == []
      ensures dlg.options == OpenOptions(old(dlg.options), multiSelect) && dlg.fileTypes == specs
      ensures setting == old(setting).(useEol := false, useBom := false)
      ensures Current() == Apply(old(Current()), events)
      ensures wildCard == old(wildCard) && mru == old(mru) && openFolder == old(openFolder) && initialDir == old(initialDir)
    {
      setting := setting.(useEol := false, useBom := false);
      dlg.options := OpenOptions(dlg.options, multiSelect);
      dlg.fileTypes := specs;
      dlg.fileName := fileName;
      dlg.folder := initialDir;
      if setting.customize {
        Customize(dlg);
      }
      Interact(dlg, events, env);
      if outcome.Failed? {
        return false, [];
      }
      return true, [outcome.first] + outcome.more;
    }

    /** Builds the open-file filter list entry by entry. */
    method BuildOpenFileFilters(labels: Labels, filter: EFilter) returns (specs: seq<FilterSpec>)
      ensures specs == OpenFileFilters(labels, wildCard, filter)
    {
      specs := [FilterSpec(labels.userSpecified, wildCard)];
      match filter {
        case FilterText =>
          specs := specs + [FilterSpec(labels.textFiles, TEXT_FILES)];
        case FilterMacro =>
          specs := specs + MacroFilters();
        case FilterNone =>
      }
      if wildCard != ALL_FILES {
        specs := specs + [FilterSpec(labels.allFiles, ALL_FILES)];
      }
    }

    /** The plain "open file" dialog: single selection, no customisation; on
        success the path becomes the chosen file, otherwise it is kept. */
    method GetOpenFileName(dlg: FileDialog, path: string, filter: EFilter, labels: Labels,
                           events: seq<ControlEvent>, env: Env, outcome: Outcome)
      returns (ok: bool, newPath: string)
      requires forall i :: 0 <= i < |events| ==> ValidEvent(events[i], mru, openFolder)
      modifies this, dlg
      ensures ok <==> outcome.Chosen?
      ensures newPath == (if ok then outcome.first else path)
      ensures dlg.fileTypes == OpenFileFilters(labels, old(wildCard), filter)
      ensures dlg.options == OpenOptions(old(dlg.options), false)
      ensures !setting.customize
    {
      var specs := BuildOpenFileFilters(labels, filter);
      setting := setting.(customize := false);
      var fileNames;
      ok, fileNames := OpenDlgImpl(dlg, [], specs, false, events, env, outcome);
      newPath := if ok then fileNames[0] else path;
    }

    /** Builds the "open" dialog's filters: all files, text files, then one entry
        per document type whose configuration can be read. */
    method BuildOpenDlgFilters(labels: Labels, types: seq<Option<TypeConfig>>, toDlgExt: string -> string)
      returns (specs: seq<FilterSpec>)
      ensures specs == OpenDlgFilters(labels, types, toDlgExt)
    {
      specs := [FilterSpec(labels.allFiles, ALL_FILES), FilterSpec(labels.textFiles, TEXT_FILES)];
      for i := 0 to |types|
        invariant specs == OpenDlgFilters(labels, types[..i], toDlgExt)
      {
        assert types[..i + 1][..i] == types[..i];
        if types[i].None? {
          continue;
        }
        specs := specs + [FilterSpec(types[i].value.name, toDlgExt(types[i].value.exts))];
      }
      assert types[..|types|] == types;
    }

    /** The editor's "open" dialog: multiple selection, read-only box, character
        code when options are asked for.  The load information gets the character
        code and view mode back only on success. */
    method DoModalOpenDlg(dlg: FileDialog, load: LoadInfo, labels: Labels, types: seq<Option<TypeConfig>>,
                          toDlgExt: string -> string, options: bool,
                          events: seq<ControlEvent>, env: Env, outcome: Outcome)
      returns (ok: bool, fileNames: seq<string>)
      requires forall i :: 0 <= i < |events| ==> ValidEvent(events[i], mru, openFolder)
      modifies this, dlg, load
      ensures ok <==> outcome.Chosen?
      ensures ok ==> fileNames == [outcome.first] + outcome.more
      ensures dlg.fileTypes == OpenDlgFilters(labels, types, toDlgExt)
      ensures dlg.options == OpenOptions(old(dlg.options), true)
      ensures setting == CustomizeSetting(true, false, true, false, false, options)
      ensures ok ==> load.charCode == Apply(Choices(old(load.viewMode), old(load.charCode), old(eol), old(bom)), events).charCode
      ensures ok ==> load.viewMode == Apply(Choices(old(load.viewMode), old(load.charCode), old(eol), old(bom)), events).viewMode
      ensures !ok ==> load.charCode == old(load.charCode) && load.viewMode == old(load.viewMode)
      ensures load.filePath == old(load.filePath)
    {
      var specs := BuildOpenDlgFilters(labels, types, toDlgExt);
      viewMode := load.viewMode;
      charCode := load.charCode;
      setting := setting.(customize := true, showReadOnly := true, skipAutoDetect := false, useCharCode := options);
      ok, fileNames := OpenDlgImpl(dlg, load.filePath, specs, true, events, env, outcome);
      if ok {
        load.charCode := charCode;
        load.viewMode := viewMode;
      }
    }

    /** Configures and shows the save dialog and returns the chosen path. */
    method SaveDlgImpl(dlg: FileDialog, path: string, labels: Labels,
                       events: seq<ControlEvent>, env: Env, outcome: Outcome)
      returns (ok: bool, chosen: string)
      requires forall i :: 0 <= i < |events| ==> ValidEvent(events[i], mru, openFolder)
      modifies this, dlg
      ensures ok <==> outcome.Chosen?
      ensures chosen == (if ok then outcome.first else path)
      ensures dlg.fileTypes == SaveFilters(labels, wildCard) && dlg.defaultExt == "txt"
      ensures Current() == Apply(old(Current()), events)
      ensures wildCard == old(wildCard) && setting == old(setting)
    {
      dlg.defaultExt := "txt";
      dlg.fileTypes := SaveFilters(labels, wildCard);
      dlg.folder := initialDir;
      dlg.fileName := path[DirLength(path)..];
      if setting.customize {
        Customize(dlg);
      }
      Interact(dlg, events, env);
      if outcome.Failed? {
        return false, path;
      }
      return true, outcome.first;
    }

    /** The editor's "save" dialog.  Simple mode only turns customisation off;
        otherwise the save information's code, BOM and line ending seed the
        controls.  On failure the path is cleared; on success it becomes the chosen
        one and, outside simple mode, the code, line ending and BOM are copied
        back. */
    method DoModalSaveDlg(dlg: FileDialog, save: SaveInfo, simple: bool, labels: Labels,
                          events: seq<ControlEvent>, env: Env, outcome: Outcome)
      returns (ok: bool)
      requires forall i :: 0 <= i < |events| ==> ValidEvent(events[i], mru, openFolder)
      modifies this, dlg, save
      ensures ok <==> outcome.Chosen?
      ensures save.filePath == (if ok then Some(outcome.first) else None)
      ensures simple ==> !setting.customize
      ensures simple ==> save.charCode == old(save.charCode) && save.eol == old(save.eol) && save.bom == old(save.bom)
      ensures !simple ==> setting == CustomizeSetting(true, true, false, true, true, true)
      ensures !simple && ok ==>
        var c := Apply(Choices(old(viewMode), old(save.charCode), old(save.eol), old(save.bom)), events);
        save.charCode == c.charCode && save.eol == c.eol && save.bom == c.bom
      ensures !ok ==> save.charCode == old(save.charCode) && save.eol == old(save.eol) && save.bom == old(save.bom)
    {
      if simple {
        setting := setting.(customize := false);
      } else {
        charCode := save.charCode;
        bom := save.bom;
        eol := save.eol;
        setting := CustomizeSetting(true, true, false, true, true, true);
      }
      var path := if save.filePath.Some? then save.filePath.value else [];
      var chosen;
      ok, chosen := SaveDlgImpl(dlg, path, labels, events, env, outcome);
      if ok {
        save.filePath := Some(chosen);
      } else {
        save.filePath := None;
      }
      if ok && !simple {
        save.charCode := charCode;
        if setting.useEol {
          save.eol := eol;
        }
        if setting.useBom {
          save.bom := bom;
        }
      }
    }
  }

  /** What the caller hands to the "open" dialog and gets back. */
  class LoadInfo {
    var filePath: string
    var charCode: int
    var viewMode: bool
    constructor (filePath: string, charCode: int, viewMode: bool)
      ensures this.filePath == filePath && this.charCode == charCode && this.viewMode == viewMode
    {
      this.filePath, this.charCode, this.viewMode := filePath, charCode, viewMode;
    }
  }

  /** What the caller hands to the "save" dialog and gets back. */
  class SaveInfo {
    var filePath: Option<string>
    var charCode: int
    var eol: int
    var bom: bool
    constructor (filePath: string, charCode: int, eol: int, bom: bool)
      ensures this.filePath == Some(filePath) && this.charCode == charCode && this.eol == eol && this.bom == bom
    {
      this.filePath, this.charCode, this.eol, this.bom := Some(filePath), charCode, eol, bom;
    }
  }
}
