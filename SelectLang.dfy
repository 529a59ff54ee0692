/** Message-resource languages and string loading.  The language list holds the
    built-in language of the executable (entry 0) followed by the language DLLs
    found next to it; one entry is selected and its module supplies the strings.
    String loading reads a resource into a buffer that grows until the whole
    string fits. */
module SelectLang {
  import opened Common

  /** Initial size, and growth step, of a string buffer (in characters). */
  const LOADSTR_ADD_SIZE := 256
  /** Longest language name kept (the name buffer holds this many characters plus
      the terminator). */
  const MAX_SELLANG_NAME_STR := 128
  /** Number of buffers shared by the short-lived string loads. */
  const TEMP_BUFFER_COUNT := 5

  /** One language: its module handle (Null when not loaded), the DLL path, the
      language name and the language id. */
  datatype LangDll = LangDll(hInstance: Handle, dllPath: string, langName: string, langId: int)

  /** The value constructor: stores the three values and loads nothing. */
  function NewLangDll(dllPath: string, langName: string, langId: int): (d: LangDll)
    ensures d.hInstance == Null
    ensures d.dllPath == dllPath && d.langName == langName && d.langId == langId
  {
    LangDll(Null, dllPath, langName, langId)
  }

  /** The first `n` characters of `s`, or all of it: what a string load into a
      buffer of `n + 1` characters keeps. */
  function Truncate(s: string, n: nat): (t: string)
    ensures |t| <= n && t <= s
    ensures |s| <= n ==> t == s
  {
    if |s| <= n then s else s[..n]
  }

  // ---------------------------------------------------------------------------
  // Enumeration of language DLLs

  /** A file matched by the language-DLL search pattern, with the language name and
      the language id its string resources yield once the DLL is loaded. */
  datatype FindData = FindData(fileName: string, isDirectory: bool, langName: string, langId: int)

  /** A match becomes a language entry when it is a file whose name and id are
      both present. */
  predicate Accepted(f: FindData)
  {
    !f.isDirectory && Truncate(f.langName, MAX_SELLANG_NAME_STR) != [] && f.langId != 0
  }

  /** The entries registered for a sequence of matches, in search order. */
  function Registered(found: seq<FindData>): (r: seq<LangDll>)
    ensures |r| <= |found|
    ensures forall d :: d in r ==> d.hInstance == Null
  {
    if found == [] then []
    else
      var f := found[0];
      (if Accepted(f) then [NewLangDll(f.fileName, Truncate(f.langName, MAX_SELLANG_NAME_STR), f.langId)] else [])
      + Registered(found[1..])
  }

  /** State of the search loop as written: the match under the cursor, the list so
      far, and whether the search reported another match. */
  datatype EnumState = EnumState(cursor: nat, list: seq<LangDll>, more: bool)

  /** One pass of the search loop as written: a directory, or a DLL without a name
      or id, is skipped with `continue` before the search is advanced. */
  function EnumStepAsWritten(found: seq<FindData>, st: EnumState): EnumState
  {
    if !st.more || |found| <= st.cursor then st
    else
      var f := found[st.cursor];
      if f.isDirectory then st
      else if Truncate(f.langName, MAX_SELLANG_NAME_STR) == [] || f.langId == 0 then st
      else EnumState(st.cursor + 1,
                     st.list + [NewLangDll(f.fileName, Truncate(f.langName, MAX_SELLANG_NAME_STR), f.langId)],
                     st.cursor + 1 < |found|)
  }

  function IterateAsWritten(found: seq<FindData>, st: EnumState, n: nat): EnumState
    decreases n
  {
    if n == 0 then st else IterateAsWritten(found, EnumStepAsWritten(found, st), n - 1)
  }

  /** As written, the loop never leaves a match it does not accept: from such a
      match every number of passes ends in the same state, still reporting more
      matches, so the loop does not terminate. */
  lemma {:induction false} AsWrittenStuck(found: seq<FindData>, st: EnumState, n: nat)
    requires st.more && st.cursor < |found| && !Accepted(found[st.cursor])
    ensures IterateAsWritten(found, st, n) == st
    ensures IterateAsWritten(found, st, n).more
  {
    if n > 0 {
      assert EnumStepAsWritten(found, st) == st;
      AsWrittenStuck(found, st, n - 1);
    }
  }

  /** A concrete case: a directory named like a language DLL. */
  lemma AsWrittenStuckOnDirectory()
    ensures var found := [FindData("sakura_lang_en_US.dll", true, "", 0)];
      forall n: nat :: IterateAsWritten(found, EnumState(0, [], true), n) == EnumState(0, [], true)
  {
    var found := [FindData("sakura_lang_en_US.dll", true, "", 0)];
    forall n: nat
      ensures IterateAsWritten(found, EnumState(0, [], true), n) == EnumState(0, [], true)
    {
      AsWrittenStuck(found, EnumState(0, [], true), n);
    }
  }

  /** The built-in entry as written: the module is the executable and the id is
      stored, but the name read from the resources is never stored. */
  function DefaultEntryAsWritten(app: Handle, appLangName: string, appLangId: int): LangDll
  {
    LangDll(app, [], [], appLangId)
  }

  /** The built-in entry with the name stored as well. */
  function DefaultEntry(app: Handle, appLangName: string, appLangId: int): (d: LangDll)
    ensures d.hInstance == app && d.langId == appLangId
    ensures d.langName == Truncate(appLangName, MAX_SELLANG_NAME_STR)
  {
    LangDll(app, [], Truncate(appLangName, MAX_SELLANG_NAME_STR), appLangId)
  }

  /** Index of the first entry whose DLL path is `path`. */
  function FindPath(list: seq<LangDll>, path: string): (r: Option<nat>)
    ensures r.Some? ==> r.value < |list| && list[r.value].dllPath == path
    ensures r.Some? ==> forall i :: 0 <= i < r.value ==> list[i].dllPath != path
    ensures r.None? ==> forall i :: 0 <= i < |list| ==> list[i].dllPath != path
  {
    if list == [] then None
    else if list[0].dllPath == path then Some(0)
    else match FindPath(list[1..], path)
      case None => None
      case Some(k) => Some(k + 1)
  }

  // ---------------------------------------------------------------------------
  // The language environment (static state of the language selector)

  class LangEnvironment {
    /** Module handle of the executable. */
    const app: Handle
    var list: seq<LangDll>
    /** Index of the selected entry. */
    var selected: int
    /** The thread's user-interface language, as last set. */
    var threadUiLang: int

    /** Entry 0 is the executable itself; besides it, only the selected entry may
        hold a module handle. */
    ghost predicate Valid()
      reads this
    {
      && app != Null
      && (list != [] ==> 0 <= selected < |list| && list[0].hInstance == app)
      && (forall i :: 0 < i < |list| && i != selected ==> list[i].hInstance == Null)
    }

    constructor (app: Handle, uiLang: int)
      requires app != Null
      ensures Valid()
      ensures this.app == app && list == [] && selected == 0 && threadUiLang == uiLang
    {
      this.app := app;
      list := [];
      selected := 0;
      threadUiLang := uiLang;
    }

    /** The module strings come from: the selected entry's, or the executable when
        no list exists. */
    function GetLangRsrcInstance(): (h: Handle)
      reads this
      requires Valid()
      ensures list == [] || selected == 0 ==> h == app
      ensures list != [] ==> h == list[selected].hInstance
    {
      if |list| != 0 then list[selected].hInstance else app
    }

    /** Name of the built-in language. */
    function GetDefaultLangString(): (s: string)
      reads this
      requires list != []
      ensures s == list[0].langName
    {
      list[0].langName
    }

    /** Id of the built-in language, or the user's default before initialisation. */
    function GetDefaultLangId(userDefaultLangId: int): (id: int)
      reads this
      ensures list == [] ==> id == userDefaultLangId
      ensures list != [] ==> id == list[0].langId
    {
      if list == [] then userDefaultLangId else list[0].langId
    }

    /** Drops the whole list. */
    method UninitializeLanguageEnvironment()
      requires Valid()
      modifies this`list
      ensures Valid() && list == []
    {
      list := [];
    }

    /** The search loop: appends an entry for every accepted match, in order. */
    method RegisterLanguages(found: seq<FindData>)
      modifies this`list
      ensures list == old(list) + Registered(found)
    {
      var cursor := 0;
      while cursor < |found|
        invariant 0 <= cursor <= |found|
        invariant list == old(list) + Registered(found[..cursor])
      {
        var f := found[cursor];
        RegisteredSnoc(found, cursor);
        if Accepted(f) {
          list := list + [NewLangDll(f.fileName, Truncate(f.langName, MAX_SELLANG_NAME_STR), f.langId)];
        }
        cursor := cursor + 1;
      }
      assert found[..cursor] == found;
    }

    /** Creates the built-in entry once (or cuts the list back to it), registers
        every accepted language DLL among the matches, and selects entry 0.  The
        built-in entry is the corrected one, which keeps the name read from the
        executable's resources. */
    method InitializeLanguageEnvironment(appLangName: string, appLangId: int, found: seq<FindData>)
      returns (h: Handle)
      requires Valid()
      modifies this`list, this`selected
      ensures Valid()
      ensures old(list) == [] ==> list == [DefaultEntry(app, appLangName, appLangId)] + Registered(found)
      ensures old(list) != [] ==> list == [old(list)[0]] + Registered(found)
      ensures old(list) == [] ==> GetDefaultLangString() == Truncate(appLangName, MAX_SELLANG_NAME_STR)
      ensures selected == 0 && h == app
    {
      h := InitializeWith(DefaultEntry(app, appLangName, appLangId), found);
    }

    /** The initialisation as written: the built-in entry loses its name, so the
        default language string is empty afterwards. */
    method InitializeLanguageEnvironmentAsWritten(appLangName: string, appLangId: int, found: seq<FindData>)
      returns (h: Handle)
      requires Valid()
      modifies this`list, this`selected
      ensures Valid()
      ensures old(list) == [] ==> list == [DefaultEntryAsWritten(app, appLangName, appLangId)] + Registered(found)
      ensures old(list) != [] ==> list == [old(list)[0]] + Registered(found)
      ensures old(list) == [] ==> GetDefaultLangString() == []
      ensures selected == 0 && h == app
    {
      h := InitializeWith(DefaultEntryAsWritten(app, appLangName, appLangId), found);
    }

    /** The common part: `entry` becomes entry 0 of an empty list, a longer list is
        cut back to its entry 0, the matches are registered and entry 0 selected. */
    method InitializeWith(entry: LangDll, found: seq<FindData>) returns (h: Handle)
      requires Valid() && entry.hInstance == app
      modifies this`list, this`selected
      ensures Valid()
      ensures old(list) == [] ==> list == [entry] + Registered(found)
      ensures old(list) != [] ==> list == [old(list)[0]] + Registered(found)
      ensures selected == 0 && h == app
    {
      if list == [] {
        list := [entry];
      } else if 1 < |list| {
        list := list[..1];
      }
      RegisterLanguages(found);
      selected := 0;
      h := GetLangRsrcInstance();
    }

    /** Selects entry `index`: loads the new entry's DLL unless it is entry 0,
        forgets the old entry's handle unless it is entry 0, and switches the thread
        language.  An index past the end or equal to the current one changes
        nothing. */
    method ChangeLang(index: nat, loadLibrary: string -> Handle) returns (h: Handle)
      requires Valid()
      modifies this
      ensures Valid()
      ensures index >= |old(list)| || index == old(selected) ==>
        list == old(list) && selected == old(selected) && threadUiLang == old(threadUiLang) && h == GetLangRsrcInstance()
      ensures index < |old(list)| && index != old(selected) ==>
        && selected == index
        && |list| == |old(list)|
        && list[index].hInstance == (if index != 0 then loadLibrary(old(list)[index].dllPath) else app)
        && threadUiLang == list[index].langId
        && h == list[index].hInstance
        && (forall i :: 0 <= i < |list| && i != index && i != old(selected) ==> list[i] == old(list)[i])
        && (forall i :: 0 <= i < |list| ==> list[i].dllPath == old(list)[i].dllPath && list[i].langId == old(list)[i].langId)
    {
      if |list| <= index {
        return GetLangRsrcInstance();
      }
      var oldIndex := selected;
      if oldIndex == index {
        return GetLangRsrcInstance();
      }
      if index != 0 {
        list := list[index := list[index].(hInstance := loadLibrary(list[index].dllPath))];
      }
      if oldIndex != 0 {
        list := list[oldIndex := list[oldIndex].(hInstance := Null)];
      }
      selected := index;
      threadUiLang := list[selected].langId;
      h := list[selected].hInstance;
    }

    /** Selects the first entry whose DLL path is `path`; no match changes nothing. */
    method ChangeLangByPath(path: string, loadLibrary: string -> Handle)
      requires Valid()
      modifies this
      ensures Valid()
      ensures FindPath(old(list), path).None? ==>
        list == old(list) && selected == old(selected) && threadUiLang == old(threadUiLang)
      ensures FindPath(old(list), path) == Some(old(selected)) ==>
        list == old(list) && selected == old(selected) && threadUiLang == old(threadUiLang)
      ensures var found := FindPath(old(list), path);
        found.Some? && found.value != old(selected) ==>
        var index := found.value;
        && selected == index
        && |list| == |old(list)|
        && list[index].hInstance == (if index != 0 then loadLibrary(old(list)[index].dllPath) else app)
        && threadUiLang == list[index].langId
        && (forall i :: 0 <= i < |list| && i != index && i != old(selected) ==> list[i] == old(list)[i])
        && (forall i :: 0 <= i < |list| ==> list[i].dllPath == old(list)[i].dllPath && list[i].langId == old(list)[i].langId)
    {
      var i := 0;
      while i < |list| && list[i].dllPath != path
        invariant 0 <= i <= |list|
        invariant forall j :: 0 <= j < i ==> list[j].dllPath != path
      {
        i := i + 1;
      }
      if i < |list| {
        assert FindPath(list, path) == Some(i);
        var h := ChangeLang(i, loadLibrary);
      }
    }
  }

  /** Registering one more match extends the registered list by that match's entry. */
  lemma {:induction false} RegisteredSnoc(found: seq<FindData>, k: int)
    requires 0 <= k < |found|
    ensures Registered(found[..k + 1]) == Registered(found[..k]) +
      (if Accepted(found[k]) then [NewLangDll(found[k].fileName, Truncate(found[k].langName, MAX_SELLANG_NAME_STR), found[k].langId)] else [])
  {
    RegisteredAppend(found[..k], [found[k]]);
    assert found[..k] + [found[k]] == found[..k + 1];
  }

  lemma {:induction false} RegisteredAppend(a: seq<FindData>, b: seq<FindData>)
    ensures Registered(a + b) == Registered(a) + Registered(b)
  {
    if a != [] {
      assert (a + b)[0] == a[0];
      assert (a + b)[1..] == a[1..] + b;
      RegisteredAppend(a[1..], b);
    } else {
      assert a + b == b;
    }
  }

  /** Every registered entry is a file match whose name and id are present, in
      search order. */
  lemma {:induction false} RegisteredAccepted(found: seq<FindData>)
    ensures forall d :: d in Registered(found) ==>
      d.langName != [] && d.langId != 0 && exists f :: f in found && Accepted(f) && f.fileName == d.dllPath
  {
    if found != [] {
      RegisteredAccepted(found[1..]);
      forall d | d in Registered(found)
        ensures d.langName != [] && d.langId != 0 && exists f :: f in found && Accepted(f) && f.fileName == d.dllPath
      {
        if d !in Registered(found[1..]) {
          assert found[0] in found;
        } else {
          var f :| f in found[1..] && Accepted(f) && f.fileName == d.dllPath;
          assert f in found;
        }
      }
    }
  }

  // ---------------------------------------------------------------------------
  // String loading

  /** The characters before the first terminator. */
  function CString(a: seq<char>): (s: seq<char>)
    ensures |s| <= |a| && s <= a
    ensures '\0' !in s
  {
    if a == [] || a[0] == '\0' then [] else [a[0]] + CString(a[1..])
  }

  lemma {:induction false} CStringAt(a: seq<char>, n: int)
    requires 0 <= n < |a| && a[n] == '\0' && '\0' !in a[..n]
    ensures CString(a) == a[..n]
  {
    if n > 0 {
      assert a[0] in a[..n];
      assert a[1..][..n - 1] == a[1..n];
      CStringAt(a[1..], n - 1);
      assert a[..n] == [a[0]] + a[1..n];
    }
  }

  /** A terminated copy of a prefix of a string without terminators reads back as
      that prefix. */
  lemma TerminatedPrefix(a: seq<char>, t: string, n: int)
    requires 0 <= n < |a| && n <= |t| && a[..n] == t[..n] && a[n] == '\0' && '\0' !in t
    ensures CString(a) == t[..n]
  {
    assert forall i :: 0 <= i < n ==> a[..n][i] == t[i];
    CStringAt(a, n);
  }

  /** LoadStringW: copies as much of `text` as fits before the terminator and
      returns the number of characters copied (0 for a missing string). */
  method CopyResource(text: string, a: array<char>) returns (n: int)
    requires a.Length > 0
    modifies a
    ensures n == if |text| < a.Length - 1 then |text| else a.Length - 1
    ensures a[..n] == text[..n] && a[n] == '\0'
  {
    n := if |text| < a.Length - 1 then |text| else a.Length - 1;
    var i := 0;
    while i < n
      invariant 0 <= i <= n
      invariant a[..i] == text[..i]
    {
      a[i] := text[i];
      i := i + 1;
    }
    a[n] := '\0';
    assert a[..n] == text[..n];
  }

  /** wcslen: position of the first terminator. */
  method StrLen(a: array<char>, bound: int) returns (n: int)
    requires 0 <= bound < a.Length && a[bound] == '\0'
    ensures 0 <= n <= bound && a[n] == '\0' && '\0' !in a[..n]
  {
    n := 0;
    while a[n] != '\0'
      invariant 0 <= n <= bound
      invariant '\0' !in a[..n]
      decreases bound - n
    {
      assert a[..n + 1] == a[..n] + [a[n]];
      n := n + 1;
    }
  }

  /** The string a load of `uid` finds: the language module's own string, or the
      executable's when the language module is missing, not loaded or lacks it. */
  function ChosenText(langRsrc: Handle, app: Handle, rsrc: (Handle, int) -> string, uid: int): string
  {
    var h0 := if langRsrc == Null then app else langRsrc;
    if h0 != app && rsrc(h0, uid) != [] then rsrc(h0, uid) else rsrc(app, uid)
  }

  /** A string-load buffer: first its own 256-character array, later a larger
      array from the heap. */
  class LoadStrBuffer {
    const inlineBuf: array<char>
    var buf: array<char>
    var bufferSize: int
    var length: int

    ghost predicate Valid()
      reads this
    {
      && inlineBuf.Length == LOADSTR_ADD_SIZE
      && buf.Length == bufferSize
      && LOADSTR_ADD_SIZE <= bufferSize
      && ((buf == inlineBuf) == (bufferSize == LOADSTR_ADD_SIZE))
    }

    /** The loaded string, up to its terminator. */
    function Contents(): string
      reads this, buf
    {
      CString(buf[..])
    }

    /** A new buffer uses its inline array and holds the empty string. */
    constructor ()
      ensures Valid() && fresh(inlineBuf)
      ensures buf == inlineBuf && bufferSize == LOADSTR_ADD_SIZE && length == 0
      ensures Contents() == []
    {
      inlineBuf := new char[LOADSTR_ADD_SIZE](_ => '\0');
      new;
      buf := inlineBuf;
      bufferSize := LOADSTR_ADD_SIZE;
      length := 0;
    }

    /** The destructor frees the buffer only when it came from the heap. */
    method Destroy() returns (freed: bool)
      requires Valid()
      ensures freed <==> bufferSize != LOADSTR_ADD_SIZE
      ensures freed <==> buf != inlineBuf
    {
      freed := buf != inlineBuf;
    }

    /** The load loop: the text read, terminated, and its length. */
    method LoadGrowing(uid: int, langRsrc: Handle, app: Handle, rsrc: (Handle, int) -> string, alloc: int -> bool)
      returns (nRet: int)
      requires Valid() && app != Null
      modifies this`buf, this`bufferSize, buf
      ensures Valid()
      ensures buf == old(buf) || fresh(buf)
      ensures var t := ChosenText(langRsrc, app, rsrc, uid);
        && 0 <= nRet <= |t| && nRet < buf.Length
        && buf[..nRet] == t[..nRet] && buf[nRet] == '\0'
        && ((forall n :: alloc(n)) ==> nRet == |t|)
    {
      ghost var t := ChosenText(langRsrc, app, rsrc, uid);
      var h0 := if langRsrc == Null then app else langRsrc;
      var hRsrc := h0;
      nRet := 0;
      while true
        invariant Valid()
        invariant buf == old(buf) || fresh(buf)
        invariant hRsrc == h0 || hRsrc == app
        invariant hRsrc != h0 ==> rsrc(h0, uid) == []
        decreases if hRsrc == app then 0 else 1, |rsrc(hRsrc, uid)| + 1 - bufferSize
      {
        nRet := CopyResource(rsrc(hRsrc, uid), buf);
        if nRet == 0 {
          if hRsrc != app {
            hRsrc := app;
          } else {
            buf[0] := '\0';
            break;
          }
        } else if nRet >= bufferSize - 1 {
          var size := bufferSize + LOADSTR_ADD_SIZE;
          if alloc(size) {
            var p := new char[size](_ => '\0');
            buf := p;
            bufferSize := size;
          } else {
            var copied := nRet;
            nRet := StrLen(buf, copied);
            assert buf[..nRet] == buf[..copied][..nRet];
            break;
          }
        } else {
          break;
        }
      }
      assert rsrc(hRsrc, uid) == t;
    }

    /** Loads string `uid`: from the language module, falling back once to the
        executable when the string is missing there; while the string does not fit,
        the buffer grows by LOADSTR_ADD_SIZE and the load is repeated.  A failed
        allocation keeps what the last load got.  Returns the stored length. */
    method LoadString(uid: int, langRsrc: Handle, app: Handle, rsrc: (Handle, int) -> string, alloc: int -> bool)
      returns (nRet: int)
      requires Valid() && app != Null
      modifies this, buf
      ensures Valid()
      ensures buf == old(buf) || fresh(buf)
      ensures length == nRet && 0 <= nRet < buf.Length
      ensures var t := ChosenText(langRsrc, app, rsrc, uid);
        && 0 <= nRet <= |t|
        && buf[..nRet] == t[..nRet]
        && ('\0' !in t ==> Contents() == t[..nRet])
        && (t == [] ==> nRet == 0 && Contents() == [])
        && ((forall n :: alloc(n)) ==> nRet == |t|)
    {
      ghost var t := ChosenText(langRsrc, app, rsrc, uid);
      nRet := LoadGrowing(uid, langRsrc, app, rsrc, alloc);
      if '\0' !in t {
        TerminatedPrefix(buf[..], t, nRet);
      }
      length := nRet;
    }
  }

  /** The shared buffers of the short-lived string loads (the `LS` macro): a ring
      of five buffers and the index of the one used last. */
  class TempBuffers {
    const buffers: array<LoadStrBuffer>
    var index: int

    ghost predicate Valid()
      reads this, buffers, set i | 0 <= i < buffers.Length :: buffers[i]
    {
      && buffers.Length == TEMP_BUFFER_COUNT
      && 0 <= index < TEMP_BUFFER_COUNT
      && (forall i :: 0 <= i < TEMP_BUFFER_COUNT ==> buffers[i].Valid())
      && (forall i, j :: 0 <= i < j < TEMP_BUFFER_COUNT ==> buffers[i] != buffers[j] && buffers[i].buf != buffers[j].buf)
    }

    constructor ()
      ensures Valid() && index == 0
      ensures forall i :: 0 <= i < TEMP_BUFFER_COUNT ==> buffers[i].Contents() == []
    {
      var bs: seq<LoadStrBuffer> := [];
      for k := 0 to TEMP_BUFFER_COUNT
        invariant |bs| == k
        invariant forall i :: 0 <= i < k ==> bs[i].Valid() && bs[i].Contents() == []
        invariant forall i, j :: 0 <= i < j < k ==> bs[i] != bs[j] && bs[i].buf != bs[j].buf
      {
        var b := new LoadStrBuffer();
        bs := bs + [b];
      }
      buffers := new LoadStrBuffer[TEMP_BUFFER_COUNT](i requires 0 <= i < TEMP_BUFFER_COUNT => bs[i]);
      index := 0;
    }

    /** LS(uid): moves to the next buffer of the ring, loads the string there and
        returns it; the other four buffers keep their strings. */
    method LoadStringSt(uid: int, langRsrc: Handle, app: Handle, rsrc: (Handle, int) -> string, alloc: int -> bool)
      returns (s: string)
      requires Valid() && app != Null
      modifies this, buffers[(index + 1) % TEMP_BUFFER_COUNT], buffers[(index + 1) % TEMP_BUFFER_COUNT].buf
      ensures Valid()
      ensures index == (old(index) + 1) % TEMP_BUFFER_COUNT
      ensures s == buffers[index].Contents()
      ensures var b := buffers[index]; b.buf == old(b.buf) || fresh(b.buf)
      ensures var t := ChosenText(langRsrc, app, rsrc, uid);
        '\0' !in t && (forall n :: alloc(n)) ==> s == t
      ensures forall j :: 0 <= j < TEMP_BUFFER_COUNT && j != index ==>
        buffers[j].buf == old(buffers[j].buf) && buffers[j].Contents() == old(buffers[j].Contents())
    {
      index := (index + 1) % TEMP_BUFFER_COUNT;
      var n := buffers[index].LoadString(uid, langRsrc, app, rsrc, alloc);
      s := buffers[index].Contents();
    }

    /** The last five strings of a run that started with the ring at `start` are
        still in the buffers they were loaded into. */
    ghost predicate RecentIntact(start: int, strs: seq<string>)
      reads this, buffers, set i | 0 <= i < buffers.Length :: buffers[i]
      reads set i | 0 <= i < buffers.Length :: buffers[i].buf
      requires Valid()
    {
      forall k :: 0 <= k < |strs| && |strs| <= k + TEMP_BUFFER_COUNT ==> buffers[Slot(start, k)].Contents() == strs[k]
    }

    /** A run of LS calls, one per id: each of the run's last five strings is still
        in the buffer it was loaded into, so a string survives the four calls after
        it, and the ring ends where the calls moved it. */
    method LoadRun(uids: seq<int>, langRsrc: Handle, app: Handle, rsrc: (Handle, int) -> string, alloc: int -> bool)
      returns (strs: seq<string>)
      requires Valid() && app != Null
      modifies this, set i | 0 <= i < buffers.Length :: buffers[i], set i | 0 <= i < buffers.Length :: buffers[i].buf
      ensures Valid()
      ensures |strs| == |uids|
      ensures index == (old(index) + |uids|) % TEMP_BUFFER_COUNT
      ensures forall k :: 0 <= k < |uids| && |uids| <= k + TEMP_BUFFER_COUNT ==>
        buffers[Slot(old(index), k)].Contents() == strs[k]
    {
      ghost var start := index;
      ghost var bufs0 := set i | 0 <= i < buffers.Length :: buffers[i].buf;
      strs := [];
      for i := 0 to |uids|
        invariant Valid()
        invariant |strs| == i
        invariant index == RingAt(start, i)
        invariant forall j :: 0 <= j < TEMP_BUFFER_COUNT ==> buffers[j].buf in bufs0 || fresh(buffers[j].buf)
        invariant RecentIntact(start, strs)
      {
        var s := LoadNext(uids[i], langRsrc, app, rsrc, alloc, start, strs);
        strs := strs + [s];
      }
    }

    /** One call of a run: LS, with the run's recent strings kept intact. */
    method LoadNext(uid: int, langRsrc: Handle, app: Handle, rsrc: (Handle, int) -> string, alloc: int -> bool,
                    ghost start: int, ghost strs: seq<string>)
      returns (s: string)
      requires Valid() && app != Null && 0 <= start < TEMP_BUFFER_COUNT
      requires index == RingAt(start, |strs|) && RecentIntact(start, strs)
      modifies this, buffers[(index + 1) % TEMP_BUFFER_COUNT], buffers[(index + 1) % TEMP_BUFFER_COUNT].buf
      ensures Valid()
      ensures index == RingAt(start, |strs| + 1)
      ensures RecentIntact(start, strs + [s])
      ensures var b := buffers[index]; b.buf == old(b.buf) || fresh(b.buf)
      ensures forall j :: 0 <= j < TEMP_BUFFER_COUNT && j != index ==> buffers[j].buf == old(buffers[j].buf)
    {
      var i := |strs|;
      label Before:
      s := LoadStringSt(uid, langRsrc, app, rsrc, alloc);
      SlotStep(start + i);
      assert index == Slot(start, i);
      var after := strs + [s];
      forall k | 0 <= k <= i && i + 1 <= k + TEMP_BUFFER_COUNT
        ensures buffers[Slot(start, k)].Contents() == after[k]
      {
        if k < i {
          NextFourLoadsUseOtherBuffers(start, k, i);
          var j := Slot(start, k);
          assert buffers[j].Contents() == old@Before(buffers[j].Contents());
        }
      }
    }
  }

  /** The ring position after `n` loads of a run that started at `start`. */
  function RingAt(start: int, n: nat): int
  {
    (start + n) % TEMP_BUFFER_COUNT
  }

  /** The slot the `k`-th load of a run uses when the ring stood at `start` before
      the run. */
  function Slot(start: int, k: nat): (j: int)
    ensures 0 <= j < TEMP_BUFFER_COUNT
  {
    (start + k + 1) % TEMP_BUFFER_COUNT
  }

  /** Moving one step along the ring from position `x`. */
  lemma SlotStep(x: nat)
    ensures (x % TEMP_BUFFER_COUNT + 1) % TEMP_BUFFER_COUNT == (x + 1) % TEMP_BUFFER_COUNT
  {
    var q, r := x / TEMP_BUFFER_COUNT, x % TEMP_BUFFER_COUNT;
    assert x == TEMP_BUFFER_COUNT * q + r;
    if r + 1 == TEMP_BUFFER_COUNT {
      assert x + 1 == TEMP_BUFFER_COUNT * (q + 1);
    } else {
      assert x + 1 == TEMP_BUFFER_COUNT * q + (r + 1);
    }
  }

  /** The four loads after load `k` of a run use the four other buffers; the fifth
      reuses its buffer. */
  lemma NextFourLoadsUseOtherBuffers(start: int, k: nat, i: nat)
    requires 0 <= start < TEMP_BUFFER_COUNT
    ensures k < i < k + TEMP_BUFFER_COUNT ==> Slot(start, i) != Slot(start, k)
    ensures Slot(start, k + TEMP_BUFFER_COUNT) == Slot(start, k)
  {
    var a, b := start + k + 1, start + i + 1;
    var qa, qb := a / TEMP_BUFFER_COUNT, b / TEMP_BUFFER_COUNT;
    assert a == TEMP_BUFFER_COUNT * qa + a % TEMP_BUFFER_COUNT;
    assert b == TEMP_BUFFER_COUNT * qb + b % TEMP_BUFFER_COUNT;
    assert a + TEMP_BUFFER_COUNT == TEMP_BUFFER_COUNT * (qa + 1) + a % TEMP_BUFFER_COUNT;
  }
}
