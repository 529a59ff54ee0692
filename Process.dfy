/** Process bookkeeping: assembling the command line and start-up options of a new
    editor process, the name of the start-up synchronisation event, the settings
    file name and the run sequence of a process. */
module Process {
  import opened Common

  /** The characters that make an argument need quotes on a command line. */
  const SPECIAL_CHARS: string := " <>|()&"

  const CREATE_DEFAULT_ERROR_MODE: bv32 := 0x0400_0000
  const STARTF_USESHOWWINDOW: bv32 := 0x1
  const STARTF_FORCEONFEEDBACK: bv32 := 0x40
  const STARTF_PREVENTPINNING: bv32 := 0x2000
  const SW_SHOWDEFAULT := 10

  const NOWIN_OPTION: string := "-NOWIN"
  const CONTROL_PROCESS_TITLE: string := "sakura control process"
  const EVENT_NAME_PREFIX: string := "SakuraThread-0x"

  /** The default install location of the editor. */
  const PROGRAM_FILES_EXE: string := "C:\\Program Files\\sakura\\sakura.exe"

  // ---------------------------------------------------------------------------
  // Searching strings

  /** `pat` occurs in `s` at position `i`. */
  predicate OccursAt(s: string, pat: string, i: int)
  {
    0 <= i && i + |pat| <= |s| && s[i..i + |pat|] == pat
  }

  /** wstring::find from position `from`: the first occurrence of `pat` there or
      later. */
  function FindFrom(s: string, pat: string, from: nat): (r: Option<nat>)
    ensures r.Some? ==> from <= r.value && OccursAt(s, pat, r.value)
    ensures r.Some? ==> forall i :: from <= i < r.value ==> !OccursAt(s, pat, i)
    ensures r.None? ==> forall i :: from <= i ==> !OccursAt(s, pat, i)
    decreases |s| - from
  {
    if |s| < from + |pat| then None
    else if s[from..from + |pat|] == pat then Some(from)
    else FindFrom(s, pat, from + 1)
  }

  /** wstring::find: the first occurrence of `pat` in `s`. */
  function Find(s: string, pat: string): Option<nat>
  {
    FindFrom(s, pat, 0)
  }

  /** Some character of `s` is one of `chars` (wstring::find_first_of succeeds). */
  predicate ContainsAny(s: string, chars: string)
  {
    exists i :: 0 <= i < |s| && s[i] in chars
  }

  /** An occurrence of a pattern contains every character of the pattern. */
  lemma FoundHasAll(s: string, pat: string)
    requires Find(s, pat).Some?
    ensures forall c :: c in pat ==> c in s
  {
    var k := Find(s, pat).value;
    assert OccursAt(s, pat, k);
    forall c | c in pat
      ensures c in s
    {
      var j :| 0 <= j < |pat| && pat[j] == c;
      assert s[k..k + |pat|][j] == s[k + j];
    }
  }

  /** A pattern with a character `s` lacks does not occur in `s`. */
  lemma MissingCharNotFound(s: string, pat: string, j: int)
    requires 0 <= j < |pat| && pat[j] !in s
    ensures Find(s, pat).None?
  {
  }

  /** `.` in an ECMAScript regular expression: anything but a line terminator. */
  predicate LineTerminator(c: char)
  {
    c == '\n' || c == '\r' || c == '\U{2028}' || c == '\U{2029}'
  }

  /** The whole-string match of `^.*"$`: the argument ends with a double quote and
      has no line terminator. */
  predicate EndsWithQuote(b: string)
  {
    0 < |b| && b[|b| - 1] == '"' && forall i :: 0 <= i < |b| ==> !LineTerminator(b[i])
  }

  // ---------------------------------------------------------------------------
  // Joining arguments

  /** The quoting test as written: the seven special characters must occur together,
      in order, as one substring. */
  predicate NeedsQuoteAsWritten(b: string)
  {
    !EndsWithQuote(b) && Find(b, SPECIAL_CHARS).Some?
  }

  /** The quoting test as intended: any one special character. */
  predicate NeedsQuote(b: string)
  {
    !EndsWithQuote(b) && ContainsAny(b, SPECIAL_CHARS)
  }

  /** Which quoting a command line is built with: the substring test the source
      applies, or the any-character test it evidently means. */
  datatype Quoting = AsWritten | Intended

  /** Whether an argument is quoted. */
  predicate ArgQuoted(q: Quoting, b: string)
  {
    if q == AsWritten then NeedsQuoteAsWritten(b) else NeedsQuote(b)
  }

  /** Whether the executable path is quoted; no closing-quote exception applies. */
  predicate ExeQuoted(q: Quoting, path: string)
  {
    if q == AsWritten then Find(path, SPECIAL_CHARS).Some? else ContainsAny(path, SPECIAL_CHARS)
  }

  /** How one argument appears on the command line: after a space, in quotes when
      the test fires. */
  function ArgPiece(q: Quoting, b: string): string
  {
    if ArgQuoted(q, b) then " \"" + b + "\"" else " " + b
  }

  /** CombineArg: `a` followed by the piece for `b`. */
  function CombineArg(q: Quoting, a: string, b: string): string
  {
    a + ArgPiece(q, b)
  }

  /** std::accumulate of CombineArg over the arguments, from the empty string. */
  function JoinArgs(q: Quoting, args: seq<string>): string
  {
    if args == [] then "" else CombineArg(q, JoinArgs(q, args[..|args| - 1]), args[|args| - 1])
  }

  /** The pieces of all arguments, in order. */
  function Pieces(q: Quoting, args: seq<string>): string
  {
    if args == [] then "" else ArgPiece(q, args[0]) + Pieces(q, args[1..])
  }

  lemma {:induction false} PiecesSnoc(q: Quoting, args: seq<string>, b: string)
    ensures Pieces(q, args + [b]) == Pieces(q, args) + ArgPiece(q, b)
  {
    if args == [] {
      assert args + [b] == [b];
    } else {
      assert (args + [b])[1..] == args[1..] + [b];
      PiecesSnoc(q, args[1..], b);
    }
  }

  /** Folding CombineArg yields every argument's piece, in order: each argument is
      preceded by exactly one space and quoted when the test fires. */
  lemma {:induction false} JoinArgsPieces(q: Quoting, args: seq<string>)
    ensures JoinArgs(q, args) == Pieces(q, args)
  {
    if args != [] {
      var init, last := args[..|args| - 1], args[|args| - 1];
      assert init + [last] == args;
      JoinArgsPieces(q, init);
      PiecesSnoc(q, init, last);
    }
  }

  /** The written test only fires where the intended one does. */
  lemma AsWrittenImpliesIntended(b: string)
    requires NeedsQuoteAsWritten(b)
    ensures NeedsQuote(b)
  {
    FoundSpecialContainsAny(b);
  }

  /** Where the whole sequence occurs, its space occurs. */
  lemma FoundSpecialContainsAny(s: string)
    requires Find(s, SPECIAL_CHARS).Some?
    ensures ContainsAny(s, SPECIAL_CHARS)
  {
    FoundHasAll(s, SPECIAL_CHARS);
    assert ' ' in SPECIAL_CHARS;
    var i :| 0 <= i < |s| && s[i] == ' ';
  }

  /** Without any special character the written substring test cannot fire. */
  lemma PlainNotFound(s: string)
    requires !ContainsAny(s, SPECIAL_CHARS)
    ensures Find(s, SPECIAL_CHARS).None?
  {
    if Find(s, SPECIAL_CHARS).Some? {
      FoundSpecialContainsAny(s);
    }
  }

  /** An argument holding a special character, not closed by a quote, is quoted by
      the intended test, after whatever came before it. */
  lemma SpecialArgQuoted(a: string, b: string)
    requires ContainsAny(b, SPECIAL_CHARS) && !EndsWithQuote(b)
    ensures CombineArg(Intended, a, b) == a + " \"" + b + "\""
  {
  }

  /** An executable path holding a special character is quoted by the intended
      test. */
  lemma SpecialExeQuoted(path: string)
    requires ContainsAny(path, SPECIAL_CHARS)
    ensures QuotedExe(Intended, path) == "\"" + path + "\""
  {
  }

  /** The written test lets an argument with a space through unquoted, so the
      started process sees two arguments instead of one. */
  lemma AsWrittenLeavesSpaceUnquoted()
    ensures CombineArg(AsWritten, "", "a b") == " a b"
    ensures CombineArg(Intended, "", "a b") == " \"a b\""
  {
    MissingCharNotFound("a b", SPECIAL_CHARS, 1);
    assert "a b"[1] in SPECIAL_CHARS;
  }

  /** The same for every argument with a space but without the rest of the
      sequence. */
  lemma AsWrittenArgUnquoted(a: string, b: string)
    requires ' ' in b && '<' !in b && !EndsWithQuote(b)
    ensures CombineArg(AsWritten, a, b) == a + " " + b
    ensures CombineArg(Intended, a, b) == a + " \"" + b + "\""
  {
    MissingCharNotFound(b, SPECIAL_CHARS, 1);
    assert !ArgQuoted(AsWritten, b);
    var i :| 0 <= i < |b| && b[i] == ' ';
    assert b[i] in SPECIAL_CHARS;
    assert ArgQuoted(Intended, b);
  }

  /** The executable path, quoted when the test fires. */
  function QuotedExe(q: Quoting, path: string): string
  {
    if ExeQuoted(q, path) then "\"" + path + "\"" else path
  }

  /** An install path with a space but without the rest of the sequence stays
      unquoted as written, so the command line splits inside the path. */
  lemma AsWrittenExeUnquoted(path: string)
    requires ' ' in path && '<' !in path
    ensures QuotedExe(AsWritten, path) == path
    ensures QuotedExe(Intended, path) == "\"" + path + "\""
  {
    MissingCharNotFound(path, SPECIAL_CHARS, 1);
    var i :| 0 <= i < |path| && path[i] == ' ';
    assert path[i] in SPECIAL_CHARS;
  }

  /** The usual install location shows it: as written its path stays bare, so the
      command line's first word is "C:\Program". */
  lemma AsWrittenProgramFilesUnquoted()
    ensures QuotedExe(AsWritten, PROGRAM_FILES_EXE) == PROGRAM_FILES_EXE
    ensures QuotedExe(Intended, PROGRAM_FILES_EXE) == "\"" + PROGRAM_FILES_EXE + "\""
  {
    assert PROGRAM_FILES_EXE[10] == ' ';
    assert '<' !in PROGRAM_FILES_EXE;
    AsWrittenExeUnquoted(PROGRAM_FILES_EXE);
  }

  /** A command line starts with the executable path as the quoting leaves it. */
  lemma AsWrittenCommandStartsBare(exePath: string, profile: Option<string>, args: seq<string>)
    requires ' ' in exePath && '<' !in exePath
    ensures Command(AsWritten, exePath, profile, args)[..|exePath|] == exePath
    ensures Command(Intended, exePath, profile, args)[..|exePath| + 2] == "\"" + exePath + "\""
  {
    AsWrittenExeUnquoted(exePath);
  }

  // ---------------------------------------------------------------------------
  // Starting a process

  /** What CreateProcessW is handed besides the executable path. */
  datatype LaunchPlan = LaunchPlan(
    command: string,
    creationFlags: bv32,
    curDir: Option<string>,
    startupFlags: bv32,
    title: Option<string>,
    showWindow: Option<int>)

  /** The profile option, present whenever a profile is given, even an empty one. */
  function ProfileOption(profile: Option<string>): string
  {
    if profile.Some? then " -PROF=\"" + profile.value + "\"" else ""
  }

  /** The command line under quoting `q`: the executable first, the profile option,
      then every argument's piece. */
  function Command(q: Quoting, exePath: string, profile: Option<string>, args: seq<string>): (c: string)
    ensures |QuotedExe(q, exePath)| <= |c| && c[..|QuotedExe(q, exePath)|] == QuotedExe(q, exePath)
    ensures |Pieces(q, args)| <= |c| && c[|c| - |Pieces(q, args)|..] == Pieces(q, args)
  {
    QuotedExe(q, exePath) + ProfileOption(profile) + Pieces(q, args)
  }

  /** Both pieces agree on an argument without a special character. */
  lemma PlainPiecesAgree(args: seq<string>)
    requires forall k :: 0 <= k < |args| ==> !ContainsAny(args[k], SPECIAL_CHARS)
    ensures Pieces(AsWritten, args) == Pieces(Intended, args)
  {
    if args != [] {
      PlainNotFound(args[0]);
      PlainPiecesAgree(args[1..]);
    }
  }

  /** The written command differs from the intended one only where a special
      character occurs: without any, in the path or the arguments, both are the
      same string. */
  lemma CommandsAgreeWithoutSpecials(exePath: string, profile: Option<string>, args: seq<string>)
    requires !ContainsAny(exePath, SPECIAL_CHARS)
    requires forall k :: 0 <= k < |args| ==> !ContainsAny(args[k], SPECIAL_CHARS)
    ensures Command(AsWritten, exePath, profile, args) == Command(Intended, exePath, profile, args)
  {
    PlainNotFound(exePath);
    PlainPiecesAgree(args);
  }

  /** Builds the command line step by step as the source does: the executable,
      quoted by the written test, the profile option, then the arguments folded
      with the written CombineArg. */
  method BuildCommand(exePath: string, profile: Option<string>, args: seq<string>) returns (command: string)
    ensures command == Command(AsWritten, exePath, profile, args)
  {
    command := QuotedExe(AsWritten, exePath);
    if profile.Some? {
      command := command + " -PROF=\"" + profile.value + "\"";
    }
    var tail := CombineArgs(args);
    command := command + tail;
  }

  /** The argument loop of the command assembly: folds the written CombineArg over
      the arguments, which gives their pieces in order. */
  method CombineArgs(args: seq<string>) returns (tail: string)
    ensures tail == Pieces(AsWritten, args)
  {
    tail := "";
    for i := 0 to |args|
      invariant tail == JoinArgs(AsWritten, args[..i])
    {
      assert args[..i + 1][..i] == args[..i];
      tail := CombineArg(AsWritten, tail, args[i]);
    }
    assert args[..|args|] == args;
    JoinArgsPieces(AsWritten, args);
  }

  /** Builds the command line, with the written quoting, and start-up settings: the
      `-NOWIN` option starts the control process in the system directory, with
      pinning prevented and a title; any other start shows the window in its
      default state in the given directory, which is dropped when it is not a
      directory. */
  method StartSakuraProcess(exePath: string, profile: Option<string>, args: seq<string>, curDir: Option<string>,
                            isDirectory: string -> bool, systemDir: string)
    returns (plan: LaunchPlan)
    ensures plan.command == Command(AsWritten, exePath, profile, args)
    ensures plan.creationFlags == CREATE_DEFAULT_ERROR_MODE
    ensures plan.startupFlags & STARTF_FORCEONFEEDBACK != 0
    ensures (plan.startupFlags & STARTF_PREVENTPINNING != 0) <==> NOWIN_OPTION in args
    ensures (plan.startupFlags & STARTF_USESHOWWINDOW != 0) <==> NOWIN_OPTION !in args
    ensures NOWIN_OPTION in args ==>
      plan.curDir == Some(systemDir) && plan.title == Some(CONTROL_PROCESS_TITLE) && plan.showWindow == None
    ensures NOWIN_OPTION !in args ==>
      && plan.showWindow == Some(SW_SHOWDEFAULT) && plan.title == None
      && plan.curDir == (if curDir.Some? && isDirectory(curDir.value) then curDir else None)
  {
    var command := BuildCommand(exePath, profile, args);
    var dir := curDir;
    if dir.Some? && !isDirectory(dir.value) {
      dir := None;
    }
    var flags := STARTF_FORCEONFEEDBACK;
    var title: Option<string> := None;
    var show: Option<int> := None;
    if NOWIN_OPTION in args {
      dir := Some(systemDir);
      flags := flags | STARTF_PREVENTPINNING;
      title := Some(CONTROL_PROCESS_TITLE);
    } else {
      flags := flags | STARTF_USESHOWWINDOW;
      show := Some(SW_SHOWDEFAULT);
    }
    plan := LaunchPlan(command, CREATE_DEFAULT_ERROR_MODE, dir, flags, title, show);
  }

  // ---------------------------------------------------------------------------
  // The synchronisation event

  function HexDigit(d: int): char
    requires 0 <= d < 16
  {
    "0123456789abcdef"[d]
  }

  function HexValue(c: char): (v: nat)
    ensures v < 16
  {
    if '0' <= c <= '9' then c as int - '0' as int
    else if 'a' <= c <= 'f' then c as int - 'a' as int + 10
    else 0
  }

  function Pow16(k: nat): (p: nat)
    ensures 0 < p
  {
    if k == 0 then 1 else 16 * Pow16(k - 1)
  }

  /** `%0<k>x`: the low `k` hex digits of `n`, most significant first, in lower case. */
  function Hex(n: nat, k: nat): (s: string)
    ensures |s| == k
  {
    if k == 0 then [] else Hex(n / 16, k - 1) + [HexDigit(n % 16)]
  }

  /** Reads lower-case hex digits back into a number. */
  function ParseHex(s: string): nat
  {
    if s == [] then 0 else ParseHex(s[..|s| - 1]) * 16 + HexValue(s[|s| - 1])
  }

  /** Parsing the digits gives back the number they were printed from, when it has
      at most that many digits. */
  lemma {:induction false} HexRoundTrip(n: nat, k: nat)
    requires n < Pow16(k)
    ensures ParseHex(Hex(n, k)) == n
  {
    if k > 0 {
      var q, r := n / 16, n % 16;
      DivBound(n, Pow16(k - 1));
      HexRoundTrip(q, k - 1);
      HexDigitValue(r);
      var c := HexDigit(r);
      ParseHexSnoc(Hex(q, k - 1), c);
      assert Hex(n, k) == Hex(q, k - 1) + [c];
      assert n == q * 16 + r;
    }
  }

  lemma DivBound(n: nat, p: nat)
    requires n < 16 * p
    ensures n / 16 < p
  {
  }

  /** Appending a digit shifts the value one hex place. */
  lemma ParseHexSnoc(s: string, c: char)
    ensures ParseHex(s + [c]) == ParseHex(s) * 16 + HexValue(c)
  {
    assert (s + [c])[..|s|] == s;
  }

  /** Each digit reads back as its value. */
  lemma HexDigitValue(d: int)
    requires 0 <= d < 16
    ensures HexValue(HexDigit(d)) == d
  {
  }

  /** The event a new process signals when started: "SakuraThread-0x" and the thread
      id as eight hex digits. */
  function EventName(threadId: nat): (name: string)
    requires threadId < 0x1_0000_0000
    ensures |name| == |EVENT_NAME_PREFIX| + 8 && name[..|EVENT_NAME_PREFIX|] == EVENT_NAME_PREFIX
  {
    EVENT_NAME_PREFIX + Hex(threadId, 8)
  }

  /** The name gives the thread id back, so different threads use different events. */
  lemma EventNameRoundTrip(threadId: nat)
    requires threadId < 0x1_0000_0000
    ensures ParseHex(EventName(threadId)[|EVENT_NAME_PREFIX|..]) == threadId
  {
    assert EventName(threadId)[|EVENT_NAME_PREFIX|..] == Hex(threadId, 8);
    assert Pow16(8) == 0x1_0000_0000;
    HexRoundTrip(threadId, 8);
  }

  lemma EventNameInjective(t1: nat, t2: nat)
    requires t1 < 0x1_0000_0000 && t2 < 0x1_0000_0000 && t1 != t2
    ensures EventName(t1) != EventName(t2)
  {
    EventNameRoundTrip(t1);
    EventNameRoundTrip(t2);
  }

  /** Signals the event of the current thread when it exists; `setEvent` is the
      result of signalling it. */
  function SetSyncEvent(threadId: nat, eventExists: string -> bool, setEvent: bool): (r: bool)
    requires threadId < 0x1_0000_0000
    ensures r <==> eventExists(EventName(threadId)) && setEvent
  {
    if eventExists(EventName(threadId)) then setEvent else false
  }

  // ---------------------------------------------------------------------------
  // The settings file

  /** Length of a file name without its extension: the extension starts at the last
      period, unless that period opens the name or the name is "." or "..". */
  function StemLength(name: string): (n: nat)
    ensures n <= |name|
    ensures 0 < |name| ==> 0 < n
  {
    if name == "." || name == ".." then |name| else LastDotStem(name, |name|)
  }

  function LastDotStem(name: string, k: nat): (n: nat)
    requires k <= |name|
    ensures n <= |name|
    ensures n < |name| ==> 0 < n && name[n] == '.'
    ensures forall i :: n < i < k ==> name[i] != '.'
  {
    if k <= 1 then |name|
    else if name[k - 1] == '.' then k - 1
    else LastDotStem(name, k - 1)
  }

  /** path::replace_extension: the file name loses its extension and gets `ext`. */
  function ReplaceExtension(p: string, ext: string): (r: string)
    ensures DirLength(p) + |ext| <= |r| && r[..DirLength(p)] == p[..DirLength(p)]
    ensures r[|r| - |ext|..] == ext
  {
    var d := DirLength(p);
    var name := p[d..];
    p[..d] + name[..StemLength(name)] + ext
  }

  /** The settings file: the private one when private settings are in use, else the
      executable's path with the extension ".ini". */
  function GetIniFileName(privateSettings: bool, privateIniFile: string, exePath: string): (r: string)
    ensures privateSettings ==> r == privateIniFile
    ensures !privateSettings ==> 4 <= |r| && r[|r| - 4..] == ".ini"
  {
    if privateSettings then privateIniFile else ReplaceExtension(exePath, ".ini")
  }

  // ---------------------------------------------------------------------------
  // Running

  datatype RunStep = InitializeProcess | MainLoop | OnExitProcess

  /** Initialises, and only when that succeeds runs the main loop and the exit
      handler; returns whether initialisation succeeded. */
  method Run(initialized: bool) returns (r: bool, trace: seq<RunStep>)
    ensures r == initialized
    ensures initialized ==> trace == [InitializeProcess, MainLoop, OnExitProcess]
    ensures !initialized ==> trace == [InitializeProcess]
  {
    trace := [InitializeProcess];
    if initialized {
      trace := trace + [MainLoop];
      trace := trace + [OnExitProcess];
      return true, trace;
    }
    return false, trace;
  }
}
