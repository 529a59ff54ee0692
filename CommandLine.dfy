/** The command-line parser's result object: the numeric option reader that
    accepts a quoted number, the list of extra files, the optional macro and
    profile strings, and the initial values of the mode flags. */
module CmdLine {
  import opened Common

  const INT_MAX: int := 0x7fff_ffff
  const INT_MIN: int := -0x8000_0000

  // ---------------------------------------------------------------------------
  // Numbers in options

  /** The characters `iswspace` accepts in the C locale. */
  predicate IsSpace(c: char)
  {
    c == ' ' || '\t' <= c <= '\r'
  }

  predicate IsDigit(c: char)
  {
    '0' <= c <= '9'
  }

  predicate AllDigits(d: string)
  {
    forall i :: 0 <= i < |d| ==> IsDigit(d[i])
  }

  /** The run of decimal digits at the start of `s`. */
  function LeadingDigits(s: string): (d: string)
    ensures AllDigits(d)
  {
    if s != [] && IsDigit(s[0]) then [s[0]] + LeadingDigits(s[1..]) else []
  }

  /** The value of a string of decimal digits, most significant first. */
  function DigitsValue(d: string): (v: nat)
    requires AllDigits(d)
  {
    if d == [] then 0 else DigitsValue(d[..|d| - 1]) * 10 + (d[|d| - 1] as int - '0' as int)
  }

  /** `s` without its leading white space. */
  function SkipSpaces(s: string): string
  {
    if s != [] && IsSpace(s[0]) then SkipSpaces(s[1..]) else s
  }

  /** An out-of-range conversion yields the nearest 32-bit limit. */
  function Clamp32(v: int): (r: int)
    ensures INT_MIN <= r <= INT_MAX
    ensures INT_MIN <= v <= INT_MAX ==> r == v
    ensures v > INT_MAX ==> r == INT_MAX
    ensures v < INT_MIN ==> r == INT_MIN
  {
    if v > INT_MAX then INT_MAX else if v < INT_MIN then INT_MIN else v
  }

  /** An optional sign, then as many decimal digits as follow; anything else
      ends the number, and no digits give 0. */
  function SignedDigits(t: string): int
  {
    if t != [] && t[0] == '-' then 0 - DigitsValue(LeadingDigits(t[1..]))
    else if t != [] && t[0] == '+' then DigitsValue(LeadingDigits(t[1..]))
    else DigitsValue(LeadingDigits(t))
  }

  /** `_wtoi`: leading white space is skipped, then a signed decimal number is
      read and limited to the 32-bit range. */
  function Wtoi(s: string): (r: int)
    ensures INT_MIN <= r <= INT_MAX
  {
    Clamp32(SignedDigits(SkipSpaces(s)))
  }

  /** A numeric option value, read after skipping one opening double or single
      quote when there is one. */
  function AtoiOptionInt(arg: string): (r: int)
    ensures INT_MIN <= r <= INT_MAX
  {
    if arg != [] && (arg[0] == '"' || arg[0] == '\'') then Wtoi(arg[1..]) else Wtoi(arg)
  }

  /** The decimal digit of `k`. */
  function Digit(k: nat): (c: char)
    requires k < 10
    ensures IsDigit(c) && c as int - '0' as int == k
  {
    ('0' as int + k) as char
  }

  /** The decimal spelling of a natural number, without leading zeros. */
  function ShowNat(m: nat): (s: string)
    ensures s != [] && AllDigits(s)
  {
    if m < 10 then [Digit(m)] else ShowNat(m / 10) + [Digit(m % 10)]
  }

  /** The decimal spelling of an integer, with a minus sign when negative. */
  function ShowInt(n: int): (s: string)
  {
    if n < 0 then "-" + ShowNat(-n) else ShowNat(n)
  }

  /** Reading back a spelled natural number gives that number. */
  lemma {:induction false} DigitsValueShowNat(m: nat)
    ensures DigitsValue(ShowNat(m)) == m
  {
    if m >= 10 {
      DigitsValueShowNat(m / 10);
      var s := ShowNat(m);
      assert s[..|s| - 1] == ShowNat(m / 10);
    }
  }

  /** The digit run of digits followed by a non-digit is those digits. */
  lemma {:induction false} LeadingDigitsOfDigits(d: string, rest: string)
    requires AllDigits(d)
    requires rest == [] || !IsDigit(rest[0])
    ensures LeadingDigits(d + rest) == d
  {
    if d != [] {
      assert (d + rest)[1..] == d[1..] + rest;
      LeadingDigitsOfDigits(d[1..], rest);
    } else {
      assert d + rest == rest;
    }
  }

  /** A spelled integer followed by a non-digit or nothing reads as itself. */
  lemma SignedDigitsShowInt(n: int, rest: string)
    requires rest == [] || !IsDigit(rest[0])
    ensures SignedDigits(ShowInt(n) + rest) == n
  {
    if n < 0 {
      var d := ShowNat(-n);
      var s := "-" + d + rest;
      assert s[0] == '-' && s[1..] == d + rest;
      LeadingDigitsOfDigits(d, rest);
      DigitsValueShowNat(-n);
    } else {
      var d := ShowNat(n);
      assert IsDigit((d + rest)[0]);
      LeadingDigitsOfDigits(d, rest);
      DigitsValueShowNat(n);
    }
  }

  /** A spelled integer starts with a minus sign or a digit. */
  lemma ShowIntStart(n: int, rest: string)
    ensures var s := ShowInt(n) + rest; s != [] && (s[0] == '-' || IsDigit(s[0]))
  {
    if n >= 0 {
      assert ShowNat(n)[0] == (ShowNat(n) + rest)[0];
    }
  }

  /** Any 32-bit integer spelled in decimal and followed by a non-digit (a closing
      quote, say) or nothing reads back as itself. */
  lemma WtoiShowInt(n: int, rest: string)
    requires INT_MIN <= n <= INT_MAX
    requires rest == [] || !IsDigit(rest[0])
    ensures Wtoi(ShowInt(n) + rest) == n
  {
    ShowIntStart(n, rest);
    assert SkipSpaces(ShowInt(n) + rest) == ShowInt(n) + rest;
    SignedDigitsShowInt(n, rest);
  }

  /** A number given bare is read as that number. */
  lemma BareOptionInt(n: int)
    requires INT_MIN <= n <= INT_MAX
    ensures AtoiOptionInt(ShowInt(n)) == n
  {
    var s := ShowInt(n);
    WtoiShowInt(n, []);
    ShowIntStart(n, []);
    assert s + [] == s;
  }

  /** A number opened by a double or single quote, and perhaps closed by one, is
      read as that number. */
  lemma QuotedOptionInt(n: int, q: char)
    requires INT_MIN <= n <= INT_MAX
    requires q == '"' || q == '\''
    ensures AtoiOptionInt([q] + ShowInt(n)) == n
    ensures AtoiOptionInt([q] + ShowInt(n) + [q]) == n
  {
    var s := ShowInt(n);
    WtoiShowInt(n, []);
    assert s + [] == s;
    assert ([q] + s)[1..] == s;
    WtoiShowInt(n, [q]);
    assert ([q] + s + [q])[1..] == s + [q];
  }

  /** Only one quote is skipped: a number behind two opening quotes reads as 0. */
  lemma OnlyOneQuoteSkipped(n: int, q: char, q2: char)
    requires q == '"' || q == '\''
    requires q2 == '"' || q2 == '\''
    ensures AtoiOptionInt([q, q2] + ShowInt(n)) == 0
  {
    var t := [q2] + ShowInt(n);
    assert ([q, q2] + ShowInt(n))[1..] == t;
    assert SkipSpaces(t) == t;
    assert LeadingDigits(t) == [];
  }

  /** Text without any digit at the start reads as 0. */
  lemma NoDigitsIsZero(arg: string)
    requires arg != [] && !IsDigit(arg[0]) && !IsSpace(arg[0])
    requires arg[0] !in "+-\"'"
    ensures AtoiOptionInt(arg) == 0
  {
    assert SkipSpaces(arg) == arg;
    assert LeadingDigits(arg) == [];
  }

  // ---------------------------------------------------------------------------
  // The parser's results

  /** A size converted to a 32-bit `int`: values above the limit wrap round. */
  function ToInt32(n: nat): (r: int)
    ensures r <= n
    ensures n <= INT_MAX ==> r == n
  {
    var w := n % 0x1_0000_0000;
    if w > INT_MAX then w - 0x1_0000_0000 else w
  }

  class CommandLine {
    var grepMode: bool
    var grepDlg: bool
    var debugMode: bool
    var noWindow: bool
    var profileMgr: bool
    var viewMode: bool
    var groupId: int
    var macro: Option<string>
    var macroType: Option<string>
    var profile: Option<string>
    var files: seq<string>

    /** A fresh parser result: every mode flag off, no group (-1), no macro, no
        profile and no extra files. */
    constructor ()
      ensures !grepMode && !grepDlg && !debugMode && !noWindow && !profileMgr && !viewMode
      ensures groupId == -1
      ensures macro.None? && macroType.None? && !IsSetProfile()
      ensures GetFileNum() == 0
    {
      grepMode, grepDlg, debugMode, noWindow, profileMgr, viewMode := false, false, false, false, false, false;
      groupId := -1;
      macro, macroType, profile := None, None, None;
      files := [];
    }

    /** The number of extra files, as an `int`. */
    function GetFileNum(): (n: int)
      reads this
      ensures n <= |files|
      ensures |files| <= INT_MAX ==> n == |files|
    {
      ToInt32(|files|)
    }

    /** The `i`-th extra file, or null past the end of the list. */
    function GetFileName(i: nat): (r: Option<string>)
      reads this
      ensures r.Some? ==> i < |files| && r.value == files[i]
      ensures |files| <= INT_MAX ==> (r.Some? <==> i < |files|)
    {
      if i < GetFileNum() then Some(files[i]) else None
    }

    /** Forgets the extra files. */
    method ClearFile()
      modifies this
      ensures GetFileNum() == 0 && forall i: nat :: GetFileName(i).None?
      ensures grepMode == old(grepMode) && grepDlg == old(grepDlg) && debugMode == old(debugMode)
      ensures noWindow == old(noWindow) && profileMgr == old(profileMgr) && viewMode == old(viewMode)
      ensures groupId == old(groupId) && macro == old(macro) && macroType == old(macroType)
      ensures profile == old(profile) && files == []
    {
      files := [];
    }

    /** The profile name; null when no profile was given. */
    function GetProfileName(): (r: Option<string>)
      reads this
      ensures r.None? <==> profile.None?
      ensures r.Some? ==> r.value == profile.value
    {
      profile
    }

    /** Whether a profile was given: exactly when the profile name is not null. */
    predicate IsSetProfile()
      reads this
      ensures IsSetProfile() <==> GetProfileName().Some?
    {
      profile.Some?
    }

    /** Sets the profile name; afterwards it is `s` and a profile is set. */
    method SetProfileName(s: string)
      modifies this
      ensures IsSetProfile() && GetProfileName() == Some(s)
      ensures grepMode == old(grepMode) && grepDlg == old(grepDlg) && debugMode == old(debugMode)
      ensures noWindow == old(noWindow) && profileMgr == old(profileMgr) && viewMode == old(viewMode)
      ensures groupId == old(groupId) && macro == old(macro) && macroType == old(macroType)
      ensures files == old(files)
    {
      profile := Some(s);
    }
  }
}
