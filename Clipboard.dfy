/** The clipboard wrapper: resolving a clipboard format name to its number, and
    opening the clipboard with a bounded number of retries. */
module Clipboard {
  import opened Common

  /** The format number that stands for "no format". */
  const CF_INVALID: nat := 0

  /** The predefined clipboard formats in the order they are tried. */
  function Predefined(): (t: seq<(string, nat)>)
    ensures |t| == 17
  {
    [("CF_TEXT", 1), ("CF_BITMAP", 2), ("CF_METAFILEPICT", 3), ("CF_SYLK", 4),
     ("CF_DIF", 5), ("CF_TIFF", 6), ("CF_OEMTEXT", 7), ("CF_DIB", 8),
     ("CF_PALETTE", 9), ("CF_PENDATA", 10), ("CF_RIFF", 11), ("CF_WAVE", 12),
     ("CF_UNICODETEXT", 13), ("CF_ENHMETAFILE", 14), ("CF_HDROP", 15),
     ("CF_LOCALE", 16), ("CF_DIBV5", 17)]
  }

  /** Lower-casing of the comparison: only ASCII letters change. */
  function Lower(c: char): (l: char)
    ensures c !in "ABCDEFGHIJKLMNOPQRSTUVWXYZ" ==> l == c
  {
    if 'A' <= c <= 'Z' then (c as int - 'A' as int + 'a' as int) as char else c
  }

  /** The character at position `i` of a NUL-terminated string: past the end it
      reads the terminator. */
  function At(s: string, i: nat): char
  {
    if i < |s| then s[i] else '\0'
  }

  /** `_wcsnicmp(a, b, n) == 0` on positions `i` onwards: equal ignoring case up
      to `n` characters or up to a common terminator. */
  function NiEqualFrom(a: string, b: string, i: nat, n: nat): bool
    decreases n - i
  {
    if n <= i then true
    else if Lower(At(a, i)) != Lower(At(b, i)) then false
    else if At(a, i) == '\0' then true
    else NiEqualFrom(a, b, i + 1, n)
  }

  /** No terminator inside. */
  predicate NoNul(s: string)
  {
    forall i :: 0 <= i < |s| ==> s[i] != '\0'
  }

  /** Equal ignoring ASCII case. */
  predicate EqualIgnoringCase(a: string, b: string)
  {
    |a| == |b| && forall i :: 0 <= i < |a| ==> Lower(a[i]) == Lower(b[i])
  }

  /** Comparing one more character than the format name has checks the terminator
      too: a name matches exactly when it equals the format name ignoring case, so
      neither a prefix nor an extension of it matches. */
  lemma {:induction false} MatchIsWholeName(name: string, fmt: string, i: nat)
    requires NoNul(name) && NoNul(fmt) && i <= |fmt| && i <= |name|
    requires forall k :: 0 <= k < i ==> Lower(name[k]) == Lower(fmt[k])
    ensures NiEqualFrom(name, fmt, i, |fmt| + 1) <==> EqualIgnoringCase(name, fmt)
    decreases |fmt| - i
  {
    if i < |fmt| && i < |name| {
      if Lower(name[i]) == Lower(fmt[i]) {
        MatchIsWholeName(name, fmt, i + 1);
      }
    } else if i < |fmt| {
      assert Lower(fmt[i]) != '\0';
    } else if i < |name| {
      assert Lower(name[i]) != '\0';
    }
  }

  /** Whether `name` matches the `j`-th name of table `t` the way the lookup
      compares them: ignoring case, over the table name's length plus one. */
  predicate Matches(t: seq<(string, nat)>, name: string, j: nat)
    requires j < |t|
  {
    NiEqualFrom(name, t[j].0, 0, |t[j].0| + 1)
  }

  /** The position of the first table entry from position `k` on whose name
      matches, if any. */
  function LookupFrom(t: seq<(string, nat)>, name: string, k: nat): (r: Option<nat>)
    requires k <= |t|
    ensures r.Some? ==> k <= r.value < |t| && Matches(t, name, r.value)
    ensures r.Some? ==> forall i :: k <= i < r.value ==> !Matches(t, name, i)
    ensures r.None? ==> forall i :: k <= i < |t| ==> !Matches(t, name, i)
    decreases |t| - k
  {
    if k == |t| then None
    else if Matches(t, name, k) then Some(k)
    else LookupFrom(t, name, k + 1)
  }

  /** The format number for a name: invalid for the empty name, the predefined
      number for the first predefined name it matches, otherwise the number the
      system registers for it. */
  function GetClipboardFormat(name: string, register: string -> nat): (r: nat)
    ensures name == [] ==> r == CF_INVALID
    ensures name != [] && (exists j :: 0 <= j < |Predefined()| && Matches(Predefined(), name, j)) ==>
      exists j :: 0 <= j < |Predefined()| && Matches(Predefined(), name, j) && r == Predefined()[j].1
    ensures name != [] && (forall j :: 0 <= j < |Predefined()| ==> !Matches(Predefined(), name, j)) ==>
      r == register(name)
  {
    if name == [] then CF_INVALID
    else match LookupFrom(Predefined(), name, 0)
      case Some(j) => Predefined()[j].1
      case None => register(name)
  }

  /** Letters, digits and underscores only, no lower-case letter. */
  predicate Plain(s: string)
  {
    forall i :: 0 <= i < |s| ==> s[i] == '_' || '0' <= s[i] <= '9' || 'A' <= s[i] <= 'Z'
  }

  /** Predefined names are plain upper-case identifiers of six or more characters. */
  lemma PredefinedPlain(j: nat)
    requires j < |Predefined()|
    ensures Plain(Predefined()[j].0) && |Predefined()[j].0| >= 6
  {
  }

  /** The predefined names are pairwise different. */
  lemma PredefinedDistinct(j: nat, k: nat)
    requires j < k < |Predefined()|
    ensures Predefined()[j].0 != Predefined()[k].0
  {
    var a, b := Predefined()[j].0, Predefined()[k].0;
    if |a| == |b| {
      assert a[3] != b[3] || a[4] != b[4] || a[5] != b[5];
    }
  }

  /** Two plain names that equal the same name ignoring case are the same name. */
  lemma PlainEqualIgnoringCase(name: string, a: string, b: string)
    requires Plain(a) && Plain(b)
    requires EqualIgnoringCase(name, a) && EqualIgnoringCase(name, b)
    ensures a == b
  {
    forall i | 0 <= i < |a|
      ensures a[i] == b[i]
    {
      assert Lower(a[i]) == Lower(b[i]);
    }
  }

  /** Names that are plain and pairwise different. */
  predicate WellFormedTable(t: seq<(string, nat)>)
  {
    && (forall j :: 0 <= j < |t| ==> Plain(t[j].0))
    && (forall j, k :: 0 <= j < k < |t| ==> t[j].0 != t[k].0)
  }

  /** The predefined table is well formed. */
  lemma PredefinedWellFormed()
    ensures WellFormedTable(Predefined())
  {
    forall j | 0 <= j < |Predefined()|
      ensures Plain(Predefined()[j].0)
    {
      PredefinedPlain(j);
    }
    forall j, k | 0 <= j < k < |Predefined()|
      ensures Predefined()[j].0 != Predefined()[k].0
    {
      PredefinedDistinct(j, k);
    }
  }

  /** For a name without terminator, matching a plain name is equality ignoring
      case. */
  lemma MatchesIff(t: seq<(string, nat)>, name: string, j: nat)
    requires NoNul(name) && j < |t| && Plain(t[j].0)
    ensures Matches(t, name, j) <==> EqualIgnoringCase(name, t[j].0)
  {
    MatchIsWholeName(name, t[j].0, 0);
  }

  /** In a well-formed table, a name equal to entry `j` ignoring case finds
      exactly entry `j`. */
  lemma TableLookup(t: seq<(string, nat)>, name: string, j: nat)
    requires WellFormedTable(t) && NoNul(name) && j < |t| && EqualIgnoringCase(name, t[j].0)
    ensures LookupFrom(t, name, 0) == Some(j)
  {
    MatchesIff(t, name, j);
    var k := LookupFrom(t, name, 0).value;
    MatchesIff(t, name, k);
    PlainEqualIgnoringCase(name, t[j].0, t[k].0);
  }

  /** A name equal to a predefined name ignoring case gets that format's number;
      so do its lower-case and mixed-case spellings. */
  lemma PredefinedNameGetsItsNumber(name: string, register: string -> nat, j: nat)
    requires NoNul(name) && j < |Predefined()| && EqualIgnoringCase(name, Predefined()[j].0)
    ensures GetClipboardFormat(name, register) == Predefined()[j].1
  {
    PredefinedWellFormed();
    TableLookup(Predefined(), name, j);
    PredefinedPlain(j);
    assert name != [];
  }

  /** A non-empty name equal to no predefined name ignoring case is registered;
      in particular a proper prefix or extension of a predefined name is. */
  lemma OtherNameIsRegistered(name: string, register: string -> nat)
    requires NoNul(name) && name != []
    requires forall j :: 0 <= j < |Predefined()| ==> !EqualIgnoringCase(name, Predefined()[j].0)
    ensures GetClipboardFormat(name, register) == register(name)
  {
    PredefinedWellFormed();
    forall j | 0 <= j < |Predefined()|
      ensures !Matches(Predefined(), name, j)
    {
      MatchesIff(Predefined(), name, j);
    }
  }

  /** Tries to open the clipboard at most `retryCount + 1` times, yielding the
      processor after each failure; `tryOpen(i)` is the result of attempt `i`.
      Returns whether it was opened, the attempts made and the yields. */
  method OpenClipboard(retryCount: int, tryOpen: nat -> bool) returns (ok: bool, attempts: nat, sleeps: nat)
    ensures attempts <= (if retryCount < 0 then 0 else retryCount + 1)
    ensures forall i :: 0 <= i < attempts - 1 ==> !tryOpen(i)
    ensures ok <==> 0 < attempts && tryOpen(attempts - 1)
    ensures !ok ==> attempts == (if retryCount < 0 then 0 else retryCount + 1)
    ensures sleeps == (if ok then attempts - 1 else attempts)
  {
    var i := 0;
    sleeps := 0;
    while i <= retryCount
      invariant 0 <= i <= (if retryCount < 0 then 0 else retryCount + 1)
      invariant forall k :: 0 <= k < i ==> !tryOpen(k)
      invariant sleeps == i
    {
      if tryOpen(i) {
        return true, i + 1, sleeps;
      }
      sleeps := sleeps + 1;
      i := i + 1;
    }
    return false, i, sleeps;
  }

  /** The clipboard is opened exactly when one of the allowed attempts succeeds. */
  lemma OpenClipboardSucceedsIff(retryCount: int, tryOpen: nat -> bool, ok: bool, attempts: nat)
    requires attempts <= (if retryCount < 0 then 0 else retryCount + 1)
    requires forall i :: 0 <= i < attempts - 1 ==> !tryOpen(i)
    requires ok <==> 0 < attempts && tryOpen(attempts - 1)
    requires !ok ==> attempts == (if retryCount < 0 then 0 else retryCount + 1)
    ensures ok <==> exists i :: 0 <= i <= retryCount && tryOpen(i)
  {
    if !ok {
      forall i | 0 <= i <= retryCount
        ensures !tryOpen(i)
      {
        assert i < attempts;
      }
    }
  }
}
