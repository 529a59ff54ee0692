/** Values shared by the editor modules: optional values, window and module handles. */
module Common {

  /** A value that may be absent (a null pointer, an empty std::optional). */
  datatype Option<T> = None | Some(value: T)

  /** An opaque Win32 handle (HWND, HINSTANCE, HMODULE); `Null` is the null handle. */
  datatype Handle = Null | Handle(id: nat)

  /** Low and high 16-bit words of a message parameter (LOWORD / HIWORD).
      Dafny's `%` and `/` are Euclidean, which is what the bit masks and shifts
      do to a two's-complement value. */
  function LoWord(l: int): (w: int)
    ensures 0 <= w < 0x1_0000
  {
    l % 0x1_0000
  }

  function HiWord(l: int): (w: int)
    ensures 0 <= w < 0x1_0000
  {
    (l / 0x1_0000) % 0x1_0000
  }

  /** Reinterprets a 16-bit word as a signed `short`. */
  function ShortOf(w: int): (s: int)
    requires 0 <= w < 0x1_0000
    ensures -0x8000 <= s < 0x8000
    ensures s % 0x1_0000 == w
  {
    if w < 0x8000 then w else w - 0x1_0000
  }

  /** MAKELONG(lo, hi): packs the low 16 bits of each operand into one 32-bit word. */
  function MakeLong(lo: int, hi: int): (l: int)
    ensures 0 <= l < 0x1_0000_0000
  {
    (lo % 0x1_0000) + (hi % 0x1_0000) * 0x1_0000
  }

  /** Decoding MAKELONG(x, y) as signed coordinates gives x and y back whenever both
      fit in a `short`, which is how a point travels through a mouse message. */
  lemma {:induction false} MakeLongRoundTrip(x: int, y: int)
    requires -0x8000 <= x < 0x8000 && -0x8000 <= y < 0x8000
    ensures ShortOf(LoWord(MakeLong(x, y))) == x
    ensures ShortOf(HiWord(MakeLong(x, y))) == y
  {
    var l := MakeLong(x, y);
    var lo, hi := x % 0x1_0000, y % 0x1_0000;
    assert l == lo + hi * 0x1_0000;
    assert l % 0x1_0000 == lo;
    assert l / 0x1_0000 == hi;
  }

  /** A path separator: backslash or slash. */
  predicate IsSeparator(c: char)
  {
    c == '\\' || c == '/'
  }

  /** Length of the directory part: everything up to the last separator. */
  function DirLength(p: string): (n: nat)
    ensures n <= |p|
    ensures n > 0 ==> IsSeparator(p[n - 1])
    ensures forall i :: n <= i < |p| ==> !IsSeparator(p[i])
  {
    if p == [] then 0
    else if IsSeparator(p[|p| - 1]) then |p|
    else DirLength(p[..|p| - 1])
  }
}
