/** Process-wide values: the search option record and the lazily created
    system-library wrappers. */
module Global {

  /** The three search flags: regular expression, case sensitivity, whole words.
      A value type: assignment copies it. */
  datatype SearchOption = SearchOption(regularExp: bool, loHiCase: bool, wordOnly: bool)
  {
    /** `==`: the three flags agree (an object always equals itself). */
    function Equals(rhs: SearchOption): (r: bool)
      ensures r <==> this == rhs
    {
      regularExp == rhs.regularExp && loHiCase == rhs.loHiCase && wordOnly == rhs.wordOnly
    }

    /** `!=`: the negation of `==`. */
    function NotEquals(rhs: SearchOption): (r: bool)
      ensures r <==> !Equals(rhs)
      ensures r <==> regularExp != rhs.regularExp || loHiCase != rhs.loHiCase || wordOnly != rhs.wordOnly
    {
      !Equals(rhs)
    }

    /** Reset: every flag off, whatever the option held. */
    function Reset(): (r: SearchOption)
      ensures !r.regularExp && !r.loHiCase && !r.wordOnly
      ensures r.Equals(DefaultSearchOption())
    {
      SearchOption(false, false, false)
    }
  }

  /** The default constructor: every flag off. */
  function DefaultSearchOption(): (o: SearchOption)
    ensures !o.regularExp && !o.loHiCase && !o.wordOnly
  {
    SearchOption(false, false, false)
  }

  /** `==` is reflexive and symmetric, and `!=` is irreflexive. */
  lemma EqualsReflexive(a: SearchOption, b: SearchOption)
    ensures a.Equals(a) && !a.NotEquals(a)
    ensures a.Equals(b) <==> b.Equals(a)
  {
  }

  /** The system libraries wrapped behind lazily created objects. */
  datatype DllKind = User32 | Kernel32 | Shell32 | Ole32 | ComCtl32

  /** A wrapper of one system library. */
  class Dll {
    const kind: DllKind
    constructor (kind: DllKind)
      ensures this.kind == kind
    {
      this.kind := kind;
    }
  }

  /** The function-static pointer behind one `Get*Dll` accessor. */
  class LazyDll {
    const kind: DllKind
    var instance: Dll?

    ghost predicate Valid()
      reads this, instance
    {
      instance != null ==> instance.kind == kind
    }

    /** Before the first call the pointer is null. */
    constructor (kind: DllKind)
      ensures Valid() && this.kind == kind && instance == null
    {
      this.kind := kind;
      instance := null;
    }

    /** Creates the wrapper on the first call and returns the stored one on every
        call. */
    method Get() returns (d: Dll)
      requires Valid()
      modifies this
      ensures Valid() && instance == d && d.kind == kind
      ensures old(instance) != null ==> d == old(instance)
      ensures old(instance) == null ==> fresh(d)
    {
      if instance == null {
        instance := new Dll(kind);
      }
      d := instance;
    }
  }

  /** Two calls give the same object. */
  method GetTwice(lazy: LazyDll) returns (d1: Dll, d2: Dll)
    requires lazy.Valid()
    modifies lazy
    ensures d1 == d2 && d1.kind == lazy.kind
  {
    d1 := lazy.Get();
    d2 := lazy.Get();
  }
}
