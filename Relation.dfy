/** Subjects watched by listeners: a subject keeps the list of listeners that
    watch it, without repetitions, and a listener keeps a reference to the one
    subject it watches.  `Listen` keeps both sides consistent. */
module Relation {

  /** No element occurs twice. */
  predicate NoDup<T(==)>(s: seq<T>)
  {
    forall i, j :: 0 <= i < j < |s| ==> s[i] != s[j]
  }

  /** `s` without the first occurrence of `x`; `s` itself when `x` does not occur. */
  function RemoveFirst<T(==)>(s: seq<T>, x: T): seq<T>
  {
    if s == [] then []
    else if s[0] == x then s[1..]
    else [s[0]] + RemoveFirst(s[1..], x)
  }

  /** `s` with `x` appended, unless `x` already occurs. */
  function AddOnce<T(==)>(s: seq<T>, x: T): seq<T>
  {
    if x in s then s else s + [x]
  }

  /** Removing the first occurrence at position `i` cuts exactly that element out and
      keeps the others in order. */
  lemma {:induction false} RemoveFirstAt<T>(s: seq<T>, i: int, x: T)
    requires 0 <= i < |s| && s[i] == x && x !in s[..i]
    ensures RemoveFirst(s, x) == s[..i] + s[i + 1..]
  {
    if i > 0 {
      assert s[0] in s[..i];
      assert s[1..][..i - 1] == s[1..i];
      RemoveFirstAt(s[1..], i - 1, x);
      assert s[..i] == [s[0]] + s[1..i];
      assert s[i + 1..] == s[1..][i..];
    }
  }

  /** Removing an absent element changes nothing. */
  lemma {:induction false} RemoveFirstAbsent<T>(s: seq<T>, x: T)
    requires x !in s
    ensures RemoveFirst(s, x) == s
  {
    if s != [] {
      RemoveFirstAbsent(s[1..], x);
      assert s == [s[0]] + s[1..];
    }
  }

  /** In a list without repetitions, removal deletes `x` entirely, keeps every other
      element and keeps the list free of repetitions. */
  lemma {:induction false} RemoveFirstNoDup<T>(s: seq<T>, x: T)
    requires NoDup(s)
    ensures NoDup(RemoveFirst(s, x))
    ensures forall y :: y in RemoveFirst(s, x) <==> y in s && y != x
  {
    if s != [] {
      var t := s[1..];
      assert NoDup(t) by {
        forall i, j | 0 <= i < j < |t|
          ensures t[i] != t[j]
        {
          assert t[i] == s[i + 1] && t[j] == s[j + 1];
        }
      }
      assert s[0] !in t by {
        forall j | 0 <= j < |t|
          ensures t[j] != s[0]
        {
          assert t[j] == s[j + 1];
        }
      }
      RemoveFirstNoDup(t, x);
      if s[0] != x {
        var r := RemoveFirst(t, x);
        assert RemoveFirst(s, x) == [s[0]] + r;
        forall i, j | 0 <= i < j < |[s[0]] + r|
          ensures ([s[0]] + r)[i] != ([s[0]] + r)[j]
        {
          if i == 0 {
            assert ([s[0]] + r)[j] == r[j - 1];
            assert r[j - 1] in r;
          } else {
            assert ([s[0]] + r)[i] == r[i - 1] && ([s[0]] + r)[j] == r[j - 1];
          }
        }
      }
    }
  }

  /** A list without repetitions has as many elements as its set of elements. */
  lemma {:induction false} NoDupCard<T>(s: seq<T>)
    requires NoDup(s)
    ensures |set x | x in s| == |s|
  {
    if s != [] {
      var t := s[1..];
      assert NoDup(t) by {
        forall i, j | 0 <= i < j < |t|
          ensures t[i] != t[j]
        {
          assert t[i] == s[i + 1] && t[j] == s[j + 1];
        }
      }
      NoDupCard(t);
      assert s[0] !in t by {
        forall j | 0 <= j < |t|
          ensures t[j] != s[0]
        {
          assert t[j] == s[j + 1];
        }
      }
      assert (set x | x in s) == (set x | x in t) + {s[0]} by {
        assert s == [s[0]] + t;
      }
    }
  }

  /** Appending an element that does not occur keeps a list free of repetitions. */
  lemma AppendNoDup<T>(s: seq<T>, x: T)
    requires NoDup(s) && x !in s
    ensures NoDup(s + [x])
  {
    forall i, j | 0 <= i < j < |s + [x]|
      ensures (s + [x])[i] != (s + [x])[j]
    {
      if j == |s| {
        assert (s + [x])[i] == s[i];
      }
    }
  }

  class Subject {
    /** The listeners watching this subject, in registration order. */
    var listeners: seq<Listener>

    /** A new subject has no listeners. */
    constructor ()
      ensures listeners == []
    {
      listeners := [];
    }

    /** Number of registered listeners. */
    function GetListenerCount(): (n: int)
      reads this
      ensures n == |listeners|
    {
      |listeners|
    }

    /** The i-th registered listener. */
    function GetListener(i: int): (l: Listener)
      reads this
      requires 0 <= i < |listeners|
      ensures l == listeners[i]
    {
      listeners[i]
    }

    /** Registers `l` at the end of the list, unless it is already registered. */
    method AddListener(l: Listener)
      modifies this
      ensures listeners == AddOnce(old(listeners), l)
    {
      var i := 0;
      while i < |listeners| && listeners[i] != l
        invariant 0 <= i <= |listeners|
        invariant l !in listeners[..i]
      {
        i := i + 1;
      }
      if i < |listeners| {
        return;
      }
      assert listeners[..i] == listeners;
      listeners := listeners + [l];
    }

    /** Unregisters the first occurrence of `l`, if any. */
    method RemoveListener(l: Listener)
      modifies this
      ensures listeners == RemoveFirst(old(listeners), l)
    {
      var i := 0;
      while i < |listeners| && listeners[i] != l
        invariant 0 <= i <= |listeners|
        invariant l !in listeners[..i]
      {
        i := i + 1;
      }
      if i < |listeners| {
        RemoveFirstAt(listeners, i, l);
        listeners := listeners[..i] + listeners[i + 1..];
      } else {
        assert listeners[..i] == listeners;
        RemoveFirstAbsent(listeners, l);
      }
    }

    /** The destructor: every listener is unregistered. */
    method Destroy()
      modifies this
      ensures listeners == []
    {
      listeners := [];
    }
  }

  class Listener {
    /** The watched subject, or null; releasing it unregisters this listener. */
    var subject: Subject?

    /** A new listener watches nothing. */
    constructor ()
      ensures subject == null
    {
      subject := null;
    }

    function GetListeningSubject(): Subject?
      reads this
    {
      subject
    }

    /** The releaser of the subject reference: unregisters this listener from `s`. */
    method Release(s: Subject)
      modifies s
      ensures s.listeners == RemoveFirst(old(s.listeners), this)
    {
      s.RemoveListener(this);
    }

    /** Stops watching the current subject and starts watching `s` (nothing when
        `s` is null).  Returns the subject watched before. */
    method Listen(s: Subject?, ghost subjects: set<Subject>, ghost all: set<Listener>) returns (previous: Subject?)
      modifies this, subject, s
      ensures previous == old(subject)
      ensures subject == s
      ensures previous != null && previous != s ==> previous.listeners == RemoveFirst(old(previous.listeners), this)
      ensures s != null && s != previous ==> s.listeners == AddOnce(old(s.listeners), this)
      ensures s != null && s == previous ==> s.listeners == AddOnce(RemoveFirst(old(s.listeners), this), this)
      ensures old(Registry(subjects, all)) && this in all && (s == null || s in subjects) ==> Registry(subjects, all)
    {
      ghost var consistent := Registry(subjects, all) && this in all && (s == null || s in subjects);
      previous := subject;
      if previous != null {
        if consistent {
          RemoveFirstNoDup(previous.listeners, this);
        }
        Release(previous);
        subject := null;
      }
      if s != null {
        if consistent {
          assert this !in s.listeners;
        }
        s.AddListener(this);
        subject := s;
      }
      if consistent {
        assert Registry(subjects, all) by {
          forall x | x in subjects
            ensures NoDup(x.listeners)
            ensures forall l :: l in x.listeners ==> l in all && l.subject == x
          {
            if x == s && x == previous {
              RemoveFirstNoDup(old(x.listeners), this);
              AppendNoDup(RemoveFirst(old(x.listeners), this), this);
            } else if x == s {
              AppendNoDup(old(x.listeners), this);
            } else if x == previous {
              RemoveFirstNoDup(old(x.listeners), this);
            }
          }
        }
      }
    }
  }

  /** The registry invariant over a closed world of subjects and listeners: a
      listener is in a subject's list exactly when it watches that subject, and each
      list is free of repetitions, so every listener appears exactly once in its
      subject's list and in no other list. */
  ghost predicate Registry(subjects: set<Subject>, all: set<Listener>)
    reads subjects, all
  {
    && (forall l :: l in all && l.subject != null ==> l.subject in subjects && l in l.subject.listeners)
    && (forall x :: x in subjects ==> NoDup(x.listeners))
    && (forall x, l :: x in subjects && l in x.listeners ==> l in all && l.subject == x)
  }

  /** Without repetitions the count of a subject is the number of distinct
      listeners watching it. */
  lemma ListenerCountDistinct(x: Subject)
    requires NoDup(x.listeners)
    ensures x.GetListenerCount() == |set l | l in x.listeners|
  {
    NoDupCard(x.listeners);
  }

  /** Without repetitions each listener of a subject sits at one index only. */
  lemma ListenerAtOneIndex(x: Subject, i: int)
    requires NoDup(x.listeners) && 0 <= i < |x.listeners|
    ensures forall j :: 0 <= j < |x.listeners| && x.listeners[j] == x.GetListener(i) ==> j == i
  {
  }
}
