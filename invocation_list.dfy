// The two list disciplines the core relies on: a C# multicast delegate
// (Action) combined with `+=` and `-=`, and List<T>.Add / List<T>.Remove.
// A delegate's invocation list is a sequence of callbacks; the empty
// sequence plays the part of the null delegate.

module InvocationList {
  import opened Wrappers

  /** The identity of one callback (a delegate's target and method). */
  type Listener = nat

  /** Index of the last occurrence of x, or -1. */
  function LastIndexOf<T(==)>(s: seq<T>, x: T): (k: int)
    ensures -1 <= k < |s|
    ensures k == -1 <==> x !in s
    ensures 0 <= k ==> s[k] == x && x !in s[k + 1..]
  {
    if s == [] then -1
    else if s[|s| - 1] == x then |s| - 1
    else (assert s == s[..|s| - 1] + [s[|s| - 1]]; LastIndexOf(s[..|s| - 1], x))
  }

  /** Index of the first occurrence of x, or -1. */
  function IndexOf<T(==)>(s: seq<T>, x: T): (k: int)
    ensures -1 <= k < |s|
    ensures k == -1 <==> x !in s
    ensures 0 <= k ==> s[k] == x && x !in s[..k]
  {
    if s == [] then -1
    else if s[0] == x then 0
    else (var k := IndexOf(s[1..], x); if k == -1 then -1 else k + 1)
  }

  /** Delegate.Remove: the last occurrence of x is cut out, if there is one. */
  function RemoveLast<T(==)>(s: seq<T>, x: T): (r: seq<T>)
    ensures x !in s ==> r == s
    ensures x in s ==> |r| == |s| - 1
    ensures x in s ==> var k := LastIndexOf(s, x); r == s[..k] + s[k + 1..]
    ensures multiset(r) == multiset(s) - multiset{x}
  {
    var k := LastIndexOf(s, x);
    if k < 0 then (assert x !in multiset(s); s) else (CutOut(s, k); assert s[k] == x; s[..k] + s[k + 1..])
  }

  /** List<T>.Remove: the first occurrence of x is cut out, if there is one. */
  function RemoveFirst<T(==)>(s: seq<T>, x: T): (r: seq<T>)
    ensures x !in s ==> r == s
    ensures x in s ==> |r| == |s| - 1
    ensures x in s ==> var k := IndexOf(s, x); r == s[..k] + s[k + 1..]
    ensures multiset(r) == multiset(s) - multiset{x}
  {
    var k := IndexOf(s, x);
    if k < 0 then (assert x !in multiset(s); s) else (CutOut(s, k); assert s[k] == x; s[..k] + s[k + 1..])
  }

  lemma CutOut<T>(s: seq<T>, k: nat)
    requires k < |s|
    ensures multiset(s[..k] + s[k + 1..]) == multiset(s) - multiset{s[k]}
  {
    assert s == s[..k] + [s[k]] + s[k + 1..];
  }

  /** `listeners += listener` behind the source's null check. */
  function AddListener(s: seq<Listener>, l: Option<Listener>): seq<Listener> {
    if l.None? then s else s + [l.value]
  }

  /** `listeners -= listener` behind the source's null check. */
  function RemoveListener(s: seq<Listener>, l: Option<Listener>): seq<Listener> {
    if l.None? then s else RemoveLast(s, l.value)
  }

  // ---------------------------------------------------------------------------
  // properties

  /** Removing what was just added restores the list (the source removes the
      last occurrence, which is the one just appended). */
  lemma AddThenRemove(s: seq<Listener>, l: Option<Listener>)
    ensures RemoveListener(AddListener(s, l), l) == s
  {
    if l.Some? {
      assert (s + [l.value])[..|s|] == s;
    }
  }

  /** Adding appends: duplicates accumulate and the order of registration is
      the order of invocation. */
  lemma AddAppends(s: seq<Listener>, l: Listener)
    ensures AddListener(s, Some(l)) == s + [l]
    ensures multiset(AddListener(s, Some(l)))[l] == multiset(s)[l] + 1
  {
  }

  /** The null listener changes nothing. */
  lemma NullListenerIgnored(s: seq<Listener>)
    ensures AddListener(s, None) == s && RemoveListener(s, None) == s
  {
  }

  /** Removing a listener that is not registered changes nothing; removing one
      that is drops one of its occurrences and leaves every other listener's
      count alone. */
  lemma RemoveListenerCounts(s: seq<Listener>, l: Listener, other: Listener)
    requires other != l
    ensures l !in s ==> RemoveListener(s, Some(l)) == s
    ensures l in s ==> multiset(RemoveListener(s, Some(l)))[l] == multiset(s)[l] - 1
    ensures multiset(RemoveListener(s, Some(l)))[other] == multiset(s)[other]
  {
  }
}
