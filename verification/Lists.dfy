/** Lists without repetition, as the rings and queues of the caches are. */
module Lists {

  function Without<T(==,!new)>(s: seq<T>, x: T): (r: seq<T>)
    ensures forall y :: y in r <==> y in s && y != x
  {
    if s == [] then []
    else if s[0] == x then Without(s[1..], x) else [s[0]] + Without(s[1..], x)
  }

  /** `x` goes to the end, the others keep their order. */
  function ToTail<T(==,!new)>(s: seq<T>, x: T): seq<T> { Without(s, x) + [x] }

  predicate NoDup<T(==)>(s: seq<T>) {
    forall i, j :: 0 <= i < j < |s| ==> s[i] != s[j]
  }

  /** Positions in `Without(s, x)`, as positions in `s`. */
  lemma {:induction false} WithoutAt<T(!new)>(s: seq<T>, x: T) returns (idx: seq<nat>)
    ensures |idx| == |Without(s, x)|
    ensures forall i :: 0 <= i < |idx| ==> idx[i] < |s| && Without(s, x)[i] == s[idx[i]]
    ensures forall i, j :: 0 <= i < j < |idx| ==> idx[i] < idx[j]
  {
    if s == [] {
      idx := [];
    } else {
      var rest := WithoutAt(s[1..], x);
      var shifted := seq(|rest|, i requires 0 <= i < |rest| => rest[i] + 1);
      idx := if s[0] == x then shifted else [0] + shifted;
    }
  }

  lemma {:induction false} WithoutAbsent<T(!new)>(s: seq<T>, x: T)
    requires x !in s
    ensures Without(s, x) == s
  {
    if s != [] { WithoutAbsent(s[1..], x); }
  }

  /** Without its only `x` at position `k`. */
  lemma {:induction false} WithoutOne<T(!new)>(s: seq<T>, x: T, k: nat)
    requires NoDup(s) && k < |s| && s[k] == x
    ensures Without(s, x) == s[..k] + s[k + 1..]
  {
    if k == 0 {
      assert x !in s[1..];
      WithoutAbsent(s[1..], x);
    } else {
      WithoutOne(s[1..], x, k - 1);
      assert s[..k] == [s[0]] + s[1..][..k - 1] && s[1..][k..] == s[k + 1..];
    }
  }

  lemma WithoutNoDup<T(!new)>(s: seq<T>, x: T)
    requires NoDup(s)
    ensures NoDup(Without(s, x)) && |Without(s, x)| == if x in s then |s| - 1 else |s|
  {
    if x in s {
      var k :| 0 <= k < |s| && s[k] == x;
      WithoutOne(s, x, k);
    } else {
      WithoutAbsent(s, x);
    }
  }

  /** The place that follows place `i` of a ring of `n`. */
  function After(i: nat, n: nat): nat
    requires i < n
    ensures After(i, n) < n
  {
    if i + 1 < n then i + 1 else 0
  }

  function RemoveAt<T>(s: seq<T>, k: nat): seq<T>
    requires k < |s|
  {
    s[..k] + s[k + 1..]
  }

  function Front<T>(s: seq<T>, n: nat): seq<T> { if n < |s| then s[..n] else s }

  lemma {:induction false} WithoutConcat<T(!new)>(a: seq<T>, b: seq<T>, x: T)
    ensures Without(a + b, x) == Without(a, x) + Without(b, x)
  {
    if a == [] {
      assert a + b == b;
    } else {
      var rest := Without(a[1..] + b, x);
      assert (a + b)[1..] == a[1..] + b && (a + b)[0] == a[0];
      WithoutConcat(a[1..], b, x);
      assert Without(a + b, x) == if a[0] == x then rest else [a[0]] + rest;
      assert [a[0]] + (Without(a[1..], x) + Without(b, x)) == ([a[0]] + Without(a[1..], x)) + Without(b, x);
    }
  }

  lemma {:induction false} WithoutShorter<T(!new)>(s: seq<T>, x: T)
    ensures |Without(s, x)| <= |s|
  {
    if s != [] { WithoutShorter(s[1..], x); }
  }

  /** What was among the first `n` still is. */
  lemma WithoutFront<T(!new)>(s: seq<T>, x: T, n: nat, y: T)
    requires y in Front(s, n) && y != x
    ensures y in Front(Without(s, x), n)
  {
    WithoutShorter(s, x);
    if n < |s| {
      var front, back := Without(s[..n], x), Without(s[n..], x);
      assert s == s[..n] + s[n..];
      WithoutConcat(s[..n], s[n..], x);
      WithoutShorter(s[..n], x);
      var i :| 0 <= i < |front| && front[i] == y;
      assert (front + back)[i] == y && i < n;
      if n < |front + back| { assert (front + back)[..n][i] == y; }
    }
  }
}
