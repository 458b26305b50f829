/**
 Sums and first matches over a sequence. Every bounded table of the
 simulator (workers, contexts, sessions, resources, UE slots) is scanned from
 slot 0 upwards and counted the same way, so the notions are defined once here.
 */
module Slots {

  function Sum<T>(s: seq<T>, f: T -> nat): nat {
    if s == [] then 0 else f(s[0]) + Sum(s[1..], f)
  }

  lemma {:induction false} SumUpdate<T>(s: seq<T>, f: T -> nat, i: nat, x: T)
    requires i < |s|
    ensures Sum(s[i := x], f) + f(s[i]) == Sum(s, f) + f(x)
  {
    if i == 0 {
      assert s[0 := x][1..] == s[1..];
    } else {
      assert s[i := x][1..] == s[1..][i - 1 := x];
      SumUpdate(s[1..], f, i - 1, x);
    }
  }

  lemma {:induction false} SumAppend<T>(s: seq<T>, f: T -> nat, x: T)
    ensures Sum(s + [x], f) == Sum(s, f) + f(x)
  {
    if s == [] {
      assert s + [x] == [x];
    } else {
      assert (s + [x])[1..] == s[1..] + [x];
      SumAppend(s[1..], f, x);
    }
  }

  lemma {:induction false} SumBounds<T>(s: seq<T>, f: T -> nat, i: nat)
    requires i < |s|
    ensures f(s[i]) <= Sum(s, f)
  {
    if i > 0 {
      SumBounds(s[1..], f, i - 1);
    }
  }

  lemma {:induction false} SumAtMost<T>(s: seq<T>, f: T -> nat, k: nat)
    requires forall i :: 0 <= i < |s| ==> f(s[i]) <= k
    ensures Sum(s, f) <= k * |s|
  {
    if s != [] {
      assert forall i :: 0 <= i < |s[1..]| ==> s[1..][i] == s[i + 1];
      SumAtMost(s[1..], f, k);
    }
  }

  lemma {:induction false} SumZero<T>(s: seq<T>, f: T -> nat)
    requires forall i :: 0 <= i < |s| ==> f(s[i]) == 0
    ensures Sum(s, f) == 0
  {
    if s != [] {
      assert forall i :: 0 <= i < |s[1..]| ==> s[1..][i] == s[i + 1];
      SumZero(s[1..], f);
    }
  }

  /** A pointwise comparison between two tables carries over to their sums. */
  lemma {:induction false} SumCompare<T>(s: seq<T>, f: T -> nat, t: seq<T>, g: T -> nat)
    requires |s| == |t| && forall i :: 0 <= i < |s| ==> f(s[i]) <= g(t[i])
    ensures Sum(s, f) <= Sum(t, g)
  {
    if s != [] {
      assert forall i :: 0 <= i < |s[1..]| ==> s[1..][i] == s[i + 1] && t[1..][i] == t[i + 1];
      SumCompare(s[1..], f, t[1..], g);
    }
  }

  /** When every slot counts one, the table is full; and conversely. */
  lemma {:induction false} SumFull<T>(s: seq<T>, f: T -> nat)
    requires forall x :: f(x) <= 1
    ensures Sum(s, f) <= |s|
    ensures Sum(s, f) == |s| <==> forall i :: 0 <= i < |s| ==> f(s[i]) == 1
  {
    if s != [] {
      SumFull(s[1..], f);
      assert forall i :: 0 <= i < |s[1..]| ==> s[1..][i] == s[i + 1];
      assert (forall i :: 0 <= i < |s| ==> f(s[i]) == 1) ==> forall i :: 0 <= i < |s[1..]| ==> f(s[1..][i]) == 1;
      if f(s[0]) == 1 && forall i :: 0 <= i < |s[1..]| ==> f(s[1..][i]) == 1 {
        assert forall i :: 0 < i < |s| ==> s[i] == s[1..][i - 1];
      }
    }
  }

  /** The lowest slot satisfying p, or |s| when there is none. */
  function First<T>(s: seq<T>, p: T -> bool): (i: nat)
    ensures i <= |s|
    ensures forall k :: 0 <= k < i ==> !p(s[k])
    ensures i < |s| ==> p(s[i])
  {
    if s == [] then 0 else if p(s[0]) then 0 else
      var j := First(s[1..], p);
      assert forall k :: 0 < k < j + 1 ==> s[k] == s[1..][k - 1];
      1 + j
  }

  /** The scan for it. */
  method Scan<T>(a: array<T>, p: T -> bool) returns (i: nat)
    ensures i == First(a[..], p)
  {
    i := 0;
    while i < a.Length && !p(a[i])
      invariant i <= a.Length && forall k :: 0 <= k < i ==> !p(a[k])
    {
      i := i + 1;
    }
    FirstIs(a[..], p, i);
  }

  lemma FirstIs<T>(s: seq<T>, p: T -> bool, i: nat)
    requires i <= |s| && (forall k :: 0 <= k < i ==> !p(s[k])) && (i < |s| ==> p(s[i]))
    ensures First(s, p) == i
  {}

  /** A slot that counts nothing is the first of its kind exactly when some slot counts nothing. */
  lemma FirstFree<T>(s: seq<T>, f: T -> nat, free: T -> bool)
    requires (forall x :: f(x) <= 1) && (forall x :: free(x) <==> f(x) == 0)
    ensures First(s, free) < |s| <==> Sum(s, f) < |s|
  {
    SumFull(s, f);
    var i := First(s, free);
    if i < |s| {
      assert f(s[i]) == 0;
    }
  }
}
