/** Vocabulary shared by the models: optional values, and windows over sequences. */
module Prelude {

  datatype Option<+T> = None | Some(value: T)

  /** The newest `n` elements of `s`, oldest first. */
  function LastN<T>(s: seq<T>, n: nat): (r: seq<T>)
    ensures |r| == if |s| <= n then |s| else n
  {
    if |s| <= n then s else s[|s| - n..]
  }

  lemma LastNIgnoresOlder<T>(older: seq<T>, s: seq<T>, n: nat)
    requires n <= |s|
    ensures LastN(older + s, n) == LastN(s, n)
  {
    assert (older + s)[|older| + |s| - n..] == s[|s| - n..];
  }

  /** Trimming to the newest `n` before appending loses nothing a later trim would keep. */
  lemma LastNAppend<T>(a: seq<T>, b: seq<T>, n: nat)
    ensures LastN(LastN(a, n) + b, n) == LastN(a + b, n)
  {
    if |a| > n {
      var dropped, t := a[..|a| - n], LastN(a, n);
      assert a + b == dropped + (t + b);
      LastNIgnoresOlder(dropped, t + b, n);
    }
  }

  lemma EmptyIsUnit<T>(s: seq<T>)
    ensures s + [] == s && [] + s == s
  {
  }

  lemma Regroup<T>(a: seq<T>, b: seq<T>, c: seq<T>)
    ensures a + b + c == a + (b + c)
  {
  }

  /** Taking off the last element. */
  lemma Pop<T>(s: seq<T>) returns (front: seq<T>, last: T)
    requires s != []
    ensures front == s[..|s| - 1] && last == s[|s| - 1]
    ensures s == front + [last] && |front| == |s| - 1
  {
    front, last := s[..|s| - 1], s[|s| - 1];
  }

  /** Taking the last element off a concatenation. */
  lemma PopAppend<T>(a: seq<T>, b: seq<T>) returns (front: seq<T>, last: T)
    requires b != []
    ensures front == b[..|b| - 1] && last == b[|b| - 1] && b == front + [last] && |front| == |b| - 1
    ensures (a + b)[..|a + b| - 1] == a + front && (a + b)[|a + b| - 1] == last && a + b != []
  {
    front, last := b[..|b| - 1], b[|b| - 1];
    assert (a + b)[..|a + b| - 1] == a + front;
  }

  /** No element occurs at two positions. */
  ghost predicate Distinct<T(!new)>(s: seq<T>) {
    forall i, j :: 0 <= i < j < |s| ==> s[i] != s[j]
  }

  /** `s` occurs inside `t` as its tail. */
  ghost predicate IsSuffix<T>(s: seq<T>, t: seq<T>) {
    |s| <= |t| && t[|t| - |s|..] == s
  }
}
