/** Optional values: the model's stand-in for a C# reference that may be null. */
module Wrappers {

  datatype Option<+T> = None | Some(value: T) {

    /** The wrapped value, or `default` when there is none (C#'s `??`). */
    function GetOr(default: T): T {
      match this
      case Some(v) => v
      case None => default
    }
  }
}

/** Order-preserving selection from a list. */
module Lists {

  /** `sub` is obtained from `s` by deleting elements, keeping the order of the rest. */
  ghost predicate IsSubsequence<T>(sub: seq<T>, s: seq<T>)
    decreases |s|
  {
    if sub == [] then true
    else if s == [] then false
    else (sub[0] == s[0] && IsSubsequence(sub[1..], s[1..])) || IsSubsequence(sub, s[1..])
  }

  /** A subsequence of `t` is a subsequence of `t` with anything put in front. */
  lemma {:induction false} SubsequenceOfLonger<T>(b: seq<T>, s: seq<T>, t: seq<T>)
    requires IsSubsequence(b, t)
    ensures IsSubsequence(b, s + t)
    decreases |s|
  {
    if s == [] {
      assert s + t == t;
    } else if b != [] {
      assert (s + t)[1..] == s[1..] + t;
      SubsequenceOfLonger(b, s[1..], t);
    }
  }

  /** Subsequences of two sequences concatenate to a subsequence of their concatenation. */
  lemma {:induction false} SubsequenceConcat<T>(a: seq<T>, s: seq<T>, b: seq<T>, t: seq<T>)
    requires IsSubsequence(a, s) && IsSubsequence(b, t)
    ensures IsSubsequence(a + b, s + t)
    decreases |s|
  {
    if a == [] {
      assert a + b == b;
      SubsequenceOfLonger(b, s, t);
    } else {
      assert s != [];
      assert (a + b)[0] == a[0] && (a + b)[1..] == a[1..] + b;
      assert (s + t)[0] == s[0] && (s + t)[1..] == s[1..] + t;
      if a[0] == s[0] && IsSubsequence(a[1..], s[1..]) {
        SubsequenceConcat(a[1..], s[1..], b, t);
      } else {
        SubsequenceConcat(a, s[1..], b, t);
      }
    }
  }
}
