/** Bounded "keep the newest n" windows over sequences, shared by the backend's
    history deque and the dashboard's chart window. */
module Seqs {

  function Min(a: int, b: int): int { if a <= b then a else b }

  /** The newest `n` elements of `s`, in arrival order. */
  function LastN<T>(s: seq<T>, n: nat): (r: seq<T>)
    ensures |r| == Min(|s|, n)
    ensures r == s[|s| - |r|..]
  {
    if |s| <= n then s else s[|s| - n..]
  }

  /** Keeping a window up to date one element at a time gives the same window as
      computing it from the whole stream. */
  lemma {:induction false} LastNAppend<T>(s: seq<T>, x: T, n: nat)
    ensures LastN(LastN(s, n) + [x], n) == LastN(s + [x], n)
  {
    var w := LastN(s, n);
    if |s| + 1 > n {
      // The window is full, so one more element pushes out its oldest.
      assert |w| == n;
      if n > 0 {
        calc {
          LastN(w + [x], n);
          (w + [x])[1..];
          w[1..] + [x];
          { assert w[1..] == s[|s| - n + 1..]; }
          s[|s| - n + 1..] + [x];
          (s + [x])[|s| + 1 - n..];
        }
      }
    }
  }

  /** `s[start:]` in Python and `s.slice(start)` in JavaScript, for any integer
      `start`: a negative start counts from the end, and both ends are clipped. */
  function SliceFrom<T>(s: seq<T>, start: int): (r: seq<T>)
    ensures start >= 0 ==> r == s[Min(start, |s|)..]
    ensures start < 0 ==> r == LastN(s, -start)
  {
    var i := if start >= 0 then Min(start, |s|) else if |s| + start < 0 then 0 else |s| + start;
    s[i..]
  }
}
