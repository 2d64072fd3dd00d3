/** Python slicing on lists, and the bounded histories the analyzers keep
    with it: an append followed by `h = h[-N:]`. */
module History {

  /** `s[-n:]` for a positive `n`: the last `n` entries, in order. */
  function Last<T>(s: seq<T>, n: nat): (r: seq<T>)
    ensures |r| == if |s| <= n then |s| else n
  {
    if |s| <= n then s else s[|s| - n..]
  }

  /** What `Last` keeps is a suffix: the entries it keeps are the latest,
      in their order. */
  lemma LastIsSuffix<T>(s: seq<T>, n: nat)
    ensures Last(s, n) == s[|s| - |Last(s, n)|..]
    ensures forall i :: 0 <= i < |Last(s, n)| ==> Last(s, n)[i] == s[|s| - |Last(s, n)| + i]
  {
  }

  /** `s[:n]`: a prefix; a negative `n` counts back from the end. */
  function Take<T>(s: seq<T>, n: int): (r: seq<T>)
    ensures 0 <= n ==> |r| == if n < |s| then n else |s|
    ensures n < 0 ==> |r| == if |s| + n < 0 then 0 else |s| + n
  {
    if 0 <= n then (if n < |s| then s[..n] else s)
    else if |s| + n < 0 then [] else s[..|s| + n]
  }

  /** What `Take` keeps is a prefix. */
  lemma TakeIsPrefix<T>(s: seq<T>, n: int)
    ensures |Take(s, n)| <= |s| && Take(s, n) == s[..|Take(s, n)|]
  {
  }

  /** Append one entry, then keep only the most recent `cap`. */
  function Push<T>(h: seq<T>, x: T, cap: nat): seq<T> {
    Last(h + [x], cap)
  }

  /** The history after a run of pushes, oldest first. */
  function PushAll<T>(h: seq<T>, xs: seq<T>, cap: nat): seq<T>
    decreases |xs|
  {
    if xs == [] then h else PushAll(Push(h, xs[0], cap), xs[1..], cap)
  }

  /** Trimming early changes nothing once the same bound is applied again. */
  lemma LastOfLast<T>(a: seq<T>, b: seq<T>, cap: nat)
    ensures Last(Last(a, cap) + b, cap) == Last(a + b, cap)
  {
    var la := Last(a, cap);
    if |a| > cap {
      assert a + b == a[..|a| - cap] + (la + b);
      if |la + b| > cap {
        assert (a + b)[|a + b| - cap..] == (la + b)[|la + b| - cap..];
      } else {
        assert |b| == 0;
        assert a + b == a && la + b == la;
      }
    }
  }

  /** A bounded history holds exactly the last `cap` entries ever pushed,
      in insertion order. */
  lemma {:induction false} PushAllKeepsLast<T>(h: seq<T>, xs: seq<T>, cap: nat)
    requires |h| <= cap
    ensures PushAll(h, xs, cap) == Last(h + xs, cap)
    decreases |xs|
  {
    if xs == [] {
      assert h + xs == h;
    } else {
      var h1 := Push(h, xs[0], cap);
      PushAllKeepsLast(h1, xs[1..], cap);
      LastOfLast(h + [xs[0]], xs[1..], cap);
      assert (h + [xs[0]]) + xs[1..] == h + xs;
    }
  }

  /** After more than `cap` insertions into an empty history, its length
      is `cap` and it holds the last `cap` insertions in order. */
  lemma OverfullHistory<T>(xs: seq<T>, cap: nat)
    requires |xs| > cap
    ensures |PushAll([], xs, cap)| == cap
    ensures PushAll([], xs, cap) == xs[|xs| - cap..]
  {
    PushAllKeepsLast([], xs, cap);
    assert [] + xs == xs;
  }
}
