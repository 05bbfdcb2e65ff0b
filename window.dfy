/**
 * The filter's fixed-length sample windows: each update drops the oldest
 * slot, moves every other slot one place toward the front and writes the
 * newest sample into the last slot (a left roll followed by a write).
 */
module Window {

  /** The window after one sample is written in. */
  function ShiftIn(s: seq<real>, x: real): (r: seq<real>)
    requires |s| > 0
    ensures |r| == |s|
    ensures forall i :: 0 <= i < |s| - 1 ==> r[i] == s[i + 1]
    ensures r[|s| - 1] == x
  {
    s[1..] + [x]
  }

  /** The window after the samples xs are written in, one after another. */
  function ShiftInAll(s: seq<real>, xs: seq<real>): seq<real>
    requires |s| > 0
    decreases |xs|
  {
    if xs == [] then s else ShiftInAll(ShiftIn(s, xs[0]), xs[1..])
  }

  /**
   * However many samples go in, the window keeps its length and holds the
   * newest ones in arrival order: after k <= N samples, the last N - k old
   * slots followed by the k new samples; after more, only the last N new
   * samples (the oldest are gone).
   */
  lemma {:induction false} ShiftInAllKeepsNewest(s: seq<real>, xs: seq<real>)
    requires |s| > 0
    ensures |ShiftInAll(s, xs)| == |s|
    ensures |xs| <= |s| ==> ShiftInAll(s, xs) == s[|xs|..] + xs
    ensures |xs| >= |s| ==> ShiftInAll(s, xs) == xs[|xs| - |s|..]
    decreases |xs|
  {
    if xs != [] {
      var s' := ShiftIn(s, xs[0]);
      ShiftInAllKeepsNewest(s', xs[1..]);
      assert s' == s[1..] + [xs[0]];
      if |xs| <= |s| {
        calc {
          ShiftInAll(s, xs);
          ShiftInAll(s', xs[1..]);
          s'[|xs| - 1..] + xs[1..];
          { assert s'[|xs| - 1..] == s[|xs|..] + [xs[0]]; }
          s[|xs|..] + [xs[0]] + xs[1..];
          { assert [xs[0]] + xs[1..] == xs; }
          s[|xs|..] + xs;
        }
      } else {
        assert xs[1..][|xs| - 1 - |s|..] == xs[|xs| - |s|..];
      }
    }
  }

  /** Rolls the array one place to the left and writes x into the last slot, in place. */
  method Roll(a: array<real>, x: real)
    requires a.Length > 0
    modifies a
    ensures a[..] == ShiftIn(old(a[..]), x)
  {
    var i := 0;
    while i < a.Length - 1
      invariant 0 <= i <= a.Length - 1
      invariant forall k :: 0 <= k < i ==> a[k] == old(a[k + 1])
      invariant forall k :: i <= k < a.Length ==> a[k] == old(a[k])
    {
      a[i] := a[i + 1];
      i := i + 1;
    }
    a[a.Length - 1] := x;
  }
}
