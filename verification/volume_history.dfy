/** The ten-slot loudness history of main.go's model: newest first, always
    full (zero-filled at start), averaged over every slot. */
module VolumeHistory {

  const Capacity: nat := 10

  /** The initial history: Capacity zeros. */
  function Fresh(): (h: seq<real>)
    ensures |h| == Capacity
    ensures forall k :: 0 <= k < |h| ==> h[k] == 0.0
  {
    seq(Capacity, _ => 0.0)
  }

  /** A push: the overlapping copy moves every entry one slot toward the
      tail (the oldest falls off), then the new value lands in slot 0. */
  function Push(h: seq<real>, v: real): (r: seq<real>)
    requires |h| > 0
    ensures |r| == |h|
    ensures r[0] == v
    ensures forall k :: 0 <= k < |h| - 1 ==> r[k + 1] == h[k]
  {
    [v] + h[..|h| - 1]
  }

  /** Sum of the entries, accumulated front to back. */
  function Sum(s: seq<real>): real
  {
    if |s| == 0 then 0.0 else Sum(s[..|s| - 1]) + s[|s| - 1]
  }

  /** The arithmetic mean of every slot: it shares the slots' total, and no
      mean can lie above every slot or below every slot. */
  function Average(h: seq<real>): (avg: real)
    requires |h| > 0
    ensures avg * (|h| as real) == Sum(h)
    ensures exists k :: 0 <= k < |h| && h[k] <= avg
    ensures exists k :: 0 <= k < |h| && avg <= h[k]
  {
    var avg := Sum(h) / (|h| as real);
    SumStrictBounds(h, avg);
    avg
  }

  /** A sum over entries all strictly above (below) a is strictly above (below) |s| times a. */
  lemma {:induction false} SumStrictBounds(s: seq<real>, a: real)
    requires |s| > 0
    ensures (forall k :: 0 <= k < |s| ==> a < s[k]) ==> |s| as real * a < Sum(s)
    ensures (forall k :: 0 <= k < |s| ==> s[k] < a) ==> Sum(s) < |s| as real * a
  {
    if |s| > 1 {
      SumStrictBounds(s[..|s| - 1], a);
      assert (|s| - 1) as real * a + a == |s| as real * a;
    }
  }

  /** k successive pushes of the same value. */
  function PushRepeated(h: seq<real>, v: real, k: nat): (r: seq<real>)
    requires |h| > 0
    ensures |r| == |h|
  {
    if k == 0 then h else Push(PushRepeated(h, v, k - 1), v)
  }

  /** After k pushes of v, the first k slots hold v and the rest are the old
      entries moved k slots toward the tail. */
  lemma {:induction false} PushRepeatedShape(h: seq<real>, v: real, k: nat)
    requires |h| > 0
    ensures forall j :: 0 <= j < |h| ==>
              PushRepeated(h, v, k)[j] == (if j < k then v else h[j - k])
  {
    if k > 0 {
      PushRepeatedShape(h, v, k - 1);
      var prev := PushRepeated(h, v, k - 1);
      forall j | 0 <= j < |h|
        ensures PushRepeated(h, v, k)[j] == (if j < k then v else h[j - k])
      {
        if j > 0 {
          assert PushRepeated(h, v, k)[j] == prev[j - 1];
        }
      }
    }
  }

  lemma {:induction false} SumOfConstant(s: seq<real>, v: real)
    requires forall k :: 0 <= k < |s| ==> s[k] == v
    ensures Sum(s) == |s| as real * v
  {
    if |s| > 0 {
      SumOfConstant(s[..|s| - 1], v);
    }
  }

  lemma {:induction false} SumBounds(s: seq<real>, lo: real, hi: real)
    requires forall k :: 0 <= k < |s| ==> lo <= s[k] <= hi
    ensures |s| as real * lo <= Sum(s) <= |s| as real * hi
  {
    if |s| > 0 {
      SumBounds(s[..|s| - 1], lo, hi);
      assert (|s| - 1) as real * lo + lo == |s| as real * lo;
      assert (|s| - 1) as real * hi + hi == |s| as real * hi;
    }
  }

  /** The average lies between any bounds of the entries. */
  lemma AverageBounds(h: seq<real>, lo: real, hi: real)
    requires |h| > 0
    requires forall k :: 0 <= k < |h| ==> lo <= h[k] <= hi
    ensures lo <= Average(h) <= hi
  {
    SumBounds(h, lo, hi);
    var n := |h| as real;
    assert n * lo / n == lo;
    assert n * hi / n == hi;
  }

  /** Once the history has been filled by |h| pushes of v, its average is exactly v. */
  lemma AverageAfterFill(h: seq<real>, v: real, k: nat)
    requires |h| > 0
    requires k >= |h|
    ensures forall j :: 0 <= j < |h| ==> PushRepeated(h, v, k)[j] == v
    ensures Average(PushRepeated(h, v, k)) == v
  {
    PushRepeatedShape(h, v, k);
    var r := PushRepeated(h, v, k);
    SumOfConstant(r, v);
    var n := |r| as real;
    assert Average(r) * n == n * v;
    assert (Average(r) - v) * n == 0.0;
  }
}
