/** The Hamming metric between two index sequences (calc_hamming_dist). */
module Hamming {
  import opened Results

  /** Number of positions at which two equal-length strings differ,
      counted over successive prefixes, as the loop over `zip` does. */
  function Distance(a: string, b: string): (d: nat)
    requires |a| == |b|
    ensures d <= |a|
    decreases |a|
  {
    if |a| == 0 then 0
    else Distance(a[..|a| - 1], b[..|b| - 1]) + (if a[|a| - 1] != b[|b| - 1] then 1 else 0)
  }

  /** The positions at which `a` and `b` disagree: an independent account of the metric. */
  function Mismatches(a: string, b: string): set<nat>
    requires |a| == |b|
  {
    set i: nat | i < |a| && a[i] != b[i]
  }

  /** The distance is exactly the number of mismatching positions. */
  lemma {:induction false} DistanceCountsMismatches(a: string, b: string)
    requires |a| == |b|
    ensures Distance(a, b) == |Mismatches(a, b)|
  {
    if |a| > 0 {
      var n := |a| - 1;
      var a', b' := a[..n], b[..n];
      DistanceCountsMismatches(a', b');
      var last := if a[n] != b[n] then {n} else {};
      assert Mismatches(a, b) == Mismatches(a', b') + last;
      assert n !in Mismatches(a', b');
    }
  }

  /** The metric does not depend on the order of its arguments. */
  lemma {:induction false} DistanceSymmetric(a: string, b: string)
    requires |a| == |b|
    ensures Distance(a, b) == Distance(b, a)
  {
    if |a| > 0 {
      DistanceSymmetric(a[..|a| - 1], b[..|b| - 1]);
    }
  }

  /** Distance zero holds exactly for identical strings; in particular Distance(a, a) == 0. */
  lemma {:induction false} DistanceZeroIffEqual(a: string, b: string)
    requires |a| == |b|
    ensures Distance(a, b) == 0 <==> a == b
  {
    if |a| > 0 {
      var n := |a| - 1;
      DistanceZeroIffEqual(a[..n], b[..n]);
      assert a == a[..n] + [a[n]];
      assert b == b[..n] + [b[n]];
    }
  }

  /** calc_hamming_dist: raises on a length mismatch, otherwise counts the
      differing positions with a counter. */
  method CalcHammingDist(seq1: string, seq2: string) returns (r: Result<nat>)
    ensures r.Err? <==> |seq1| != |seq2|
    ensures r.Err? ==> r.error == LengthMismatch
    ensures r.Ok? ==> |seq1| == |seq2| && r.value == Distance(seq1, seq2)
  {
    if |seq1| != |seq2| {
      return Err(LengthMismatch);
    }
    var distCounter := 0;
    for ix := 0 to |seq1|
      invariant distCounter == Distance(seq1[..ix], seq2[..ix])
    {
      assert seq1[..ix + 1][..ix] == seq1[..ix];
      assert seq2[..ix + 1][..ix] == seq2[..ix];
      if seq1[ix] != seq2[ix] {
        distCounter := distCounter + 1;
      }
    }
    assert seq1[..|seq1|] == seq1 && seq2[..|seq2|] == seq2;
    return Ok(distCounter);
  }
}
