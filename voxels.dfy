/** Flat voxel buffers shared by the mask tools.  Every image of one run lives in the same
    space, so voxels of different images are paired by position in the buffer. */
module Voxels {

  /** An ITK `unsigned char` label voxel. */
  type Label = x: int | 0 <= x < 256

  /** A buffer of `n` zero labels (`FillBuffer(0)`). */
  function Zeros(n: nat): (r: seq<Label>)
    ensures |r| == n && forall i :: 0 <= i < n ==> r[i] == 0
  {
    seq(n, _ => 0)
  }

  /** Number of voxels whose label is > 0. */
  function Nonzero(s: seq<Label>): nat
  {
    if s == [] then 0 else Nonzero(s[..|s| - 1]) + (if s[|s| - 1] > 0 then 1 else 0)
  }

  /** Sum of the label values (what `StatisticsImageFilter::GetSum` reports for a label image). */
  function Sum(s: seq<Label>): nat
  {
    if s == [] then 0 else Sum(s[..|s| - 1]) + s[|s| - 1]
  }

  /** Counting the prefix one voxel further, as a voxel loop does. */
  lemma NonzeroStep(s: seq<Label>, i: nat)
    requires i < |s|
    ensures Nonzero(s[..i + 1]) == Nonzero(s[..i]) + (if s[i] > 0 then 1 else 0)
  {
    assert s[..i + 1][..i] == s[..i];
  }

  lemma SumStep(s: seq<Label>, i: nat)
    requires i < |s|
    ensures Sum(s[..i + 1]) == Sum(s[..i]) + s[i]
  {
    assert s[..i + 1][..i] == s[..i];
  }

  /** The nonzero count never exceeds the number of voxels. */
  lemma {:induction false} NonzeroAtMostLength(s: seq<Label>)
    ensures Nonzero(s) <= |s|
  {
    if s != [] { NonzeroAtMostLength(s[..|s| - 1]); }
  }

  /** Every nonzero label is at least 1, so the label sum bounds the nonzero count. */
  lemma {:induction false} NonzeroAtMostSum(s: seq<Label>)
    ensures Nonzero(s) <= Sum(s)
  {
    if s != [] { NonzeroAtMostSum(s[..|s| - 1]); }
  }

  /** A {0,1} buffer sums to its nonzero count. */
  lemma {:induction false} BinarySumIsNonzero(s: seq<Label>)
    requires forall i :: 0 <= i < |s| ==> s[i] <= 1
    ensures Sum(s) == Nonzero(s)
  {
    if s != [] { BinarySumIsNonzero(s[..|s| - 1]); }
  }

  /** A buffer without nonzero voxels has count 0, and only then. */
  lemma {:induction false} NonzeroZeroIff(s: seq<Label>)
    ensures Nonzero(s) == 0 <==> forall i :: 0 <= i < |s| ==> s[i] == 0
  {
    if s != [] {
      NonzeroZeroIff(s[..|s| - 1]);
      assert forall i :: 0 <= i < |s| - 1 ==> s[..|s| - 1][i] == s[i];
    }
  }

  /** If every nonzero voxel of `t` is nonzero in `s`, `t` has at most as many. */
  lemma {:induction false} NonzeroMonotone(t: seq<Label>, s: seq<Label>)
    requires |t| == |s|
    requires forall i :: 0 <= i < |t| && t[i] > 0 ==> s[i] > 0
    ensures Nonzero(t) <= Nonzero(s)
  {
    if t != [] {
      var n := |t| - 1;
      assert forall i :: 0 <= i < n ==> t[..n][i] == t[i] && s[..n][i] == s[i];
      NonzeroMonotone(t[..n], s[..n]);
    }
  }

  /** The lesion touches a voxel already set in the mask. */
  predicate Overlaps(mask: seq<Label>, lesion: seq<Label>)
    requires |lesion| == |mask|
  {
    exists i :: 0 <= i < |mask| && lesion[i] > 0 && mask[i] > 0
  }

  /** The overlap test: scans the lesion and stops at the first lesion voxel over a set mask voxel. */
  method CheckOverlap(mask: array<Label>, lesion: seq<Label>) returns (wontOverlap: bool)
    requires |lesion| == mask.Length
    ensures wontOverlap <==> !Overlaps(mask[..], lesion)
  {
    wontOverlap := true;
    var i := 0;
    while i < |lesion|
      invariant 0 <= i <= |lesion| && wontOverlap
      invariant forall j :: 0 <= j < i ==> !(lesion[j] > 0 && mask[j] > 0)
    {
      if lesion[i] > 0 {
        if mask[i] > 0 {
          wontOverlap := false;
          break;
        }
      }
      i := i + 1;
    }
    if !wontOverlap {
      assert lesion[i] > 0 && mask[..][i] > 0;
    }
  }
}
