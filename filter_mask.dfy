/** The FilterMask command-line module: keeps a lesion-mask voxel only when the image
    intensity under it lies strictly inside (mean - k*sd, mean + k*sd).  The label
    statistics (mean and standard deviation of the image under label 1) come from an ITK
    filter and are inputs here. */
module FilterMask {
  import opened Voxels

  /** The acceptance window `mean -/+ cutFactor*stdev`. */
  datatype Window = Window(minLimit: real, maxLimit: real)

  function Limits(mean: real, cutFactor: real, stdev: real): (w: Window)
    ensures w.maxLimit - mean == mean - w.minLimit == cutFactor * stdev
  {
    Window(mean - cutFactor * stdev, mean + cutFactor * stdev)
  }

  /** Whether a mask voxel survives: label > 0 and the intensity strictly inside the window. */
  predicate Keeps(w: Window, voxel: Label, intensity: real)
  {
    voxel > 0 && intensity < w.maxLimit && intensity > w.minLimit
  }

  /** The output mask as a function of the inputs. */
  function Filtered(mask: seq<Label>, image: seq<real>, w: Window): seq<Label>
    requires |image| == |mask|
  {
    seq(|mask|, i requires 0 <= i < |mask| => if Keeps(w, mask[i], image[i]) then 1 else 0)
  }

  /** The thresholding pass: a zero-filled output buffer receives a 1 wherever the input
      mask is nonzero and the intensity lies inside the window. */
  method Filter(mask: seq<Label>, image: seq<real>, w: Window) returns (out: array<Label>)
    requires |image| == |mask|
    ensures fresh(out)
    ensures out[..] == Filtered(mask, image, w)
  {
    out := new Label[|mask|](_ => 0);
    var i := 0;
    while i < |mask|
      invariant 0 <= i <= |mask| == out.Length
      invariant forall j :: 0 <= j < i ==> out[j] == Filtered(mask, image, w)[j]
      invariant forall j :: i <= j < |mask| ==> out[j] == 0
    {
      if mask[i] > 0 {
        if image[i] < w.maxLimit && image[i] > w.minLimit {
          out[i] := 1;
        }
      }
      i := i + 1;
    }
  }

  /** An output voxel is 1 exactly when the input label is > 0 and the intensity is strictly
      inside the window, and 0 otherwise, whatever the input label values are. */
  lemma FilteredVoxel(mask: seq<Label>, image: seq<real>, w: Window, i: nat)
    requires |image| == |mask| && i < |mask|
    ensures Filtered(mask, image, w)[i] == 1 <==> mask[i] > 0 && w.minLimit < image[i] < w.maxLimit
    ensures Filtered(mask, image, w)[i] == 0 || Filtered(mask, image, w)[i] == 1
  {
  }

  /** The output is a subset of the input mask, and the final volume (sum of the output)
      is at most the number of nonzero input voxels, which is at most the initial volume
      (sum of the input labels). */
  lemma FinalVolumeBound(mask: seq<Label>, image: seq<real>, w: Window)
    requires |image| == |mask|
    ensures forall i :: 0 <= i < |mask| && Filtered(mask, image, w)[i] > 0 ==> mask[i] > 0
    ensures Sum(Filtered(mask, image, w)) <= Nonzero(mask) <= Sum(mask)
  {
    var out := Filtered(mask, image, w);
    BinarySumIsNonzero(out);
    NonzeroMonotone(out, mask);
    NonzeroAtMostSum(mask);
  }

  /** With cutFactor 0 both limits equal the mean; strict comparisons then reject every voxel. */
  lemma ZeroCutIsEmpty(mask: seq<Label>, image: seq<real>, mean: real, stdev: real)
    requires |image| == |mask|
    ensures Nonzero(Filtered(mask, image, Limits(mean, 0.0, stdev))) == 0
  {
    var out := Filtered(mask, image, Limits(mean, 0.0, stdev));
    NonzeroZeroIff(out);
  }

  /** A window nested in another yields a subset of the other's output. */
  lemma WiderWindowKeepsMore(mask: seq<Label>, image: seq<real>, narrow: Window, wide: Window)
    requires |image| == |mask|
    requires wide.minLimit <= narrow.minLimit && narrow.maxLimit <= wide.maxLimit
    ensures forall i :: 0 <= i < |mask| ==> Filtered(mask, image, narrow)[i] <= Filtered(mask, image, wide)[i]
    ensures Nonzero(Filtered(mask, image, narrow)) <= Nonzero(Filtered(mask, image, wide))
  {
    NonzeroMonotone(Filtered(mask, image, narrow), Filtered(mask, image, wide));
  }

  /** For a nonnegative standard deviation, a larger cutFactor gives a wider window. */
  lemma LargerCutWidens(mean: real, stdev: real, k1: real, k2: real)
    requires 0.0 <= stdev && k1 <= k2
    ensures Limits(mean, k2, stdev).minLimit <= Limits(mean, k1, stdev).minLimit
    ensures Limits(mean, k1, stdev).maxLimit <= Limits(mean, k2, stdev).maxLimit
  {
    ProductNonnegative(k2 - k1, stdev);
    assert k2 * stdev - k1 * stdev == (k2 - k1) * stdev;
  }

  lemma ProductNonnegative(a: real, b: real)
    requires 0.0 <= a && 0.0 <= b
    ensures 0.0 <= a * b
  {
  }

  /** Filtering the filter's own output with the same image and window changes nothing. */
  lemma FilterIdempotent(mask: seq<Label>, image: seq<real>, w: Window)
    requires |image| == |mask|
    ensures Filtered(Filtered(mask, image, w), image, w) == Filtered(mask, image, w)
  {
  }
}
