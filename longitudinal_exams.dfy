/** The MSLongitudinalExams command-line module: simulates follow-up exams of a lesioned
    volume.  At every time point each connected lesion either changes its intensity along
    a linear trend (a fixed share of the lesions, the largest labels first) or fluctuates
    around its level, and the accumulated lesion contrast map is written out.
    The smoothed deformation map, the connected-component labelling and the number of
    lesions come from ITK filters and are inputs here; the normal variates are a stream. */
module LongitudinalExams {
  import opened Wrappers
  import opened Text

  datatype Modality = T1 | T2 | Flair | PD | FA | ADC | Unrecognised

  /** The modality named by the `imageModality` argument. */
  function ModalityOf(name: string): Modality
  {
    if name == "T1" then T1
    else if name == "T2" then T2
    else if name == "T2-FLAIR" then Flair
    else if name == "PD" then PD
    else if name == "DTI-FA" then FA
    else if name == "DTI-ADC" then ADC
    else Unrecognised
  }

  function ModalityName(m: Modality): (name: string)
    requires m != Unrecognised
    ensures ModalityOf(name) == m
  {
    match m
    case T1 => "T1"
    case T2 => "T2"
    case Flair => "T2-FLAIR"
    case PD => "PD"
    case FA => "DTI-FA"
    case ADC => "DTI-ADC"
  }

  /** T1 and FA lesions brighten towards 1.0; T2, FLAIR, PD and ADC lesions darken towards it. */
  predicate CapsAtOne(m: Modality) { m == T1 || m == FA }
  predicate FloorsAtOne(m: Modality) { m == T2 || m == Flair || m == PD || m == ADC }

  function Abs(x: real): real { if x < 0.0 then -x else x }
  function Min(x: real, y: real): real { if x <= y then x else y }
  function Max(x: real, y: real): real { if x >= y then x else y }

  /** C++ conversion of a double to `int`, which truncates toward zero. */
  function TruncateToInt(x: real): (r: int)
    ensures x >= 0.0 ==> r as real <= x < r as real + 1.0
    ensures x < 0.0 ==> r as real - 1.0 < x <= r as real
  {
    if x >= 0.0 then x.Floor else -((-x).Floor)
  }

  /** `nChangingLesion`: the share `balanceHI` percent of the lesions, truncated. */
  function ChangingCount(nLesion: nat, balanceHI: real): (k: int)
    ensures 0.0 <= balanceHI <= 100.0 ==> 0 <= k <= nLesion
    ensures balanceHI >= 0.0 ==> k as real <= nLesion as real * balanceHI / 100.0 < k as real + 1.0
  {
    TruncateToInt(nLesion as real * (balanceHI / 100.0))
  }

  // ---------------------------------------------------------------------------
  // Intensity distributions and DC levels

  /** Mean contrast and standard deviation of a modality's lesion intensity. */
  datatype Contrast = Contrast(mean: real, std: real)
  datatype Params = Params(t1: Contrast, t2: Contrast, flair: Contrast, pd: Contrast, fa: Contrast, adc: Contrast)

  /** The Gaussian set up for the modality; an unrecognised one keeps the default N(0, 1). */
  function Gaussian(m: Modality, p: Params): Contrast
  {
    match m
    case T1 => p.t1
    case T2 => p.t2
    case Flair => p.flair
    case PD => p.pd
    case FA => p.fa
    case ADC => p.adc
    case Unrecognised => Contrast(0.0, 1.0)
  }

  /** `sqrt(gaussian->GetVariance())` with variance std². */
  function Sd(m: Modality, p: Params): real
  {
    Abs(Gaussian(m, p).std)
  }

  /** The linear trend of a changing lesion's DC level at time point t.  The FA trend uses
      the T1 contrast, as the source does. */
  function Trend(m: Modality, p: Params, t: nat): real
  {
    match m
    case T1 => ((1.0 - p.t1.mean) / 6.0) * t as real
    case FA => ((1.0 - p.t1.mean) / 6.0) * t as real
    case T2 => -((p.t2.mean - 1.0) / 6.0) * t as real
    case Flair => -((p.flair.mean - 1.0) / 6.0) * t as real
    case PD => -((p.pd.mean - 1.0) / 6.0) * t as real
    case ADC => -((p.adc.mean - 1.0) / 6.0) * t as real
    case Unrecognised => 0.0
  }

  /** DC level of a changing lesion from one normal variate g: the trend plus a local
      fluctuation |g|·variability·sd, added for T1/FA and subtracted for the others. */
  function ChangingDC(m: Modality, p: Params, t: nat, variability: real, g: real): (dc: real)
    ensures variability >= 0.0 && CapsAtOne(m) ==> Trend(m, p, t) <= dc <= Trend(m, p, t) + Abs(g) * variability * Sd(m, p)
    ensures variability >= 0.0 && FloorsAtOne(m) ==> Trend(m, p, t) - Abs(g) * variability * Sd(m, p) <= dc <= Trend(m, p, t)
  {
    var fluctuation := Abs(g) * variability * Sd(m, p);
    if CapsAtOne(m) then Trend(m, p, t) + fluctuation
    else if FloorsAtOne(m) then Trend(m, p, t) - fluctuation
    else 0.0
  }

  /** A drawn DC level and the position of the next unread variate. */
  datatype Drawn = Drawn(dc: real, next: nat)

  /** The changing branch's draw: one variate, redrawn for FA while the level exceeds 1.0;
      an unrecognised modality draws nothing.  None when the stream runs out. */
  function ChangingDraw(m: Modality, p: Params, t: nat, variability: real, vs: seq<real>, pos: nat): (r: Option<Drawn>)
    requires pos <= |vs|
    ensures m == Unrecognised ==> r == Some(Drawn(0.0, pos))
    ensures m != Unrecognised && r.Some? ==>
      && pos < r.value.next <= |vs|
      && r.value.dc == ChangingDC(m, p, t, variability, vs[r.value.next - 1])
      && (m != FA ==> r.value.next == pos + 1)
      && (m == FA ==> r.value.dc <= 1.0 && forall j :: pos <= j < r.value.next - 1 ==> ChangingDC(m, p, t, variability, vs[j]) > 1.0)
    ensures m != Unrecognised && r.None? ==>
      && (m != FA ==> pos == |vs|)
      && (m == FA ==> forall j :: pos <= j < |vs| ==> ChangingDC(m, p, t, variability, vs[j]) > 1.0)
    decreases |vs| - pos
  {
    if m == Unrecognised then Some(Drawn(0.0, pos))
    else if pos == |vs| then None
    else
      var dc := ChangingDC(m, p, t, variability, vs[pos]);
      if m == FA && dc > 1.0 then ChangingDraw(m, p, t, variability, vs, pos + 1)
      else Some(Drawn(dc, pos + 1))
  }

  /** The non-changing branch's draw: the first variate whose magnitude is at most the bound. */
  function StableDraw(bound: real, vs: seq<real>, pos: nat): (r: Option<Drawn>)
    requires pos <= |vs|
    ensures r.Some? ==>
      && pos < r.value.next <= |vs| && r.value.dc == vs[r.value.next - 1] && Abs(r.value.dc) <= bound
      && forall j :: pos <= j < r.value.next - 1 ==> Abs(vs[j]) > bound
    ensures r.None? ==> forall j :: pos <= j < |vs| ==> Abs(vs[j]) > bound
    decreases |vs| - pos
  {
    if pos == |vs| then None
    else if Abs(vs[pos]) <= bound then Some(Drawn(vs[pos], pos + 1))
    else StableDraw(bound, vs, pos + 1)
  }

  // ---------------------------------------------------------------------------
  // Voxel rules

  /** The value a changing lesion voxel of masked-map value v takes. */
  function ChangingVoxel(m: Modality, v: real, dc: real): (r: real)
    requires m != Unrecognised
    ensures CapsAtOne(m) ==> r == Min(v + dc, 1.0)
    ensures FloorsAtOne(m) ==> r == Max(v + dc, 1.0)
  {
    if CapsAtOne(m) then (if v + dc > 1.0 then 1.0 else v + dc)
    else (if v + dc < 1.0 then 1.0 else v + dc)
  }

  datatype Branch = Changing(m: Modality) | Stable

  /** The smoothed deformation map restricted to one lesion label (0 elsewhere). */
  function MaskedMap(smoothed: seq<real>, comps: seq<nat>, lesion: nat): (r: seq<real>)
    requires |comps| == |smoothed|
    ensures |r| == |smoothed|
    ensures forall i :: 0 <= i < |r| ==> r[i] == (if comps[i] == lesion then smoothed[i] else 0.0)
  {
    seq(|smoothed|, i requires 0 <= i < |smoothed| => if comps[i] == lesion then smoothed[i] else 0.0)
  }

  /** One lesion's pass over the accumulator: voxels where the masked map is nonzero are
      overwritten from the map and the DC level; the changing branch of an unrecognised
      modality writes nothing. */
  function LesionPass(acc: seq<real>, masked: seq<real>, b: Branch, dc: real): (r: seq<real>)
    requires |masked| == |acc|
    ensures |r| == |acc|
    ensures forall i :: 0 <= i < |acc| && masked[i] == 0.0 ==> r[i] == acc[i]
    ensures forall i :: 0 <= i < |acc| && masked[i] != 0.0 && b.Stable? ==> r[i] == masked[i] + dc
    ensures forall i :: 0 <= i < |acc| && masked[i] != 0.0 && b.Changing? && b.m != Unrecognised ==>
      r[i] == ChangingVoxel(b.m, masked[i], dc)
    ensures b == Changing(Unrecognised) ==> r == acc
  {
    seq(|acc|, i requires 0 <= i < |acc| =>
      if masked[i] == 0.0 then acc[i]
      else match b
        case Stable => masked[i] + dc
        case Changing(m) => if m == Unrecognised then acc[i] else ChangingVoxel(m, masked[i], dc))
  }

  // ---------------------------------------------------------------------------
  // The lesion loop of one time point

  /** Everything a run reads besides the variates and the accumulator. */
  datatype Study = Study(modality: string, p: Params, smoothed: seq<real>, comps: seq<nat>,
                         lesionMask: seq<nat>, nLesion: nat, balanceHI: real, variability: real)

  /** `variability*sqrt(gaussian->GetVariance())`: the largest |DC| of a non-changing lesion. */
  function StableBound(st: Study): real
  {
    st.variability * Sd(ModalityOf(st.modality), st.p)
  }

  predicate WellFormed(st: Study)
  {
    |st.comps| == |st.smoothed| && |st.lesionMask| == |st.smoothed|
  }

  datatype Pass = Pass(acc: seq<real>, pos: nat)

  /** One lesion of the loop: the branch's draw, then the voxel pass over its masked map. */
  function LesionStep(st: Study, t: nat, vs: seq<real>, acc: seq<real>, pos: nat, lesion: nat, changing: bool): (r: Option<Pass>)
    requires WellFormed(st) && |acc| == |st.smoothed| && pos <= |vs|
    ensures r.Some? ==> |r.value.acc| == |acc| && pos <= r.value.pos <= |vs|
  {
    var m := ModalityOf(st.modality);
    var masked := MaskedMap(st.smoothed, st.comps, lesion);
    var d := if changing then ChangingDraw(m, st.p, t, st.variability, vs, pos)
             else StableDraw(StableBound(st), vs, pos);
    if d.None? then None
    else Some(Pass(LesionPass(acc, masked, if changing then Changing(m) else Stable, d.value.dc), d.value.next))
  }

  /** What one lesion's step does to voxel i. */
  lemma StepVoxel(st: Study, t: nat, vs: seq<real>, acc: seq<real>, pos: nat, lesion: nat, changing: bool, i: nat)
    requires WellFormed(st) && |acc| == |st.smoothed| && pos <= |vs| && i < |acc|
    requires LesionStep(st, t, vs, acc, pos, lesion, changing).Some?
    ensures var m := ModalityOf(st.modality);
      var r := LesionStep(st, t, vs, acc, pos, lesion, changing).value.acc;
      && (st.comps[i] != lesion || st.smoothed[i] == 0.0 ==> r[i] == acc[i])
      && (st.comps[i] == lesion && st.smoothed[i] != 0.0 && changing && CapsAtOne(m) ==> r[i] <= 1.0)
      && (st.comps[i] == lesion && st.smoothed[i] != 0.0 && changing && FloorsAtOne(m) ==> r[i] >= 1.0)
      && (st.comps[i] == lesion && st.smoothed[i] != 0.0 && !changing ==>
            Abs(r[i] - st.smoothed[i]) <= StableBound(st))
  {
  }

  /** Lesions `lesion` down to 1, with `nChanging` changing lesions still to hand out. */
  function LesionsFrom(st: Study, t: nat, vs: seq<real>, acc: seq<real>, pos: nat, lesion: nat, nChanging: int): (r: Option<Pass>)
    requires WellFormed(st) && |acc| == |st.smoothed| && pos <= |vs|
    ensures r.Some? ==> |r.value.acc| == |acc| && pos <= r.value.pos <= |vs|
    decreases lesion
  {
    if lesion == 0 then Some(Pass(acc, pos))
    else match LesionStep(st, t, vs, acc, pos, lesion, nChanging > 0)
      case None => None
      case Some(q) => LesionsFrom(st, t, vs, q.acc, q.pos, lesion - 1, if nChanging > 0 then nChanging - 1 else nChanging)
  }

  /** The same loop with the branch decided by rank: a lesion changes iff its label exceeds
      `threshold`. */
  function LesionsRanked(st: Study, t: nat, vs: seq<real>, acc: seq<real>, pos: nat, lesion: nat, threshold: int): (r: Option<Pass>)
    requires WellFormed(st) && |acc| == |st.smoothed| && pos <= |vs|
    ensures r.Some? ==> |r.value.acc| == |acc| && pos <= r.value.pos <= |vs|
    decreases lesion
  {
    if lesion == 0 then Some(Pass(acc, pos))
    else match LesionStep(st, t, vs, acc, pos, lesion, lesion > threshold)
      case None => None
      case Some(q) => LesionsRanked(st, t, vs, q.acc, q.pos, lesion - 1, threshold)
  }

  function TimePoint(st: Study, t: nat, vs: seq<real>, acc: seq<real>, pos: nat): (r: Option<Pass>)
    requires WellFormed(st) && |acc| == |st.smoothed| && pos <= |vs|
    ensures r.Some? ==> |r.value.acc| == |acc| && pos <= r.value.pos <= |vs|
  {
    LesionsFrom(st, t, vs, acc, pos, st.nLesion, ChangingCount(st.nLesion, st.balanceHI))
  }

  /** The decrementing counter hands the changing branch to exactly the labels above a fixed
      threshold: while it is positive it equals `lesion - threshold`, once spent every
      remaining label is at most the threshold. */
  lemma {:induction false} CounterIsRank(st: Study, t: nat, vs: seq<real>, acc: seq<real>, pos: nat, lesion: nat, nChanging: int, threshold: int)
    requires WellFormed(st) && |acc| == |st.smoothed| && pos <= |vs|
    requires nChanging > 0 ==> nChanging == lesion - threshold
    requires nChanging <= 0 ==> lesion <= threshold
    ensures LesionsFrom(st, t, vs, acc, pos, lesion, nChanging) == LesionsRanked(st, t, vs, acc, pos, lesion, threshold)
    decreases lesion
  {
    if lesion > 0 {
      match LesionStep(st, t, vs, acc, pos, lesion, nChanging > 0)
      case None =>
      case Some(q) =>
        CounterIsRank(st, t, vs, q.acc, q.pos, lesion - 1, if nChanging > 0 then nChanging - 1 else nChanging, threshold);
    }
  }

  /** Visiting labels nLesion, nLesion-1, …, 1, the changing branch is taken by exactly the
      labels above `nLesion - nChangingLesion`, i.e. the first nChangingLesion visited. */
  lemma ChangingAreTheTopLabels(st: Study, t: nat, vs: seq<real>, acc: seq<real>, pos: nat)
    requires WellFormed(st) && |acc| == |st.smoothed| && pos <= |vs|
    ensures TimePoint(st, t, vs, acc, pos)
         == LesionsRanked(st, t, vs, acc, pos, st.nLesion, st.nLesion - ChangingCount(st.nLesion, st.balanceHI))
  {
    CounterIsRank(st, t, vs, acc, pos, st.nLesion, ChangingCount(st.nLesion, st.balanceHI),
                  st.nLesion - ChangingCount(st.nLesion, st.balanceHI));
  }

  /** Where a voxel ends up after the lesion loop.  A voxel whose label is not visited, or
      whose smoothed map value is 0, keeps its value.  A voxel of a changing lesion is
      clamped at 1.0 from above (T1, FA) or from below (T2, FLAIR, PD, ADC); a voxel of a
      stable lesion is its map value moved by at most variability·sd. */
  lemma {:induction false} RankedVoxel(st: Study, t: nat, vs: seq<real>, acc: seq<real>, pos: nat, lesion: nat, threshold: int, i: nat)
    requires WellFormed(st) && |acc| == |st.smoothed| && pos <= |vs| && i < |acc|
    requires LesionsRanked(st, t, vs, acc, pos, lesion, threshold).Some?
    ensures var m := ModalityOf(st.modality);
      var r := LesionsRanked(st, t, vs, acc, pos, lesion, threshold).value.acc;
      var c := st.comps[i];
      && (c == 0 || c > lesion || st.smoothed[i] == 0.0 ==> r[i] == acc[i])
      && (0 < c <= lesion && st.smoothed[i] != 0.0 && c > threshold && CapsAtOne(m) ==> r[i] <= 1.0)
      && (0 < c <= lesion && st.smoothed[i] != 0.0 && c > threshold && FloorsAtOne(m) ==> r[i] >= 1.0)
      && (0 < c <= lesion && st.smoothed[i] != 0.0 && c <= threshold ==>
            Abs(r[i] - st.smoothed[i]) <= StableBound(st))
    decreases lesion
  {
    if lesion > 0 {
      var q := LesionStep(st, t, vs, acc, pos, lesion, lesion > threshold).value;
      StepVoxel(st, t, vs, acc, pos, lesion, lesion > threshold, i);
      RankedVoxel(st, t, vs, q.acc, q.pos, lesion - 1, threshold, i);
    }
  }

  // ---------------------------------------------------------------------------
  // Time points and outputs

  /** A map of the mask's size that is 1.0 wherever the mask is 0. */
  predicate OneOutside(contrastMap: seq<real>, lesionMask: seq<nat>)
  {
    |contrastMap| == |lesionMask| && forall i :: 0 <= i < |lesionMask| && lesionMask[i] == 0 ==> contrastMap[i] == 1.0
  }

  /** The accumulator masked by the input lesion mask: 1.0 outside it.  (It is then smoothed
      and, for an exam, multiplied into the input volume.) */
  function FinalMap(acc: seq<real>, lesionMask: seq<nat>): (r: seq<real>)
    requires |lesionMask| == |acc|
    ensures OneOutside(r, lesionMask)
  {
    seq(|acc|, i requires 0 <= i < |acc| => if lesionMask[i] == 0 then 1.0 else acc[i])
  }

  /** `outputFolder + sep + "vol" + modality + "_TimePoint_"`. */
  function TimePointPrefix(folder: string, sep: string, modality: string): string
  {
    folder + sep + "vol" + modality + "_TimePoint_"
  }

  /** The exam is written as `.nii.gz`; the contrast map alone as `_lesionContrast.nii.gz`. */
  function Suffix(contrastOnly: bool): (x: string)
    ensures |x| > 0 && !('0' <= x[0] <= '9')
  {
    if contrastOnly then "_lesionContrast.nii.gz" else ".nii.gz"
  }

  function OutputPath(folder: string, sep: string, modality: string, t: nat, contrastOnly: bool): string
  {
    TimePointPrefix(folder, sep, modality) + (NatToString(t) + Suffix(contrastOnly))
  }

  /** Different time points, and exam versus contrast map, never share a file. */
  lemma OutputPathInjective(folder: string, sep: string, modality: string, t1: nat, c1: bool, t2: nat, c2: bool)
    requires OutputPath(folder, sep, modality, t1, c1) == OutputPath(folder, sep, modality, t2, c2)
    ensures t1 == t2 && c1 == c2
  {
    DropPrefix(TimePointPrefix(folder, sep, modality), NatToString(t1) + Suffix(c1), NatToString(t2) + Suffix(c2));
    SplitAfterDigits(NatToString(t1), Suffix(c1), NatToString(t2), Suffix(c2));
    NatToStringInjective(t1, t2);
  }

  datatype Output = Output(path: string, contrastMap: seq<real>)

  /** The files a run writes, and whether it reached the last time point. */
  datatype RunResult = RunResult(outputs: seq<Output>, complete: bool)

  /** Time points t .. followUps: each runs the lesion loop on the persistent accumulator
      and writes one file.  A run whose variates run out stops with the files so far. */
  function Run(st: Study, t: nat, followUps: nat, vs: seq<real>, acc: seq<real>, pos: nat,
               folder: string, sep: string, contrastOnly: bool): RunResult
    requires WellFormed(st) && |acc| == |st.smoothed| && pos <= |vs|
    decreases followUps + 1 - t
  {
    if t > followUps then RunResult([], true)
    else match TimePoint(st, t, vs, acc, pos)
      case None => RunResult([], false)
      case Some(pass) =>
        var rest := Run(st, t + 1, followUps, vs, pass.acc, pass.pos, folder, sep, contrastOnly);
        RunResult([Output(OutputPath(folder, sep, st.modality, t, contrastOnly), FinalMap(pass.acc, st.lesionMask))] + rest.outputs,
                  rest.complete)
  }

  /** A run writes at most one file per time point, and exactly one when it completes. */
  lemma {:induction false} RunLength(st: Study, t: nat, followUps: nat, vs: seq<real>, acc: seq<real>, pos: nat,
                                     folder: string, sep: string, contrastOnly: bool)
    requires WellFormed(st) && |acc| == |st.smoothed| && pos <= |vs|
    ensures var r := Run(st, t, followUps, vs, acc, pos, folder, sep, contrastOnly);
      && |r.outputs| <= (if t > followUps then 0 else followUps + 1 - t)
      && (r.complete ==> |r.outputs| == if t > followUps then 0 else followUps + 1 - t)
    decreases followUps + 1 - t
  {
    if t <= followUps {
      match TimePoint(st, t, vs, acc, pos)
      case None =>
      case Some(pass) =>
        RunLength(st, t + 1, followUps, vs, pass.acc, pass.pos, folder, sep, contrastOnly);
    }
  }

  /** Files written from time point t on: the k-th is for time point t + k and holds a map
      that is 1.0 outside the lesion mask. */
  predicate FilesFrom(outputs: seq<Output>, folder: string, sep: string, modality: string, t: nat, contrastOnly: bool,
                      lesionMask: seq<nat>)
  {
    forall k :: 0 <= k < |outputs| ==>
      && outputs[k].path == OutputPath(folder, sep, modality, t + k, contrastOnly)
      && OneOutside(outputs[k].contrastMap, lesionMask)
  }

  /** Every run writes its files in time-point order with maps that are 1.0 outside the
      lesion mask. */
  lemma {:induction false} RunFiles(st: Study, t: nat, followUps: nat, vs: seq<real>, acc: seq<real>, pos: nat,
                                    folder: string, sep: string, contrastOnly: bool)
    requires WellFormed(st) && |acc| == |st.smoothed| && pos <= |vs|
    ensures FilesFrom(Run(st, t, followUps, vs, acc, pos, folder, sep, contrastOnly).outputs,
                      folder, sep, st.modality, t, contrastOnly, st.lesionMask)
    decreases followUps + 1 - t
  {
    if t <= followUps {
      match TimePoint(st, t, vs, acc, pos)
      case None =>
      case Some(pass) =>
        RunFiles(st, t + 1, followUps, vs, pass.acc, pass.pos, folder, sep, contrastOnly);
        var rest := Run(st, t + 1, followUps, vs, pass.acc, pass.pos, folder, sep, contrastOnly).outputs;
        var first := Output(OutputPath(folder, sep, st.modality, t, contrastOnly), FinalMap(pass.acc, st.lesionMask));
        var r := Run(st, t, followUps, vs, acc, pos, folder, sep, contrastOnly).outputs;
        assert r == [first] + rest;
        FilesCons(first, rest, folder, sep, st.modality, t, contrastOnly, st.lesionMask);
    }
  }

  /** The files from time point t are the file for t followed by the files from t + 1. */
  lemma FilesCons(first: Output, rest: seq<Output>, folder: string, sep: string, modality: string, t: nat,
                  contrastOnly: bool, lesionMask: seq<nat>)
    requires first.path == OutputPath(folder, sep, modality, t, contrastOnly) && OneOutside(first.contrastMap, lesionMask)
    requires FilesFrom(rest, folder, sep, modality, t + 1, contrastOnly, lesionMask)
    ensures FilesFrom([first] + rest, folder, sep, modality, t, contrastOnly, lesionMask)
  {
    var r := [first] + rest;
    forall k | 0 <= k < |r|
      ensures r[k].path == OutputPath(folder, sep, modality, t + k, contrastOnly)
      ensures OneOutside(r[k].contrastMap, lesionMask)
    {
      if k > 0 {
        assert r[k] == rest[k - 1];
        assert rest[k - 1].path == OutputPath(folder, sep, modality, t + 1 + (k - 1), contrastOnly);
      }
    }
  }

  // ---------------------------------------------------------------------------
  // The imperative loops

  method DrawChanging(m: Modality, p: Params, t: nat, variability: real, vs: seq<real>, pos: nat) returns (r: Option<Drawn>)
    requires pos <= |vs|
    ensures r == ChangingDraw(m, p, t, variability, vs, pos)
  {
    if m == Unrecognised {
      return Some(Drawn(0.0, pos));
    }
    if pos == |vs| {
      return None;
    }
    var dc := ChangingDC(m, p, t, variability, vs[pos]);
    var next := pos + 1;
    if m == FA {
      while dc > 1.0
        invariant pos < next <= |vs| && dc == ChangingDC(m, p, t, variability, vs[next - 1])
        invariant ChangingDraw(m, p, t, variability, vs, next - 1) == ChangingDraw(m, p, t, variability, vs, pos)
        decreases |vs| - next
      {
        if next == |vs| {
          return None;
        }
        dc := ChangingDC(m, p, t, variability, vs[next]);
        next := next + 1;
      }
    }
    r := Some(Drawn(dc, next));
  }

  method DrawStable(bound: real, vs: seq<real>, pos: nat) returns (r: Option<Drawn>)
    requires pos <= |vs|
    ensures r == StableDraw(bound, vs, pos)
  {
    if pos == |vs| {
      return None;
    }
    var dc := vs[pos];
    var next := pos + 1;
    while Abs(dc) > bound
      invariant pos < next <= |vs| && dc == vs[next - 1]
      invariant StableDraw(bound, vs, next - 1) == StableDraw(bound, vs, pos)
      decreases |vs| - next
    {
      if next == |vs| {
        return None;
      }
      dc := vs[next];
      next := next + 1;
    }
    r := Some(Drawn(dc, next));
  }

  /** The voxel loop of one lesion, writing the accumulator in place. */
  method ModulateLesion(acc: array<real>, masked: seq<real>, b: Branch, dc: real)
    requires |masked| == acc.Length
    modifies acc
    ensures acc[..] == LesionPass(old(acc[..]), masked, b, dc)
  {
    ghost var before := acc[..];
    var i := 0;
    while i < acc.Length
      invariant 0 <= i <= acc.Length
      invariant forall j :: 0 <= j < i ==> acc[j] == LesionPass(before, masked, b, dc)[j]
      invariant forall j :: i <= j < acc.Length ==> acc[j] == before[j]
    {
      if masked[i] != 0.0 {
        match b
        case Stable => acc[i] := masked[i] + dc;
        case Changing(m) =>
          if m != Unrecognised {
            acc[i] := ChangingVoxel(m, masked[i], dc);
          }
      }
      i := i + 1;
    }
  }

  /** One lesion of the loop, on the accumulator in place; false when the variates run out. */
  method ModulateStep(acc: array<real>, st: Study, t: nat, vs: seq<real>, pos: nat, lesion: nat, changing: bool)
    returns (ok: bool, next: nat)
    requires WellFormed(st) && acc.Length == |st.smoothed| && pos <= |vs|
    modifies acc
    ensures var r := LesionStep(st, t, vs, old(acc[..]), pos, lesion, changing);
      (ok <==> r.Some?) && (ok ==> acc[..] == r.value.acc && next == r.value.pos)
  {
    var m := ModalityOf(st.modality);
    var masked := MaskedMap(st.smoothed, st.comps, lesion);
    ghost var before := acc[..];
    if changing {
      var d := DrawChanging(m, st.p, t, st.variability, vs, pos);
      if d.None? {
        return false, pos;
      }
      ModulateLesion(acc, masked, Changing(m), d.value.dc);
      ok, next := true, d.value.next;
      assert LesionStep(st, t, vs, before, pos, lesion, true) == Some(Pass(acc[..], next));
    } else {
      var d := DrawStable(StableBound(st), vs, pos);
      if d.None? {
        return false, pos;
      }
      ModulateLesion(acc, masked, Stable, d.value.dc);
      ok, next := true, d.value.next;
      assert LesionStep(st, t, vs, before, pos, lesion, false) == Some(Pass(acc[..], next));
    }
  }

  /** The lesion loop of time point t, labels nLesion down to 1; false when the variates run out. */
  method ModulateTimePoint(acc: array<real>, st: Study, t: nat, vs: seq<real>, pos: nat) returns (ok: bool, next: nat)
    requires WellFormed(st) && acc.Length == |st.smoothed| && pos <= |vs|
    modifies acc
    ensures var r := TimePoint(st, t, vs, old(acc[..]), pos);
      (ok <==> r.Some?) && (ok ==> acc[..] == r.value.acc && next == r.value.pos)
  {
    var nChangingLesion := ChangingCount(st.nLesion, st.balanceHI);
    var lesion := st.nLesion;
    next := pos;
    while lesion >= 1
      invariant next <= |vs| && acc.Length == |st.smoothed|
      invariant LesionsFrom(st, t, vs, acc[..], next, lesion, nChangingLesion) == TimePoint(st, t, vs, old(acc[..]), pos)
      decreases lesion
    {
      ghost var before := acc[..];
      ghost var beforeNext := next;
      var stepped;
      stepped, next := ModulateStep(acc, st, t, vs, next, lesion, nChangingLesion > 0);
      if !stepped {
        assert LesionsFrom(st, t, vs, before, beforeNext, lesion, nChangingLesion) == None;
        return false, next;
      }
      if nChangingLesion > 0 {
        nChangingLesion := nChangingLesion - 1;
      }
      lesion := lesion - 1;
    }
    ok := true;
  }

  lemma RunStops(st: Study, t: nat, followUps: nat, vs: seq<real>, acc: seq<real>, pos: nat,
                  folder: string, sep: string, contrastOnly: bool)
    requires WellFormed(st) && |acc| == |st.smoothed| && pos <= |vs| && t <= followUps
    requires TimePoint(st, t, vs, acc, pos).None?
    ensures Run(st, t, followUps, vs, acc, pos, folder, sep, contrastOnly) == RunResult([], false)
  {
  }

  lemma RunStep(st: Study, t: nat, followUps: nat, vs: seq<real>, acc: seq<real>, pos: nat,
                folder: string, sep: string, contrastOnly: bool)
    requires WellFormed(st) && |acc| == |st.smoothed| && pos <= |vs| && t <= followUps
    requires TimePoint(st, t, vs, acc, pos).Some?
    ensures var pass := TimePoint(st, t, vs, acc, pos).value;
            var rest := Run(st, t + 1, followUps, vs, pass.acc, pass.pos, folder, sep, contrastOnly);
            Run(st, t, followUps, vs, acc, pos, folder, sep, contrastOnly)
              == RunResult([Output(OutputPath(folder, sep, st.modality, t, contrastOnly), FinalMap(pass.acc, st.lesionMask))] + rest.outputs,
                           rest.complete)
  {
  }

  lemma RunDone(st: Study, t: nat, followUps: nat, vs: seq<real>, acc: seq<real>, pos: nat,
                folder: string, sep: string, contrastOnly: bool)
    requires WellFormed(st) && |acc| == |st.smoothed| && pos <= |vs| && t > followUps
    ensures Run(st, t, followUps, vs, acc, pos, folder, sep, contrastOnly) == RunResult([], true)
  {
  }

  /** One time point of the loop: the accumulator is modulated and, when the draws last,
      the file of time point t is written; what is written so far followed by the rest of
      the run is unchanged. */
  method Advance(acc: array<real>, st: Study, t: nat, followUps: nat, vs: seq<real>, pos: nat,
                 folder: string, sep: string, contrastOnly: bool, outputs: seq<Output>, ghost rest: RunResult)
    returns (ok: bool, next: nat, outputs': seq<Output>, ghost rest': RunResult)
    requires WellFormed(st) && acc.Length == |st.smoothed| && pos <= |vs| && t <= followUps
    requires rest == Run(st, t, followUps, vs, acc[..], pos, folder, sep, contrastOnly)
    modifies acc
    ensures !ok ==> rest == RunResult([], false) && outputs' == outputs
    ensures ok ==> next <= |vs| && rest' == Run(st, t + 1, followUps, vs, acc[..], next, folder, sep, contrastOnly)
    ensures ok ==> outputs' + rest'.outputs == outputs + rest.outputs && rest'.complete == rest.complete
  {
    ghost var before := acc[..];
    ok, next := ModulateTimePoint(acc, st, t, vs, pos);
    var out := Output(OutputPath(folder, sep, st.modality, t, contrastOnly), FinalMap(acc[..], st.lesionMask));
    outputs', rest' := outputs, rest;
    if !ok {
      RunStops(st, t, followUps, vs, before, pos, folder, sep, contrastOnly);
    } else {
      RunStep(st, t, followUps, vs, before, pos, folder, sep, contrastOnly);
      rest' := Run(st, t + 1, followUps, vs, acc[..], next, folder, sep, contrastOnly);
      outputs' := outputs + [out];
      assert outputs' + rest'.outputs == outputs + ([out] + rest'.outputs);
    }
  }

  /** The time-point loop `for t = 1 .. numberFollowUp` over one accumulator. */
  method Simulate(acc: array<real>, st: Study, followUps: nat, vs: seq<real>, folder: string, sep: string, contrastOnly: bool)
    returns (outputs: seq<Output>, complete: bool)
    requires WellFormed(st) && acc.Length == |st.smoothed|
    modifies acc
    ensures RunResult(outputs, complete) == Run(st, 1, followUps, vs, old(acc[..]), 0, folder, sep, contrastOnly)
  {
    outputs := [];
    var pos: nat := 0;
    var t := 1;
    ghost var goal := Run(st, t, followUps, vs, acc[..], pos, folder, sep, contrastOnly);
    ghost var rest := goal;
    while t <= followUps
      invariant 1 <= t && pos <= |vs| && acc.Length == |st.smoothed|
      invariant rest == Run(st, t, followUps, vs, acc[..], pos, folder, sep, contrastOnly)
      invariant outputs + rest.outputs == goal.outputs && rest.complete == goal.complete
      decreases followUps + 1 - t
    {
      var ok, next;
      ok, next, outputs, rest := Advance(acc, st, t, followUps, vs, pos, folder, sep, contrastOnly, outputs, rest);
      if !ok {
        assert outputs + [] == outputs;
        return outputs, false;
      }
      pos := next;
      t := t + 1;
    }
    RunDone(st, t, followUps, vs, acc[..], pos, folder, sep, contrastOnly);
    assert outputs + [] == outputs;
    complete := true;
  }
}
