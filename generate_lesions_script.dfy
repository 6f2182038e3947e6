/** The GenerateLesionsScript driver: T1 is always the reference space.  Every other
    selected volume is registered into it, a white-matter mask is estimated from T1, the
    MNI152 template is registered to T1, a lesion map is generated in template space,
    resampled into T1 space and masked by the white matter, and every selected volume is
    deformed with it; optionally the volumes are then returned to their own space, and
    the temporaries are removed. */
module GenerateLesionsScript {
  import opened Wrappers
  import opened MrmlScene
  import opened Modalities
  import MSLesionSimulator

  /** The panel's settings besides the volumes and the output label. */
  datatype Settings = Settings(returnSpace: bool, isBET: bool, lesionLoad: real,
                               sigma: real, homogeneity: real, variability: real)

  /** The two nodes a conform block allocates: `regXtoT1Transform` and `X_t1`. */
  datatype Pair = Pair(transform: NodeId, resampled: NodeId)

  /** The conform blocks' locals; None is a local the run never bound. */
  datatype Conformed = Conformed(t2: Option<Pair>, flair: Option<Pair>, pd: Option<Pair>,
                                 fa: Option<Pair>, adc: Option<Pair>)

  /** The nodes one run allocates or uses as the lesion map. */
  datatype Ids = Ids(conformed: Conformed, wmMask: NodeId, smooth: NodeId, smoothBias: NodeId,
                     mni: NodeId, mniT1: NodeId, regMNI: NodeId, lesionMap: NodeId, priors: NodeId)

  function PairOf(c: Conformed, m: Modality): Option<Pair>
  {
    match m
    case T1 => None
    case T2 => c.t2
    case Flair => c.flair
    case PD => c.pd
    case FA => c.fa
    case ADC => c.adc
  }

  /** Each conform local is bound exactly when its modality is selected. */
  predicate Bound(inputs: Inputs, c: Conformed)
  {
    (c.t2.Some? <==> inputs.t2.Some?) && (c.flair.Some? <==> inputs.flair.Some?) &&
    (c.pd.Some? <==> inputs.pd.Some?) && (c.fa.Some? <==> inputs.fa.Some?) && (c.adc.Some? <==> inputs.adc.Some?)
  }

  function PairNodes(p: Option<Pair>): set<NodeId>
  {
    if p.Some? then {p.value.transform, p.value.resampled} else {}
  }

  function ConformNodes(c: Conformed): set<NodeId>
  {
    PairNodes(c.t2) + PairNodes(c.flair) + PairNodes(c.pd) + PairNodes(c.fa) + PairNodes(c.adc)
  }

  /** Lines 278-279: the Apply button needs a T1 volume; with one, the MSLesionSimulator
      driver can run as well, and it too takes the T1 volume as its reference space. */
  function ApplyEnabled(inputs: Inputs): (enabled: bool)
    ensures enabled <==> Present(inputs, T1)
    ensures enabled ==> MSLesionSimulator.ApplyEnabled(inputs) && MSLesionSimulator.Reference(inputs) == inputs.t1
  {
    inputs.t1.Some?
  }

  // Paths under the user's home directory (lines 391-395, 415-428, 446-451).

  function DatabasePath(home: string): string
  {
    home + "/MSlesion_database"
  }

  function TemplatePath(home: string, isBET: bool): string
  {
    DatabasePath(home) + (if isBET then "/MNI152_T1_1mm_brain.nii.gz" else "/MNI152_T1_1mm.nii.gz")
  }

  function PriorsPath(home: string): string
  {
    DatabasePath(home) + "/USP-ICBM-MSpriors-46-1mm.nii.gz"
  }

  // The module calls of one run, block by block.

  /** `conformInputSpace` (lines 617-628): x is registered to t1 and resampled into `X_t1`. */
  function ConformCallOf(t1: NodeId, x: Option<NodeId>, p: Option<Pair>): seq<Call>
  {
    if x.Some? && p.Some? then [Call(LinearRegistration, [t1, x.value], [p.value.transform, p.value.resampled])] else []
  }

  /** Lines 344-383: T2, FLAIR, PD, FA, ADC. */
  function ConformCalls(inputs: Inputs, c: Conformed): seq<Call>
    requires inputs.t1.Some?
  {
    var t1 := inputs.t1.value;
    ConformCallOf(t1, inputs.t2, c.t2) + ConformCallOf(t1, inputs.flair, c.flair) + ConformCallOf(t1, inputs.pd, c.pd) +
    ConformCallOf(t1, inputs.fa, c.fa) + ConformCallOf(t1, inputs.adc, c.adc)
  }

  /** `doWhiteMatterMask` (lines 568-615). */
  function WhiteMatterCalls(t1: NodeId, wm: NodeId, smooth: NodeId, bias: NodeId): seq<Call>
  {
    [Call(AnisotropicDiffusion(10.0, 5, 1.2), [t1], [smooth]),
     Call(BiasFieldCorrection, [smooth], [bias]),
     Call(BrainTissues("T1", true, "White Matter"), [bias], [wm]),
     Call(LabelSmoothing(3, 0.2), [wm], [wm])]
  }

  /** The white-matter mask's provenance: T1 smoothed, bias corrected, segmented, smoothed. */
  function WhiteMatterOf(t1: Content): Content
  {
    Produced(LabelSmoothing(3, 0.2), 0, [
      Produced(BrainTissues("T1", true, "White Matter"), 0, [
        Produced(BiasFieldCorrection, 0, [
          Produced(AnisotropicDiffusion(10.0, 5, 1.2), 0, [t1])])])])
  }

  /** Lines 412-445 and 454-459: the template registration, the lesion map, its
      resampling into T1 space and its product with the white-matter mask. */
  function TemplateCalls(s: Settings, home: string, t1: NodeId, ids: Ids): seq<Call>
  {
    [Call(BSplineRegistration(0.002, "3,3,3", "useMomentsAlign"), [t1, ids.mni], [ids.regMNI, ids.mniT1]),
     Call(GenerateMask(s.lesionLoad, DatabasePath(home) + "/labels-database"), [ids.priors], [ids.lesionMap]),
     Call(Resample(ResampleParamsFor(true, false)), [ids.lesionMap, t1, ids.regMNI], [ids.lesionMap]),
     Call(MultiplyVolumes, [ids.lesionMap, ids.wmMask], [ids.lesionMap])]
  }

  function DeformTool(s: Settings, m: Modality): Tool
  {
    DeformImage(Name(m), s.sigma, Some(s.homogeneity), s.variability)
  }

  /** A deform block: the volume in T1 space is deformed into the input node. */
  function DeformCallOf(s: Settings, m: Modality, x: Option<NodeId>, p: Option<Pair>, lesionMap: NodeId): seq<Call>
  {
    if x.Some? && p.Some? then [Call(DeformTool(s, m), [p.value.resampled, lesionMap], [x.value])] else []
  }

  /** Lines 466-492: T1 in place, then FLAIR, T2, PD, FA, ADC. */
  function DeformCalls(inputs: Inputs, s: Settings, c: Conformed, lesionMap: NodeId): seq<Call>
    requires inputs.t1.Some?
  {
    [Call(DeformTool(s, T1), [inputs.t1.value, lesionMap], [inputs.t1.value])] +
    DeformCallOf(s, Flair, inputs.flair, c.flair, lesionMap) + DeformCallOf(s, T2, inputs.t2, c.t2, lesionMap) +
    DeformCallOf(s, PD, inputs.pd, c.pd, lesionMap) + DeformCallOf(s, FA, inputs.fa, c.fa, lesionMap) +
    DeformCallOf(s, ADC, inputs.adc, c.adc, lesionMap)
  }

  /** A return block: the inverse resample of `X_t1` into the input node. */
  function ReturnCallOf(x: Option<NodeId>, p: Option<Pair>): seq<Call>
  {
    if x.Some? && p.Some? then [Call(Resample(ResampleParamsFor(false, true)), [p.value.resampled, x.value, p.value.transform], [x.value])] else []
  }

  /** Lines 497-522: T2, FLAIR, PD, FA, ADC. */
  function ReturnCalls(inputs: Inputs, c: Conformed): seq<Call>
  {
    ReturnCallOf(inputs.t2, c.t2) + ReturnCallOf(inputs.flair, c.flair) + ReturnCallOf(inputs.pd, c.pd) +
    ReturnCallOf(inputs.fa, c.fa) + ReturnCallOf(inputs.adc, c.adc)
  }

  /** Every module one run starts, in order. */
  function RunCalls(inputs: Inputs, s: Settings, home: string, ids: Ids): seq<Call>
    requires inputs.t1.Some?
  {
    var t1 := inputs.t1.value;
    ConformCalls(inputs, ids.conformed) + WhiteMatterCalls(t1, ids.wmMask, ids.smooth, ids.smoothBias) +
    TemplateCalls(s, home, t1, ids) + DeformCalls(inputs, s, ids.conformed, ids.lesionMap) +
    (if s.returnSpace then ReturnCalls(inputs, ids.conformed) else [])
  }

  // Properties of the call sequence.

  /** Every registration of a run has the T1 volume as its fixed image. */
  lemma T1IsReferenceSpace(inputs: Inputs, s: Settings, home: string, ids: Ids)
    requires inputs.t1.Some?
    ensures forall call :: call in RunCalls(inputs, s, home, ids) && (call.tool.LinearRegistration? || call.tool.BSplineRegistration?) ==>
              |call.ins| > 0 && call.ins[0] == inputs.t1.value
  {
    var t1, c := inputs.t1.value, ids.conformed;
    var a := ConformCalls(inputs, c);
    var w := WhiteMatterCalls(t1, ids.wmMask, ids.smooth, ids.smoothBias);
    var t := TemplateCalls(s, home, t1, ids);
    var d := DeformCalls(inputs, s, c, ids.lesionMap);
    var e := if s.returnSpace then ReturnCalls(inputs, c) else [];
    ConformCallsRegister(inputs, c);
    DeformCallsDeform(inputs, s, c, ids.lesionMap);
    ReturnCallsResample(inputs, c);
    TemplateRegisters(s, home, t1, ids);
    assert RunCalls(inputs, s, home, ids) == a + w + t + d + e;
    forall call: Call | call in a + w + t + d + e && (call.tool.LinearRegistration? || call.tool.BSplineRegistration?)
      ensures |call.ins| > 0 && call.ins[0] == t1
    {
      if call in a {
      } else if call in w {
      } else if call in t {
      } else if call in d {
      }
    }
  }

  /** The white-matter stage registers nothing; the template stage's one registration is
      to T1. */
  lemma TemplateRegisters(s: Settings, home: string, t1: NodeId, ids: Ids)
    ensures forall call :: call in WhiteMatterCalls(t1, ids.wmMask, ids.smooth, ids.smoothBias) ==>
              !call.tool.LinearRegistration? && !call.tool.BSplineRegistration?
    ensures forall call :: call in TemplateCalls(s, home, t1, ids) && (call.tool.LinearRegistration? || call.tool.BSplineRegistration?) ==>
              call.ins == [t1, ids.mni]
  {
  }

  lemma ConformCallsRegister(inputs: Inputs, c: Conformed)
    requires inputs.t1.Some?
    ensures forall call :: call in ConformCalls(inputs, c) ==> call.tool == LinearRegistration && |call.ins| == 2 && call.ins[0] == inputs.t1.value
  {
  }

  lemma DeformCallsDeform(inputs: Inputs, s: Settings, c: Conformed, lesionMap: NodeId)
    requires inputs.t1.Some?
    ensures forall call :: call in DeformCalls(inputs, s, c, lesionMap) ==> call.tool.DeformImage?
  {
  }

  lemma ReturnCallsResample(inputs: Inputs, c: Conformed)
    ensures forall call :: call in ReturnCalls(inputs, c) ==> call.tool == Resample(ResampleParamsFor(false, true))
  {
  }

  /** A deform block deforms its own modality, when selected, and no other. */
  lemma DeformCallOfCount(s: Settings, m': Modality, x: Option<NodeId>, p: Option<Pair>, lesionMap: NodeId, m: Modality)
    ensures MSLesionSimulator.SimulationsOf(DeformCallOf(s, m', x, p, lesionMap), Name(m)) ==
            if x.Some? && p.Some? && m' == m then 1 else 0
  {
    if x.Some? && p.Some? {
      var call := Call(DeformTool(s, m'), [p.value.resampled, lesionMap], [x.value]);
      MSLesionSimulator.SimulationsOfSingle(call, Name(m));
      if MSLesionSimulator.SimulatesModality(call, Name(m)) {
        NamesDistinct(m', m);
      }
    }
  }

  /** The simulations in the deform blocks are those of each block. */
  lemma {:induction false} DeformCallsSum(inputs: Inputs, s: Settings, c: Conformed, lm: NodeId, name: string)
    requires inputs.t1.Some?
    ensures MSLesionSimulator.SimulationsOf(DeformCalls(inputs, s, c, lm), name) ==
            MSLesionSimulator.SimulationsOf([Call(DeformTool(s, T1), [inputs.t1.value, lm], [inputs.t1.value])], name) +
            MSLesionSimulator.SimulationsOf(DeformCallOf(s, Flair, inputs.flair, c.flair, lm), name) +
            MSLesionSimulator.SimulationsOf(DeformCallOf(s, T2, inputs.t2, c.t2, lm), name) +
            MSLesionSimulator.SimulationsOf(DeformCallOf(s, PD, inputs.pd, c.pd, lm), name) +
            MSLesionSimulator.SimulationsOf(DeformCallOf(s, FA, inputs.fa, c.fa, lm), name) +
            MSLesionSimulator.SimulationsOf(DeformCallOf(s, ADC, inputs.adc, c.adc, lm), name)
  {
    var t1 := inputs.t1.value;
    var d0 := [Call(DeformTool(s, T1), [t1, lm], [t1])];
    var d1, d2, d3, d4, d5 := DeformCallOf(s, Flair, inputs.flair, c.flair, lm), DeformCallOf(s, T2, inputs.t2, c.t2, lm),
                              DeformCallOf(s, PD, inputs.pd, c.pd, lm), DeformCallOf(s, FA, inputs.fa, c.fa, lm),
                              DeformCallOf(s, ADC, inputs.adc, c.adc, lm);
    MSLesionSimulator.SimulationsOfAppend(d0, d1, name);
    MSLesionSimulator.SimulationsOfAppend(d0 + d1, d2, name);
    MSLesionSimulator.SimulationsOfAppend(d0 + d1 + d2, d3, name);
    MSLesionSimulator.SimulationsOfAppend(d0 + d1 + d2 + d3, d4, name);
    MSLesionSimulator.SimulationsOfAppend(d0 + d1 + d2 + d3 + d4, d5, name);
  }

  /** The deform blocks deform each selected volume once, under its own modality name. */
  lemma DeformCallsCount(inputs: Inputs, s: Settings, c: Conformed, lm: NodeId, m: Modality)
    requires inputs.t1.Some? && Bound(inputs, c)
    ensures MSLesionSimulator.SimulationsOf(DeformCalls(inputs, s, c, lm), Name(m)) == if Present(inputs, m) then 1 else 0
  {
    var t1 := inputs.t1.value;
    var call := Call(DeformTool(s, T1), [t1, lm], [t1]);
    MSLesionSimulator.SimulationsOfSingle(call, Name(m));
    if MSLesionSimulator.SimulatesModality(call, Name(m)) {
      NamesDistinct(T1, m);
    }
    DeformCallOfCount(s, Flair, inputs.flair, c.flair, lm, m);
    DeformCallOfCount(s, T2, inputs.t2, c.t2, lm, m);
    DeformCallOfCount(s, PD, inputs.pd, c.pd, lm, m);
    DeformCallOfCount(s, FA, inputs.fa, c.fa, lm, m);
    DeformCallOfCount(s, ADC, inputs.adc, c.adc, lm, m);
    DeformCallsSum(inputs, s, c, lm, Name(m));
  }

  lemma NoSimulationOutsideDeform(inputs: Inputs, s: Settings, home: string, ids: Ids)
    requires inputs.t1.Some?
    ensures MSLesionSimulator.NoSimulation(ConformCalls(inputs, ids.conformed))
    ensures MSLesionSimulator.NoSimulation(WhiteMatterCalls(inputs.t1.value, ids.wmMask, ids.smooth, ids.smoothBias))
    ensures MSLesionSimulator.NoSimulation(TemplateCalls(s, home, inputs.t1.value, ids))
    ensures MSLesionSimulator.NoSimulation(if s.returnSpace then ReturnCalls(inputs, ids.conformed) else [])
  {
    ConformCallsRegister(inputs, ids.conformed);
    ReturnCallsResample(inputs, ids.conformed);
  }

  /** Every selected volume is deformed exactly once in a run, under its own modality
      name, and no other modality name is deformed. */
  lemma {:induction false} DeformedOncePerModality(inputs: Inputs, s: Settings, home: string, ids: Ids, m: Modality)
    requires inputs.t1.Some? && Bound(inputs, ids.conformed)
    ensures MSLesionSimulator.SimulationsOf(RunCalls(inputs, s, home, ids), Name(m)) == if Present(inputs, m) then 1 else 0
  {
    var t1, c, name := inputs.t1.value, ids.conformed, Name(m);
    var a := ConformCalls(inputs, c);
    var w := WhiteMatterCalls(t1, ids.wmMask, ids.smooth, ids.smoothBias);
    var t := TemplateCalls(s, home, t1, ids);
    var d := DeformCalls(inputs, s, c, ids.lesionMap);
    var e := if s.returnSpace then ReturnCalls(inputs, c) else [];
    NoSimulationOutsideDeform(inputs, s, home, ids);
    MSLesionSimulator.NoSimulationCounts(a, name);
    MSLesionSimulator.NoSimulationCounts(w, name);
    MSLesionSimulator.NoSimulationCounts(t, name);
    MSLesionSimulator.NoSimulationCounts(e, name);
    DeformCallsCount(inputs, s, c, ids.lesionMap, m);
    MSLesionSimulator.SimulationsOfAppend(a, w, name);
    MSLesionSimulator.SimulationsOfAppend(a + w, t, name);
    MSLesionSimulator.SimulationsOfAppend(a + w + t, d, name);
    MSLesionSimulator.SimulationsOfAppend(a + w + t + d, e, name);
  }

  /** With returnSpace, each returned volume is resampled from the same `X_t1` node its
      deform block read, by the inverse of the transform its conform block computed, and
      written into the node the deform block had written (lines 476-492, 497-522): the
      return step replaces the deformed volume by an undeformed one. */
  lemma ReturnOverwritesDeformation(inputs: Inputs, s: Settings, c: Conformed, lesionMap: NodeId, m: Modality)
    requires inputs.t1.Some? && Bound(inputs, c) && m != T1 && Present(inputs, m)
    ensures var conform := ConformCallOf(inputs.t1.value, Volume(inputs, m), PairOf(c, m));
            var deform := DeformCallOf(s, m, Volume(inputs, m), PairOf(c, m), lesionMap);
            var back := ReturnCallOf(Volume(inputs, m), PairOf(c, m));
            |conform| == 1 && |deform| == 1 && |back| == 1 &&
            back[0].ins[0] == conform[0].outs[1] == deform[0].ins[0] &&
            back[0].ins[2] == conform[0].outs[0] &&
            back[0].outs == deform[0].outs == [Volume(inputs, m).value] &&
            back[0].tool.Resample? && back[0].tool.params.inverseTransform
  {
    var q := ResampleParamsFor(false, true);
  }

  // The run on the scene.

  function OptNodes(x: Option<NodeId>): set<NodeId>
  {
    if x.Some? then {x.value} else {}
  }

  /** The selected volumes other than T1: the nodes the deform and return blocks write. */
  function OtherInputs(inputs: Inputs): set<NodeId>
  {
    OptNodes(inputs.flair) + OptNodes(inputs.t2) + OptNodes(inputs.pd) + OptNodes(inputs.fa) + OptNodes(inputs.adc)
  }

  /** Every node of content0 outside except keeps its content in content. */
  ghost predicate KeptExcept(content0: map<NodeId, Content>, content: map<NodeId, Content>, except: set<NodeId>)
  {
    forall id :: id in content0 && id !in except ==> id in content && content[id] == content0[id]
  }

  lemma KeptTrans(a: map<NodeId, Content>, b: map<NodeId, Content>, c: map<NodeId, Content>, s1: set<NodeId>, s2: set<NodeId>)
    requires KeptExcept(a, b, s1) && KeptExcept(b, c, s2)
    ensures KeptExcept(a, c, s1 + s2)
  {
  }

  /** The `X_t1` node of a bound conform local holds the registration of x's data in
      content0 to the T1 data t1c. */
  ghost predicate ResampledOK(t1c: Content, x: Option<NodeId>, p: Option<Pair>, content0: map<NodeId, Content>, content: map<NodeId, Content>)
  {
    x.Some? && p.Some? ==>
      x.value in content0 && p.value.resampled in content &&
      content[p.value.resampled] == Produced(LinearRegistration, 1, [t1c, content0[x.value]])
  }

  lemma ResampledTransfer(t1c: Content, x: Option<NodeId>, p: Option<Pair>, c0: map<NodeId, Content>,
                          c1: map<NodeId, Content>, c2: map<NodeId, Content>, except: set<NodeId>)
    requires ResampledOK(t1c, x, p, c0, c1) && KeptExcept(c1, c2, except)
    requires p.Some? ==> p.value.resampled !in except
    ensures ResampledOK(t1c, x, p, c0, c2)
  {
  }

  lemma ResampledRebase(t1: NodeId, x: Option<NodeId>, p: Option<Pair>, c0: map<NodeId, Content>,
                        ci: map<NodeId, Content>, cj: map<NodeId, Content>)
    requires KeptExcept(c0, ci, {}) && t1 in c0 && (x.Some? ==> x.value in c0)
    requires t1 in ci && ResampledOK(ci[t1], x, p, ci, cj)
    ensures ResampledOK(c0[t1], x, p, c0, cj)
  {
    assert ci[t1] == c0[t1];
    if x.Some? {
      assert ci[x.value] == c0[x.value];
    }
  }

  /** Every bound conform local's `X_t1` node holds its registration. */
  ghost predicate AllResampled(inputs: Inputs, c: Conformed, content0: map<NodeId, Content>, content: map<NodeId, Content>)
    requires inputs.t1.Some? && inputs.t1.value in content0
  {
    var t1c := content0[inputs.t1.value];
    ResampledOK(t1c, inputs.t2, c.t2, content0, content) && ResampledOK(t1c, inputs.flair, c.flair, content0, content) &&
    ResampledOK(t1c, inputs.pd, c.pd, content0, content) && ResampledOK(t1c, inputs.fa, c.fa, content0, content) &&
    ResampledOK(t1c, inputs.adc, c.adc, content0, content)
  }

  lemma AllResampledTransfer(inputs: Inputs, c: Conformed, c0: map<NodeId, Content>, c1: map<NodeId, Content>,
                             c2: map<NodeId, Content>, except: set<NodeId>)
    requires inputs.t1.Some? && inputs.t1.value in c0
    requires AllResampled(inputs, c, c0, c1) && KeptExcept(c1, c2, except)
    requires forall id :: id in ConformNodes(c) ==> id !in except
    ensures AllResampled(inputs, c, c0, c2)
  {
    var t1c := c0[inputs.t1.value];
    ResampledTransfer(t1c, inputs.t2, c.t2, c0, c1, c2, except);
    ResampledTransfer(t1c, inputs.flair, c.flair, c0, c1, c2, except);
    ResampledTransfer(t1c, inputs.pd, c.pd, c0, c1, c2, except);
    ResampledTransfer(t1c, inputs.fa, c.fa, c0, c1, c2, except);
    ResampledTransfer(t1c, inputs.adc, c.adc, c0, c1, c2, except);
  }

  /** One conform block (lines 344-383): a new transform node, a new `X_t1` node, and
      the registration of x to t1 written into both. */
  method ConformIf(scene: Scene, t1: NodeId, x: Option<NodeId>) returns (p: Option<Pair>)
    requires scene.Valid() && t1 in scene.nodes && (x.Some? ==> x.value in scene.nodes)
    modifies scene
    ensures scene.Valid() && (p.Some? <==> x.Some?)
    ensures scene.next == old(scene.next) + (if x.Some? then 2 else 0)
    ensures p.Some? ==> p.value == Pair(old(scene.next), old(scene.next) + 1)
    ensures scene.nodes == old(scene.nodes) + PairNodes(p)
    ensures MSLesionSimulator.InRange(PairNodes(p), old(scene.next), scene.next)
    ensures scene.log == old(scene.log) + ConformCallOf(t1, x, p)
    ensures KeptExcept(old(scene.content), scene.content, {})
    ensures ResampledOK(old(scene.content)[t1], x, p, old(scene.content), scene.content)
  {
    if x.Some? {
      var transform := scene.AddNode();
      var resampled := scene.AddNode();
      ghost var before := scene.content;
      scene.Execute(LinearRegistration, [t1, x.value], [transform, resampled]);
      assert LastPort([transform, resampled], 1);
      assert ContentsOf(before, [t1, x.value]) == [before[t1], before[x.value]];
      p := Some(Pair(transform, resampled));
    } else {
      p := None;
    }
  }

  lemma InRangeJoin(a: set<NodeId>, b: set<NodeId>, lo: NodeId, mid: NodeId, hi: NodeId)
    requires MSLesionSimulator.InRange(a, lo, mid) && MSLesionSimulator.InRange(b, mid, hi) && lo <= mid <= hi
    ensures MSLesionSimulator.InRange(a + b, lo, hi)
  {
  }

  /** The conform locals after the first i conform blocks: bound exactly for the selected
      modalities among them. */
  predicate BoundBelow(inputs: Inputs, c: Conformed, i: nat)
  {
    (c.t2.Some? <==> inputs.t2.Some? && 0 < i) && (c.flair.Some? <==> inputs.flair.Some? && 1 < i) &&
    (c.pd.Some? <==> inputs.pd.Some? && 2 < i) && (c.fa.Some? <==> inputs.fa.Some? && 3 < i) &&
    (c.adc.Some? <==> inputs.adc.Some? && 4 < i)
  }

  function WithPair(c: Conformed, m: Modality, p: Option<Pair>): Conformed
  {
    match m
    case T1 => c
    case T2 => c.(t2 := p)
    case Flair => c.(flair := p)
    case PD => c.(pd := p)
    case FA => c.(fa := p)
    case ADC => c.(adc := p)
  }

  /** The state after the first i conform blocks. */
  ghost predicate ConformedSoFar(inputs: Inputs, c: Conformed, nodes0: set<NodeId>, n0: NodeId, log0: seq<Call>,
                                 content0: map<NodeId, Content>, nodes: set<NodeId>, next: NodeId, log: seq<Call>,
                                 content: map<NodeId, Content>, i: nat)
    requires inputs.t1.Some? && inputs.t1.value in content0
  {
    ConformShape(inputs, c, nodes0, n0, log0, nodes, next, log, i) && ConformContent(inputs, c, content0, content)
  }

  /** The nodes and calls after the first i conform blocks. */
  predicate ConformShape(inputs: Inputs, c: Conformed, nodes0: set<NodeId>, n0: NodeId, log0: seq<Call>,
                         nodes: set<NodeId>, next: NodeId, log: seq<Call>, i: nat)
    requires inputs.t1.Some?
  {
    BoundBelow(inputs, c, i) && nodes == nodes0 + ConformNodes(c) && n0 <= next &&
    MSLesionSimulator.InRange(ConformNodes(c), n0, next) && log == log0 + ConformCalls(inputs, c)
  }

  /** The data after the conform blocks so far: nothing overwritten, every `X_t1` registered. */
  ghost predicate ConformContent(inputs: Inputs, c: Conformed, content0: map<NodeId, Content>, content: map<NodeId, Content>)
    requires inputs.t1.Some? && inputs.t1.value in content0
  {
    KeptExcept(content0, content, {}) && AllResampled(inputs, c, content0, content)
  }

  /** A conform block leaves the other modalities' locals alone. */
  lemma WithPairFields(inputs: Inputs, c: Conformed, i: nat, p: Option<Pair>)
    requires i < 5 && BoundBelow(inputs, c, i) && (p.Some? <==> Volume(inputs, ConformAt(i)).Some?)
    ensures BoundBelow(inputs, WithPair(c, ConformAt(i), p), i + 1)
    ensures PairOf(WithPair(c, ConformAt(i), p), ConformAt(i)) == p && PairOf(c, ConformAt(i)) == None
    ensures ConformNodes(WithPair(c, ConformAt(i), p)) == ConformNodes(c) + PairNodes(p)
  {
  }

  /** A conform block appends its own call to the calls of the blocks before it. */
  lemma WithPairCalls(inputs: Inputs, c: Conformed, i: nat, p: Option<Pair>)
    requires i < 5 && inputs.t1.Some? && BoundBelow(inputs, c, i)
    ensures ConformCalls(inputs, WithPair(c, ConformAt(i), p)) ==
            ConformCalls(inputs, c) + ConformCallOf(inputs.t1.value, Volume(inputs, ConformAt(i)), p)
  {
    var t1, c' := inputs.t1.value, WithPair(c, ConformAt(i), p);
    var x := ConformCallOf(t1, Volume(inputs, ConformAt(i)), p);
    var a, b, d, e := ConformCallOf(t1, inputs.t2, c.t2), ConformCallOf(t1, inputs.flair, c.flair),
                      ConformCallOf(t1, inputs.pd, c.pd), ConformCallOf(t1, inputs.fa, c.fa);
    if i == 0 {
      assert ConformCalls(inputs, c) == [];
      assert ConformCalls(inputs, c') == x;
    } else if i == 1 {
      assert ConformCalls(inputs, c) == a;
      assert ConformCalls(inputs, c') == a + x;
    } else if i == 2 {
      assert ConformCalls(inputs, c) == a + b;
      assert ConformCalls(inputs, c') == a + b + x;
    } else if i == 3 {
      assert ConformCalls(inputs, c) == a + b + d;
      assert ConformCalls(inputs, c') == a + b + d + x;
    } else {
      assert ConformCalls(inputs, c) == a + b + d + e;
    }
  }

  lemma ResampledStep(inputs: Inputs, c: Conformed, i: nat, p: Option<Pair>, c0: map<NodeId, Content>, c1: map<NodeId, Content>, c2: map<NodeId, Content>)
    requires i < 5 && inputs.t1.Some? && inputs.t1.value in c0 && BoundBelow(inputs, c, i)
    requires AllResampled(inputs, c, c0, c2)
    requires ResampledOK(c0[inputs.t1.value], Volume(inputs, ConformAt(i)), p, c0, c2)
    ensures AllResampled(inputs, WithPair(c, ConformAt(i), p), c0, c2)
  {
  }

  /** The i-th conform block of the order T2, FLAIR, PD, FA, ADC (lines 344-383). */
  method ConformStep(scene: Scene, inputs: Inputs, i: nat, c: Conformed,
                     ghost nodes0: set<NodeId>, ghost n0: NodeId, ghost log0: seq<Call>, ghost content0: map<NodeId, Content>)
      returns (c': Conformed)
    requires i < 5 && scene.Valid() && inputs.t1.Some? && InScene(inputs, nodes0) && nodes0 <= scene.nodes
    requires inputs.t1.value in content0 && (forall m :: Present(inputs, m) ==> Volume(inputs, m).value in content0)
    requires ConformedSoFar(inputs, c, nodes0, n0, log0, content0, scene.nodes, scene.next, scene.log, scene.content, i)
    modifies scene
    ensures scene.Valid()
    ensures ConformedSoFar(inputs, c', nodes0, n0, log0, content0, scene.nodes, scene.next, scene.log, scene.content, i + 1)
  {
    var t1, m := inputs.t1.value, ConformAt(i);
    assert Present(inputs, T1);
    assert Present(inputs, m) ==> Volume(inputs, m).value in nodes0;
    var p := ConformIf(scene, t1, Volume(inputs, m));
    c' := WithPair(c, m, p);
    ConformAdvance(inputs, c, i, p, nodes0, n0, log0, content0, old(scene.nodes), old(scene.next), old(scene.log),
                   old(scene.content), scene.nodes, scene.next, scene.log, scene.content);
  }

  /** The state a conform block leaves, stated on values: the i-th block's pair joins
      the conform locals. */
  lemma ConformAdvance(inputs: Inputs, c: Conformed, i: nat, p: Option<Pair>,
                       nodes0: set<NodeId>, n0: NodeId, log0: seq<Call>, content0: map<NodeId, Content>,
                       nodes: set<NodeId>, next: NodeId, log: seq<Call>, content: map<NodeId, Content>,
                       nodes': set<NodeId>, next': NodeId, log': seq<Call>, content': map<NodeId, Content>)
    requires i < 5 && inputs.t1.Some? && inputs.t1.value in content0
    requires Present(inputs, ConformAt(i)) ==> Volume(inputs, ConformAt(i)).value in content0
    requires ConformedSoFar(inputs, c, nodes0, n0, log0, content0, nodes, next, log, content, i)
    requires p.Some? <==> Volume(inputs, ConformAt(i)).Some?
    requires next <= next' && nodes' == nodes + PairNodes(p) && MSLesionSimulator.InRange(PairNodes(p), next, next')
    requires log' == log + ConformCallOf(inputs.t1.value, Volume(inputs, ConformAt(i)), p)
    requires inputs.t1.value in content && KeptExcept(content, content', {})
    requires ResampledOK(content[inputs.t1.value], Volume(inputs, ConformAt(i)), p, content, content')
    ensures ConformedSoFar(inputs, WithPair(c, ConformAt(i), p), nodes0, n0, log0, content0, nodes', next', log', content', i + 1)
  {
    ShapeAdvance(inputs, c, i, p, nodes0, n0, log0, nodes, next, log, nodes', next', log');
    ContentAdvance(inputs, c, i, p, content0, content, content');
  }

  lemma ShapeAdvance(inputs: Inputs, c: Conformed, i: nat, p: Option<Pair>,
                     nodes0: set<NodeId>, n0: NodeId, log0: seq<Call>, nodes: set<NodeId>, next: NodeId, log: seq<Call>,
                     nodes': set<NodeId>, next': NodeId, log': seq<Call>)
    requires i < 5 && inputs.t1.Some? && ConformShape(inputs, c, nodes0, n0, log0, nodes, next, log, i)
    requires p.Some? <==> Volume(inputs, ConformAt(i)).Some?
    requires next <= next' && nodes' == nodes + PairNodes(p) && MSLesionSimulator.InRange(PairNodes(p), next, next')
    requires log' == log + ConformCallOf(inputs.t1.value, Volume(inputs, ConformAt(i)), p)
    ensures ConformShape(inputs, WithPair(c, ConformAt(i), p), nodes0, n0, log0, nodes', next', log', i + 1)
  {
    WithPairFields(inputs, c, i, p);
    WithPairCalls(inputs, c, i, p);
    InRangeJoin(ConformNodes(c), PairNodes(p), n0, next, next');
  }

  lemma ContentAdvance(inputs: Inputs, c: Conformed, i: nat, p: Option<Pair>,
                       content0: map<NodeId, Content>, content: map<NodeId, Content>, content': map<NodeId, Content>)
    requires i < 5 && inputs.t1.Some? && inputs.t1.value in content0 && BoundBelow(inputs, c, i)
    requires Present(inputs, ConformAt(i)) ==> Volume(inputs, ConformAt(i)).value in content0
    requires ConformContent(inputs, c, content0, content)
    requires inputs.t1.value in content && KeptExcept(content, content', {})
    requires ResampledOK(content[inputs.t1.value], Volume(inputs, ConformAt(i)), p, content, content')
    ensures ConformContent(inputs, WithPair(c, ConformAt(i), p), content0, content')
  {
    var t1, m := inputs.t1.value, ConformAt(i);
    KeptTrans(content0, content, content', {}, {});
    AllResampledTransfer(inputs, c, content0, content, content', {});
    ResampledRebase(t1, Volume(inputs, m), p, content0, content, content');
    ResampledStep(inputs, c, i, p, content0, content, content');
  }

  /** Lines 344-383: T2, FLAIR, PD, FA and ADC, each when selected, are registered to T1
      and resampled into new nodes; no existing node changes. */
  method ConformPhase(scene: Scene, inputs: Inputs) returns (c: Conformed)
    requires scene.Valid() && inputs.t1.Some? && InScene(inputs, scene.nodes)
    modifies scene
    ensures scene.Valid() && Bound(inputs, c) && old(scene.next) <= scene.next
    ensures scene.nodes == old(scene.nodes) + ConformNodes(c)
    ensures MSLesionSimulator.InRange(ConformNodes(c), old(scene.next), scene.next)
    ensures scene.log == old(scene.log) + ConformCalls(inputs, c)
    ensures KeptExcept(old(scene.content), scene.content, {})
    ensures inputs.t1.value in old(scene.content) && AllResampled(inputs, c, old(scene.content), scene.content)
  {
    assert Present(inputs, T1);
    ghost var nodes0, n0, log0, content0 := scene.nodes, scene.next, scene.log, scene.content;
    c := Conformed(None, None, None, None, None);
    assert log0 + ConformCalls(inputs, c) == log0;
    for i := 0 to 5
      invariant scene.Valid() && nodes0 <= scene.nodes
      invariant ConformedSoFar(inputs, c, nodes0, n0, log0, content0, scene.nodes, scene.next, scene.log, scene.content, i)
    {
      c := ConformStep(scene, inputs, i, c, nodes0, n0, log0, content0);
    }
  }

  // The white-matter mask, the template registration and the lesion map.

  /** A module run with one output node, its effect on the scene as a single update. */
  method Apply(scene: Scene, tool: Tool, ins: seq<NodeId>, out: NodeId)
    requires scene.Valid() && out in scene.nodes && forall j :: 0 <= j < |ins| ==> ins[j] in scene.nodes
    modifies scene
    ensures scene.Valid() && scene.nodes == old(scene.nodes) && scene.next == old(scene.next)
    ensures scene.content == old(scene.content)[out := Produced(tool, 0, ContentsOf(old(scene.content), ins))]
    ensures scene.log == old(scene.log) + [Call(tool, ins, [out])]
  {
    scene.Execute(tool, ins, [out]);
    assert LastPort([out], 0);
  }

  lemma ContentsOfOne(content: map<NodeId, Content>, a: NodeId)
    requires a in content
    ensures ContentsOf(content, [a]) == [content[a]]
  {
  }

  lemma ContentsOfTwo(content: map<NodeId, Content>, a: NodeId, b: NodeId)
    requires a in content && b in content
    ensures ContentsOf(content, [a, b]) == [content[a], content[b]]
  {
  }

  lemma ContentsOfThree(content: map<NodeId, Content>, a: NodeId, b: NodeId, c: NodeId)
    requires a in content && b in content && c in content
    ensures ContentsOf(content, [a, b, c]) == [content[a], content[b], content[c]]
  {
  }

  /** Lines 568-587: T1 is smoothed into one new node and bias corrected into another. */
  method SmoothAndCorrect(scene: Scene, t1: NodeId) returns (smooth: NodeId, bias: NodeId)
    requires scene.Valid() && t1 in scene.nodes
    modifies scene
    ensures scene.Valid() && smooth == old(scene.next) && bias == smooth + 1 && scene.next == smooth + 2
    ensures scene.nodes == old(scene.nodes) + {smooth, bias}
    ensures scene.log == old(scene.log) + [Call(AnisotropicDiffusion(10.0, 5, 1.2), [t1], [smooth]), Call(BiasFieldCorrection, [smooth], [bias])]
    ensures KeptExcept(old(scene.content), scene.content, {})
    ensures scene.content[bias] == Produced(BiasFieldCorrection, 0, [Produced(AnisotropicDiffusion(10.0, 5, 1.2), 0, [old(scene.content)[t1]])])
  {
    smooth := scene.AddNode();
    ContentsOfOne(scene.content, t1);
    Apply(scene, AnisotropicDiffusion(10.0, 5, 1.2), [t1], smooth);
    bias := scene.AddNode();
    ContentsOfOne(scene.content, smooth);
    Apply(scene, BiasFieldCorrection, [smooth], bias);
  }

  /** Lines 589-611: the white matter is segmented from the corrected volume into wm and
      smoothed in place. */
  method SegmentWhiteMatter(scene: Scene, bias: NodeId, wm: NodeId)
    requires scene.Valid() && bias in scene.nodes && wm in scene.nodes
    modifies scene
    ensures scene.Valid() && scene.next == old(scene.next) && scene.nodes == old(scene.nodes)
    ensures scene.log == old(scene.log) + [Call(BrainTissues("T1", true, "White Matter"), [bias], [wm]), Call(LabelSmoothing(3, 0.2), [wm], [wm])]
    ensures scene.content == old(scene.content)[wm := Produced(LabelSmoothing(3, 0.2), 0, [Produced(BrainTissues("T1", true, "White Matter"), 0, [old(scene.content)[bias]])])]
  {
    ContentsOfOne(scene.content, bias);
    Apply(scene, BrainTissues("T1", true, "White Matter"), [bias], wm);
    ContentsOfOne(scene.content, wm);
    Apply(scene, LabelSmoothing(3, 0.2), [wm], wm);
  }

  /** `doWhiteMatterMask` (lines 568-615): the white-matter mask of T1 is written into wm
      through two temporaries, which are removed again. */
  method DoWhiteMatterMask(scene: Scene, t1: NodeId, wm: NodeId) returns (smooth: NodeId, bias: NodeId)
    requires scene.Valid() && t1 in scene.nodes && wm in scene.nodes && wm != t1
    modifies scene
    ensures scene.Valid() && smooth == old(scene.next) && bias == smooth + 1 && scene.next == smooth + 2
    ensures scene.nodes == old(scene.nodes)
    ensures scene.log == old(scene.log) + WhiteMatterCalls(t1, wm, smooth, bias)
    ensures KeptExcept(old(scene.content), scene.content, {wm})
    ensures scene.content[wm] == WhiteMatterOf(old(scene.content)[t1])
  {
    smooth, bias := SmoothAndCorrect(scene, t1);
    SegmentWhiteMatter(scene, bias, wm);
    scene.RemoveNode(smooth);
    scene.RemoveNode(bias);
  }

  /** Lines 404-407: a new label map receives the white-matter mask. */
  method WhiteMatterMask(scene: Scene, t1: NodeId) returns (wm: NodeId, smooth: NodeId, bias: NodeId)
    requires scene.Valid() && t1 in scene.nodes
    modifies scene
    ensures scene.Valid() && wm == old(scene.next) && smooth == wm + 1 && bias == wm + 2 && scene.next == wm + 3
    ensures scene.nodes == old(scene.nodes) + {wm}
    ensures scene.log == old(scene.log) + WhiteMatterCalls(t1, wm, smooth, bias)
    ensures KeptExcept(old(scene.content), scene.content, {})
    ensures wm in scene.content && scene.content[wm] == WhiteMatterOf(old(scene.content)[t1])
  {
    wm := scene.AddNode();
    smooth, bias := DoWhiteMatterMask(scene, t1, wm);
  }

  /** The template registration's transform: the B-spline registration of the MNI152
      template (with or without skull) to the T1 data t1c. */
  function TemplateRegistrationOf(s: Settings, home: string, t1c: Content): Content
  {
    Produced(BSplineRegistration(0.002, "3,3,3", "useMomentsAlign"), 0, [t1c, Loaded(TemplatePath(home, s.isBET))])
  }

  /** Lines 412-434 with `doNonLinearRegistration` (lines 630-652): the template is
      loaded and registered to T1 into two new nodes. */
  method RegisterTemplate(scene: Scene, s: Settings, home: string, t1: NodeId) returns (mni: NodeId, mniT1: NodeId, regMNI: NodeId)
    requires scene.Valid() && t1 in scene.nodes
    modifies scene
    ensures scene.Valid() && mni == old(scene.next) && mniT1 == mni + 1 && regMNI == mni + 2 && scene.next == mni + 3
    ensures scene.nodes == old(scene.nodes) + {mni, mniT1, regMNI}
    ensures scene.log == old(scene.log) + [Call(BSplineRegistration(0.002, "3,3,3", "useMomentsAlign"), [t1, mni], [regMNI, mniT1])]
    ensures KeptExcept(old(scene.content), scene.content, {})
    ensures regMNI in scene.content && scene.content[regMNI] == TemplateRegistrationOf(s, home, old(scene.content)[t1])
  {
    mni := scene.LoadVolume(TemplatePath(home, s.isBET));
    mniT1 := scene.AddNode();
    regMNI := scene.AddNode();
    ghost var c0 := scene.content;
    scene.Execute(BSplineRegistration(0.002, "3,3,3", "useMomentsAlign"), [t1, mni], [regMNI, mniT1]);
    assert LastPort([regMNI, mniT1], 0) && ContentsOf(c0, [t1, mni]) == [c0[t1], c0[mni]];
  }

  /** A lesion map generated from the priors, resampled as a label map into T1 space
      through the template registration regc, and multiplied by the white-matter mask wmc. */
  function MaskedLesionMap(s: Settings, home: string, t1c: Content, regc: Content, wmc: Content): Content
  {
    Produced(MultiplyVolumes, 0, [
      Produced(Resample(ResampleParamsFor(true, false)), 0, [
        Produced(GenerateMask(s.lesionLoad, DatabasePath(home) + "/labels-database"), 0, [Loaded(PriorsPath(home))]),
        t1c, regc]),
      wmc])
  }

  /** The lesion map of a run on the T1 data t1c. */
  function LesionMapOf(s: Settings, home: string, t1c: Content): Content
  {
    MaskedLesionMap(s, home, t1c, TemplateRegistrationOf(s, home, t1c), WhiteMatterOf(t1c))
  }

  /** The module calls that make the lesion map: the last three of `TemplateCalls`. */
  function LesionMapCalls(s: Settings, home: string, t1: NodeId, regMNI: NodeId, wm: NodeId, lesionMap: NodeId, priors: NodeId): seq<Call>
  {
    [Call(GenerateMask(s.lesionLoad, DatabasePath(home) + "/labels-database"), [priors], [lesionMap]),
     Call(Resample(ResampleParamsFor(true, false)), [lesionMap, t1, regMNI], [lesionMap]),
     Call(MultiplyVolumes, [lesionMap, wm], [lesionMap])]
  }

  /** Lines 441-445: the lesion map is the output label when one is chosen and a new
      label map otherwise. */
  method ChooseLesionMap(scene: Scene, outLabel: Option<NodeId>) returns (lesionMap: NodeId)
    requires scene.Valid() && (outLabel.Some? ==> outLabel.value in scene.nodes)
    modifies scene
    ensures scene.Valid() && scene.log == old(scene.log) && lesionMap in scene.nodes
    ensures outLabel.Some? ==> lesionMap == outLabel.value && scene.next == old(scene.next) && scene.nodes == old(scene.nodes)
    ensures outLabel.None? ==> lesionMap == old(scene.next) && scene.next == lesionMap + 1 && scene.nodes == old(scene.nodes) + {lesionMap}
    ensures KeptExcept(old(scene.content), scene.content, {})
  {
    if outLabel.Some? {
      lesionMap := outLabel.value;
    } else {
      lesionMap := scene.AddNode();
    }
  }

  /** Lines 446-459: the priors are loaded, the mask generated into the lesion map, which
      is resampled into T1 space and multiplied by the white-matter mask. */
  method FillLesionMap(scene: Scene, s: Settings, home: string, t1: NodeId, regMNI: NodeId, wm: NodeId, lesionMap: NodeId)
      returns (priors: NodeId)
    requires scene.Valid() && t1 in scene.nodes && regMNI in scene.nodes && wm in scene.nodes && lesionMap in scene.nodes
    requires t1 != regMNI && t1 != wm && regMNI != wm && lesionMap != regMNI && lesionMap != wm
    modifies scene
    ensures scene.Valid() && priors == old(scene.next) && scene.next == priors + 1
    ensures scene.nodes == old(scene.nodes) + {priors}
    ensures scene.log == old(scene.log) + LesionMapCalls(s, home, t1, regMNI, wm, lesionMap, priors)
    ensures KeptExcept(old(scene.content), scene.content, {lesionMap})
    ensures lesionMap != t1 ==>
              scene.content[lesionMap] == MaskedLesionMap(s, home, old(scene.content)[t1], old(scene.content)[regMNI], old(scene.content)[wm])
  {
    priors := scene.LoadVolume(PriorsPath(home));
    ContentsOfOne(scene.content, priors);
    Apply(scene, GenerateMask(s.lesionLoad, DatabasePath(home) + "/labels-database"), [priors], lesionMap);
    ContentsOfThree(scene.content, lesionMap, t1, regMNI);
    Apply(scene, Resample(ResampleParamsFor(true, false)), [lesionMap, t1, regMNI], lesionMap);
    ContentsOfTwo(scene.content, lesionMap, wm);
    Apply(scene, MultiplyVolumes, [lesionMap, wm], lesionMap);
  }

  // The deform blocks (lines 461-492).

  /** The selected volumes: the nodes the deform blocks write. */
  function InputNodes(inputs: Inputs): set<NodeId>
  {
    OptNodes(inputs.t1) + OtherInputs(inputs)
  }

  lemma VolumeIsInput(inputs: Inputs, m: Modality)
    requires Present(inputs, m)
    ensures Volume(inputs, m).value in InputNodes(inputs)
    ensures m != T1 ==> Volume(inputs, m).value in OtherInputs(inputs)
  {
  }

  /** A selected modality other than T1 has its conform pair, among the conform nodes. */
  lemma BoundPair(inputs: Inputs, c: Conformed, m: Modality)
    requires Bound(inputs, c) && m != T1 && Present(inputs, m)
    ensures PairOf(c, m).Some?
    ensures PairOf(c, m).value.transform in ConformNodes(c) && PairOf(c, m).value.resampled in ConformNodes(c)
  {
  }

  /** The deform call of the i-th modality of the deform order. */
  function DeformCallAt(inputs: Inputs, s: Settings, c: Conformed, lm: NodeId, i: nat): seq<Call>
    requires inputs.t1.Some? && i < 6
  {
    if i == 0 then [Call(DeformTool(s, T1), [inputs.t1.value, lm], [inputs.t1.value])]
    else DeformCallOf(s, LesionAt(i), Volume(inputs, LesionAt(i)), PairOf(c, LesionAt(i)), lm)
  }

  /** The calls of the first n deform blocks. */
  function DeformPrefix(inputs: Inputs, s: Settings, c: Conformed, lm: NodeId, n: nat): seq<Call>
    requires inputs.t1.Some? && n <= 6
  {
    if n == 0 then [] else DeformPrefix(inputs, s, c, lm, n - 1) + DeformCallAt(inputs, s, c, lm, n - 1)
  }

  lemma DeformPrefixAll(inputs: Inputs, s: Settings, c: Conformed, lm: NodeId)
    requires inputs.t1.Some?
    ensures DeformPrefix(inputs, s, c, lm, 6) == DeformCalls(inputs, s, c, lm)
  {
    var d0, d1, d2 := DeformCallAt(inputs, s, c, lm, 0), DeformCallAt(inputs, s, c, lm, 1), DeformCallAt(inputs, s, c, lm, 2);
    var d3, d4, d5 := DeformCallAt(inputs, s, c, lm, 3), DeformCallAt(inputs, s, c, lm, 4), DeformCallAt(inputs, s, c, lm, 5);
    assert DeformPrefix(inputs, s, c, lm, 1) == d0;
    assert DeformPrefix(inputs, s, c, lm, 2) == d0 + d1;
    assert DeformPrefix(inputs, s, c, lm, 3) == d0 + d1 + d2;
    assert DeformPrefix(inputs, s, c, lm, 4) == d0 + d1 + d2 + d3;
    assert DeformPrefix(inputs, s, c, lm, 5) == d0 + d1 + d2 + d3 + d4;
  }

  /** After the first i deform blocks: only selected volumes written, and each one of the
      first i modalities carries lesions. */
  ghost predicate DeformedSoFar(inputs: Inputs, content0: map<NodeId, Content>, content: map<NodeId, Content>, i: nat)
  {
    content.Keys == content0.Keys && InScene(inputs, content.Keys) && KeptExcept(content0, content, InputNodes(inputs)) &&
    forall m :: Present(inputs, m) && LesionRank(m) < i ==> CarriesLesions(content[Volume(inputs, m).value])
  }

  /** The deform block of the i-th modality of the order T1, FLAIR, T2, PD, FA, ADC
      (lines 466-492), with `doSimulateLesions` (lines 686-707): T1 is deformed in place,
      every other selected volume from its `X_t1` node into the input node. */
  method DeformBlock(scene: Scene, inputs: Inputs, s: Settings, c: Conformed, lm: NodeId, i: nat,
                     ghost content0: map<NodeId, Content>, ghost log0: seq<Call>)
    requires i < 6 && scene.Valid() && inputs.t1.Some? && InScene(inputs, scene.nodes) && Bound(inputs, c)
    requires ConformNodes(c) <= scene.nodes && lm in scene.nodes
    requires scene.log == log0 + DeformPrefix(inputs, s, c, lm, i)
    requires DeformedSoFar(inputs, content0, scene.content, i)
    modifies scene
    ensures scene.Valid() && scene.nodes == old(scene.nodes) && scene.next == old(scene.next)
    ensures scene.log == log0 + DeformPrefix(inputs, s, c, lm, i + 1)
    ensures DeformedSoFar(inputs, content0, scene.content, i + 1)
  {
    var m := LesionAt(i);
    assert DeformPrefix(inputs, s, c, lm, i + 1) == DeformPrefix(inputs, s, c, lm, i) + DeformCallAt(inputs, s, c, lm, i);
    if i == 0 {
      var t1 := inputs.t1.value;
      assert Present(inputs, T1);
      Apply(scene, DeformTool(s, T1), [t1, lm], t1);
      DeformAdvance(inputs, content0, old(scene.content), scene.content, i, t1,
                    Produced(DeformTool(s, T1), 0, ContentsOf(old(scene.content), [t1, lm])));
    } else if Volume(inputs, m).Some? {
      BoundPair(inputs, c, m);
      var x, p := Volume(inputs, m).value, PairOf(c, m).value;
      assert DeformCallAt(inputs, s, c, lm, i) == [Call(DeformTool(s, m), [p.resampled, lm], [x])];
      Apply(scene, DeformTool(s, m), [p.resampled, lm], x);
      DeformAdvance(inputs, content0, old(scene.content), scene.content, i, x,
                    Produced(DeformTool(s, m), 0, ContentsOf(old(scene.content), [p.resampled, lm])));
    } else {
      assert DeformCallAt(inputs, s, c, lm, i) == [];
      DeformSkip(inputs, content0, scene.content, i);
    }
  }

  /** A deform block writes, into the volume of its modality, data that carries lesions. */
  lemma DeformAdvance(inputs: Inputs, content0: map<NodeId, Content>, before: map<NodeId, Content>, after: map<NodeId, Content>,
                      i: nat, x: NodeId, d: Content)
    requires i < 6 && Present(inputs, LesionAt(i)) && x == Volume(inputs, LesionAt(i)).value
    requires DeformedSoFar(inputs, content0, before, i) && x in before
    requires after == before[x := d] && CarriesLesions(d)
    ensures DeformedSoFar(inputs, content0, after, i + 1)
  {
    VolumeIsInput(inputs, LesionAt(i));
  }

  lemma DeformSkip(inputs: Inputs, content0: map<NodeId, Content>, content: map<NodeId, Content>, i: nat)
    requires i < 6 && !Present(inputs, LesionAt(i)) && DeformedSoFar(inputs, content0, content, i)
    ensures DeformedSoFar(inputs, content0, content, i + 1)
  {
  }

  /** Lines 461-492: every selected volume is deformed with the lesion map, T1 in place and
      the others from their `X_t1` node; nothing but the selected volumes changes, and each
      of them ends up carrying lesions. */
  method DeformPhase(scene: Scene, inputs: Inputs, s: Settings, c: Conformed, lm: NodeId)
    requires scene.Valid() && inputs.t1.Some? && InScene(inputs, scene.nodes) && Bound(inputs, c)
    requires ConformNodes(c) <= scene.nodes && lm in scene.nodes
    modifies scene
    ensures scene.Valid() && scene.nodes == old(scene.nodes) && scene.next == old(scene.next)
    ensures scene.log == old(scene.log) + DeformCalls(inputs, s, c, lm)
    ensures KeptExcept(old(scene.content), scene.content, InputNodes(inputs))
    ensures InScene(inputs, scene.content.Keys)
    ensures forall m :: Present(inputs, m) ==> CarriesLesions(scene.content[Volume(inputs, m).value])
  {
    ghost var content0, log0 := scene.content, scene.log;
    for i := 0 to 6
      invariant scene.Valid() && scene.nodes == old(scene.nodes) && scene.next == old(scene.next)
      invariant scene.log == log0 + DeformPrefix(inputs, s, c, lm, i)
      invariant DeformedSoFar(inputs, content0, scene.content, i)
    {
      DeformBlock(scene, inputs, s, c, lm, i, content0, log0);
    }
    DeformPrefixAll(inputs, s, c, lm);
    forall m | Present(inputs, m)
      ensures CarriesLesions(scene.content[Volume(inputs, m).value])
    {
      LesionAtRank(m);
    }
  }

  // The return blocks (lines 494-522).

  /** The return call of the i-th modality of the conform order. */
  function ReturnCallAt(inputs: Inputs, c: Conformed, i: nat): seq<Call>
    requires i < 5
  {
    ReturnCallOf(Volume(inputs, ConformAt(i)), PairOf(c, ConformAt(i)))
  }

  /** The calls of the first n return blocks. */
  function ReturnPrefix(inputs: Inputs, c: Conformed, n: nat): seq<Call>
    requires n <= 5
  {
    if n == 0 then [] else ReturnPrefix(inputs, c, n - 1) + ReturnCallAt(inputs, c, n - 1)
  }

  lemma ReturnPrefixAll(inputs: Inputs, c: Conformed)
    ensures ReturnPrefix(inputs, c, 5) == ReturnCalls(inputs, c)
  {
    var r0, r1, r2 := ReturnCallAt(inputs, c, 0), ReturnCallAt(inputs, c, 1), ReturnCallAt(inputs, c, 2);
    var r3, r4 := ReturnCallAt(inputs, c, 3), ReturnCallAt(inputs, c, 4);
    assert ReturnPrefix(inputs, c, 1) == r0;
    assert ReturnPrefix(inputs, c, 2) == r0 + r1;
    assert ReturnPrefix(inputs, c, 3) == r0 + r1 + r2;
    assert ReturnPrefix(inputs, c, 4) == r0 + r1 + r2 + r3;
  }

  /** After the first i return blocks: only selected volumes other than T1 written, and
      each one of the first i modalities carries lesions exactly when its data before the
      run (content0) did. */
  ghost predicate ReturnedSoFar(inputs: Inputs, content0: map<NodeId, Content>, before: map<NodeId, Content>,
                                content: map<NodeId, Content>, i: nat)
  {
    content.Keys == before.Keys && InScene(inputs, content.Keys) && InScene(inputs, content0.Keys) &&
    KeptExcept(before, content, OtherInputs(inputs)) &&
    forall m :: m != T1 && Present(inputs, m) && ConformRank(m) < i ==>
      (CarriesLesions(content[Volume(inputs, m).value]) <==> CarriesLesions(content0[Volume(inputs, m).value]))
  }

  /** The `X_t1` node of modality m holds the registration of m's data before the run. */
  lemma ResampledAt(inputs: Inputs, c: Conformed, content0: map<NodeId, Content>, content: map<NodeId, Content>, m: Modality)
    requires inputs.t1.Some? && inputs.t1.value in content0 && AllResampled(inputs, c, content0, content)
    ensures ResampledOK(content0[inputs.t1.value], Volume(inputs, m), PairOf(c, m), content0, content)
  {
  }

  /** The return block of the i-th modality of the order T2, FLAIR, PD, FA, ADC (lines
      497-522), with `applyRegistrationTransform` (lines 709-730): the undeformed `X_t1`
      node is resampled through the inverse transform into the input node, over its
      deformation. */
  method ReturnBlock(scene: Scene, inputs: Inputs, c: Conformed, i: nat,
                     ghost content0: map<NodeId, Content>, ghost before: map<NodeId, Content>, ghost log0: seq<Call>)
    requires i < 5 && scene.Valid() && inputs.t1.Some? && Bound(inputs, c)
    requires ConformNodes(c) <= scene.nodes && ConformNodes(c) !! OtherInputs(inputs)
    requires inputs.t1.value in content0 && AllResampled(inputs, c, content0, before)
    requires scene.log == log0 + ReturnPrefix(inputs, c, i)
    requires ReturnedSoFar(inputs, content0, before, scene.content, i)
    modifies scene
    ensures scene.Valid() && scene.nodes == old(scene.nodes) && scene.next == old(scene.next)
    ensures scene.log == log0 + ReturnPrefix(inputs, c, i + 1)
    ensures ReturnedSoFar(inputs, content0, before, scene.content, i + 1)
  {
    var m := ConformAt(i);
    assert ReturnPrefix(inputs, c, i + 1) == ReturnPrefix(inputs, c, i) + ReturnCallAt(inputs, c, i);
    if Volume(inputs, m).Some? {
      BoundPair(inputs, c, m);
      var x, p := Volume(inputs, m).value, PairOf(c, m).value;
      assert ReturnCallAt(inputs, c, i) == [Call(Resample(ResampleParamsFor(false, true)), [p.resampled, x, p.transform], [x])];
      ContentsOfThree(scene.content, p.resampled, x, p.transform);
      Apply(scene, Resample(ResampleParamsFor(false, true)), [p.resampled, x, p.transform], x);
      ResampledAt(inputs, c, content0, before, m);
      ReturnAdvance(inputs, content0, before, old(scene.content), scene.content, i, x, p.resampled,
                    Produced(Resample(ResampleParamsFor(false, true)), 0, [old(scene.content)[p.resampled], old(scene.content)[x], old(scene.content)[p.transform]]));
    } else {
      assert ReturnCallAt(inputs, c, i) == [];
      ReturnSkip(inputs, content0, before, scene.content, i);
    }
  }

  lemma ReturnSkip(inputs: Inputs, content0: map<NodeId, Content>, before: map<NodeId, Content>, content: map<NodeId, Content>, i: nat)
    requires i < 5 && !Present(inputs, ConformAt(i)) && ReturnedSoFar(inputs, content0, before, content, i)
    ensures ReturnedSoFar(inputs, content0, before, content, i + 1)
  {
  }

  /** A return block writes into the volume of its modality data that carries lesions
      exactly when that volume's data did before the run. */
  lemma ReturnAdvance(inputs: Inputs, content0: map<NodeId, Content>, before: map<NodeId, Content>,
                      mid: map<NodeId, Content>, after: map<NodeId, Content>, i: nat, x: NodeId, r: NodeId, d: Content)
    requires i < 5 && Present(inputs, ConformAt(i)) && x == Volume(inputs, ConformAt(i)).value
    requires ReturnedSoFar(inputs, content0, before, mid, i) && x in mid && r in before && r !in OtherInputs(inputs)
    requires inputs.t1.Some? && inputs.t1.value in content0 && x in content0
    requires before[r] == Produced(LinearRegistration, 1, [content0[inputs.t1.value], content0[x]])
    requires after == mid[x := d] && d.Produced? && d.tool.Resample? && |d.from| > 0 && d.from[0] == mid[r]
    ensures ReturnedSoFar(inputs, content0, before, after, i + 1)
  {
    VolumeIsInput(inputs, ConformAt(i));
    assert CarriesLesions(d) <==> CarriesLesions(content0[x]);
  }

  /** Lines 494-522: every selected volume other than T1 is resampled back from its
      undeformed `X_t1` node, which replaces its deformation: it carries lesions exactly
      when its data before the run did. */
  method ReturnPhase(scene: Scene, inputs: Inputs, c: Conformed, ghost content0: map<NodeId, Content>)
    requires scene.Valid() && inputs.t1.Some? && InScene(inputs, scene.nodes) && InScene(inputs, content0.Keys) && Bound(inputs, c)
    requires ConformNodes(c) <= scene.nodes && ConformNodes(c) !! OtherInputs(inputs)
    requires inputs.t1.value in content0 && AllResampled(inputs, c, content0, scene.content)
    modifies scene
    ensures scene.Valid() && scene.nodes == old(scene.nodes) && scene.next == old(scene.next)
    ensures scene.log == old(scene.log) + ReturnCalls(inputs, c)
    ensures KeptExcept(old(scene.content), scene.content, OtherInputs(inputs))
    ensures InScene(inputs, scene.content.Keys)
    ensures forall m :: m != T1 && Present(inputs, m) ==>
              (CarriesLesions(scene.content[Volume(inputs, m).value]) <==> CarriesLesions(content0[Volume(inputs, m).value]))
  {
    ghost var before, log0 := scene.content, scene.log;
    for i := 0 to 5
      invariant scene.Valid() && scene.nodes == old(scene.nodes) && scene.next == old(scene.next)
      invariant scene.log == log0 + ReturnPrefix(inputs, c, i)
      invariant ReturnedSoFar(inputs, content0, before, scene.content, i)
    {
      ReturnBlock(scene, inputs, c, i, content0, before, log0);
    }
    ReturnPrefixAll(inputs, c);
    forall m | m != T1 && Present(inputs, m)
      ensures CarriesLesions(scene.content[Volume(inputs, m).value]) <==> CarriesLesions(content0[Volume(inputs, m).value])
    {
      ConformAtRank(m);
    }
  }

  /** Lines 461-522: the deform blocks, then the return blocks when the volumes go back to
      their own space. */
  method Simulate(scene: Scene, inputs: Inputs, s: Settings, ids: Ids, ghost content0: map<NodeId, Content>)
    requires scene.Valid() && inputs.t1.Some? && InScene(inputs, scene.nodes) && InScene(inputs, content0.Keys)
    requires Bound(inputs, ids.conformed) && ConformNodes(ids.conformed) <= scene.nodes && ids.lesionMap in scene.nodes
    requires ConformNodes(ids.conformed) !! InputNodes(inputs)
    requires inputs.t1.value in content0 && AllResampled(inputs, ids.conformed, content0, scene.content)
    modifies scene
    ensures scene.Valid() && scene.nodes == old(scene.nodes) && scene.next == old(scene.next)
    ensures scene.log == old(scene.log) + (DeformCalls(inputs, s, ids.conformed, ids.lesionMap) +
                                           if s.returnSpace then ReturnCalls(inputs, ids.conformed) else [])
    ensures KeptExcept(old(scene.content), scene.content, InputNodes(inputs))
    ensures InScene(inputs, scene.content.Keys) && inputs.t1.value in scene.content
    ensures !s.returnSpace ==> forall m :: Present(inputs, m) ==> CarriesLesions(scene.content[Volume(inputs, m).value])
    ensures s.returnSpace ==> forall m :: m != T1 && Present(inputs, m) ==>
              (CarriesLesions(scene.content[Volume(inputs, m).value]) <==> CarriesLesions(content0[Volume(inputs, m).value]))
    ensures inputs.t1.value !in OtherInputs(inputs) ==> CarriesLesions(scene.content[inputs.t1.value])
  {
    ghost var cP := scene.content;
    DeformPhase(scene, inputs, s, ids.conformed, ids.lesionMap);
    ghost var cD := scene.content;
    AllResampledTransfer(inputs, ids.conformed, content0, cP, cD, InputNodes(inputs));
    ReturnIfSelected(scene, inputs, s, ids.conformed, content0);
    SimulateContent(inputs, s, cP, cD, scene.content);
    Regroup(old(scene.log), DeformCalls(inputs, s, ids.conformed, ids.lesionMap),
            if s.returnSpace then ReturnCalls(inputs, ids.conformed) else []);
  }

  lemma Regroup(log0: seq<Call>, a: seq<Call>, b: seq<Call>)
    ensures log0 + a + b == log0 + (a + b)
  {
  }

  /** The content facts of `Simulate`, from the contents before it (cP), after the deform
      blocks (cD) and at the end (cR). */
  lemma SimulateContent(inputs: Inputs, s: Settings, cP: map<NodeId, Content>, cD: map<NodeId, Content>, cR: map<NodeId, Content>)
    requires inputs.t1.Some?
    requires KeptExcept(cP, cD, InputNodes(inputs)) && InScene(inputs, cD.Keys)
    requires forall m :: Present(inputs, m) ==> CarriesLesions(cD[Volume(inputs, m).value])
    requires cR.Keys == cD.Keys && KeptExcept(cD, cR, OtherInputs(inputs))
    requires !s.returnSpace ==> cR == cD
    ensures KeptExcept(cP, cR, InputNodes(inputs))
    ensures InScene(inputs, cR.Keys) && inputs.t1.value in cR
    ensures !s.returnSpace ==> forall m :: Present(inputs, m) ==> CarriesLesions(cR[Volume(inputs, m).value])
    ensures inputs.t1.value !in OtherInputs(inputs) ==> CarriesLesions(cR[inputs.t1.value])
  {
    assert Present(inputs, T1);
    KeptTrans(cP, cD, cR, InputNodes(inputs), OtherInputs(inputs));
    assert InputNodes(inputs) + OtherInputs(inputs) == InputNodes(inputs);
  }

  /** Lines 494-522: the return blocks run only when the volumes go back to their own space. */
  method ReturnIfSelected(scene: Scene, inputs: Inputs, s: Settings, c: Conformed, ghost content0: map<NodeId, Content>)
    requires scene.Valid() && inputs.t1.Some? && InScene(inputs, scene.nodes) && InScene(inputs, content0.Keys) && Bound(inputs, c)
    requires ConformNodes(c) <= scene.nodes && ConformNodes(c) !! OtherInputs(inputs)
    requires inputs.t1.value in content0 && AllResampled(inputs, c, content0, scene.content)
    modifies scene
    ensures scene.Valid() && scene.nodes == old(scene.nodes) && scene.next == old(scene.next)
    ensures scene.log == old(scene.log) + if s.returnSpace then ReturnCalls(inputs, c) else []
    ensures KeptExcept(old(scene.content), scene.content, OtherInputs(inputs))
    ensures !s.returnSpace ==> scene.content == old(scene.content)
    ensures s.returnSpace ==> forall m :: m != T1 && Present(inputs, m) ==>
              (CarriesLesions(scene.content[Volume(inputs, m).value]) <==> CarriesLesions(content0[Volume(inputs, m).value]))
  {
    if s.returnSpace {
      ReturnPhase(scene, inputs, c, content0);
    }
  }

  // Removing the temporaries (lines 524-550).

  /** The temporaries lines 525-532 remove: the lesion map only when it is not the output label. */
  function TeardownNodes(ids: Ids, outLabel: Option<NodeId>): set<NodeId>
  {
    {ids.mniT1, ids.regMNI, ids.priors, ids.mni, ids.wmMask} + (if outLabel.None? then {ids.lesionMap} else {})
  }

  /** Lines 525-532: the registered template, its transform, the priors, the template, the
      white-matter mask and, without an output label, the lesion map are removed. */
  method Teardown(scene: Scene, ids: Ids, outLabel: Option<NodeId>)
    requires scene.Valid()
    modifies scene
    ensures scene.Valid() && scene.next == old(scene.next) && scene.log == old(scene.log)
    ensures scene.nodes == old(scene.nodes) - TeardownNodes(ids, outLabel)
    ensures forall id :: id in scene.nodes ==> scene.content[id] == old(scene.content)[id]
  {
    scene.RemoveNode(ids.mniT1);
    scene.RemoveNode(ids.regMNI);
    scene.RemoveNode(ids.priors);
    scene.RemoveNode(ids.mni);
    scene.RemoveNode(ids.wmMask);
    if outLabel.None? {
      scene.RemoveNode(ids.lesionMap);
    }
  }

  /** One conform pair removed: the transform, then the `X_t1` node. */
  method RemovePair(scene: Scene, p: Pair)
    requires scene.Valid()
    modifies scene
    ensures scene.Valid() && scene.next == old(scene.next) && scene.log == old(scene.log)
    ensures scene.nodes == old(scene.nodes) - PairNodes(Some(p))
    ensures forall id :: id in scene.nodes ==> scene.content[id] == old(scene.content)[id]
  {
    scene.RemoveNode(p.transform);
    scene.RemoveNode(p.resampled);
  }

  /** Lines 534-548: the conform pairs are removed, but the FLAIR block removes the T2 pair
      and the T2 block the FLAIR pair; a pair whose locals were never bound stops the run
      with an error before anything of it is removed.  So the run fails exactly when one of
      FLAIR and T2 is selected without the other, and then no pair is removed. */
  method Cleanup(scene: Scene, inputs: Inputs, c: Conformed) returns (ok: bool)
    requires scene.Valid() && Bound(inputs, c)
    modifies scene
    ensures scene.Valid() && scene.next == old(scene.next) && scene.log == old(scene.log)
    ensures ok <==> (inputs.flair.Some? <==> inputs.t2.Some?)
    ensures ok ==> scene.nodes == old(scene.nodes) - ConformNodes(c)
    ensures !ok ==> scene.nodes == old(scene.nodes)
    ensures forall id :: id in scene.nodes ==> scene.content[id] == old(scene.content)[id]
  {
    if inputs.flair.Some? {
      if c.t2.None? {
        return false;
      }
      RemovePair(scene, c.t2.value);
    }
    if inputs.t2.Some? {
      if c.flair.None? {
        return false;
      }
      RemovePair(scene, c.flair.value);
    }
    ghost var afterSwapped := scene.nodes;
    RemoveOthers(scene, inputs, c);
    CleanupNodes(inputs, c, old(scene.nodes), afterSwapped, scene.nodes);
    return true;
  }

  /** Lines 542-548: the PD, FA and ADC pairs are removed. */
  method RemoveOthers(scene: Scene, inputs: Inputs, c: Conformed)
    requires scene.Valid() && Bound(inputs, c)
    modifies scene
    ensures scene.Valid() && scene.next == old(scene.next) && scene.log == old(scene.log)
    ensures scene.nodes == old(scene.nodes) - PairNodes(c.pd) - PairNodes(c.fa) - PairNodes(c.adc)
    ensures forall id :: id in scene.nodes ==> scene.content[id] == old(scene.content)[id]
  {
    if inputs.pd.Some? {
      RemovePair(scene, c.pd.value);
    }
    if inputs.fa.Some? {
      RemovePair(scene, c.fa.value);
    }
    if inputs.adc.Some? {
      RemovePair(scene, c.adc.value);
    }
  }

  /** When FLAIR and T2 are both selected or both not, the cleanup removes every conform pair. */
  lemma CleanupNodes(inputs: Inputs, c: Conformed, nodes0: set<NodeId>, nodes1: set<NodeId>, nodes2: set<NodeId>)
    requires Bound(inputs, c) && (inputs.flair.Some? <==> inputs.t2.Some?)
    requires nodes1 == nodes0 - (if inputs.flair.Some? then PairNodes(c.t2) else {}) - (if inputs.t2.Some? then PairNodes(c.flair) else {})
    requires nodes2 == nodes1 - PairNodes(c.pd) - PairNodes(c.fa) - PairNodes(c.adc)
    ensures nodes2 == nodes0 - ConformNodes(c)
  {
  }

  /** Lines 524-550: the temporaries and then the conform pairs are removed. */
  method Finish(scene: Scene, inputs: Inputs, ids: Ids, outLabel: Option<NodeId>) returns (ok: bool)
    requires scene.Valid() && Bound(inputs, ids.conformed)
    modifies scene
    ensures scene.Valid() && scene.next == old(scene.next) && scene.log == old(scene.log)
    ensures ok <==> (inputs.flair.Some? <==> inputs.t2.Some?)
    ensures scene.nodes == old(scene.nodes) - TeardownNodes(ids, outLabel) - (if ok then ConformNodes(ids.conformed) else {})
    ensures forall id :: id in scene.nodes ==> scene.content[id] == old(scene.content)[id]
  {
    Teardown(scene, ids, outLabel);
    ok := Cleanup(scene, inputs, ids.conformed);
  }

  // The whole run.

  /** The numbering of the nodes `TemplateStage` allocates, from the white-matter mask on,
      and the next free id after them. */
  predicate Numbered(ids: Ids, outLabel: Option<NodeId>, next: NodeId)
  {
    ids.smooth == ids.wmMask + 1 && ids.smoothBias == ids.wmMask + 2 && ids.mni == ids.wmMask + 3 &&
    ids.mniT1 == ids.wmMask + 4 && ids.regMNI == ids.wmMask + 5 &&
    (outLabel.Some? ==> ids.lesionMap == outLabel.value && ids.priors == ids.wmMask + 6) &&
    (outLabel.None? ==> ids.lesionMap == ids.wmMask + 6 && ids.priors == ids.wmMask + 7) &&
    next == ids.priors + 1
  }

  /** The nodes `TemplateStage` leaves in the scene. */
  function TemplateNodes(ids: Ids): set<NodeId>
  {
    {ids.wmMask, ids.mni, ids.mniT1, ids.regMNI, ids.lesionMap, ids.priors}
  }

  /** Lines 401-459: the white-matter mask, the template registration and the lesion map;
      of the nodes before, only the output label changes. */
  method TemplateStage(scene: Scene, s: Settings, home: string, t1: NodeId, c: Conformed, outLabel: Option<NodeId>) returns (ids: Ids)
    requires scene.Valid() && t1 in scene.nodes && (outLabel.Some? ==> outLabel.value in scene.nodes)
    modifies scene
    ensures scene.Valid() && ids.conformed == c && ids.wmMask == old(scene.next) && Numbered(ids, outLabel, scene.next)
    ensures scene.nodes == old(scene.nodes) + TemplateNodes(ids)
    ensures scene.log == old(scene.log) + (WhiteMatterCalls(t1, ids.wmMask, ids.smooth, ids.smoothBias) + TemplateCalls(s, home, t1, ids))
    ensures KeptExcept(old(scene.content), scene.content, OptNodes(outLabel))
    ensures ids.lesionMap != t1 ==> scene.content[ids.lesionMap] == LesionMapOf(s, home, old(scene.content)[t1])
  {
    ghost var c0, nodes0, log0 := scene.content, scene.nodes, scene.log;
    var wm, smooth, bias := WhiteMatterMask(scene, t1);
    ghost var c1, nodes1, log1 := scene.content, scene.nodes, scene.log;
    var mni, mniT1, regMNI := RegisterTemplate(scene, s, home, t1);
    ghost var c2, nodes2, log2 := scene.content, scene.nodes, scene.log;
    var lesionMap := ChooseLesionMap(scene, outLabel);
    ghost var c3, nodes3 := scene.content, scene.nodes;
    var priors := FillLesionMap(scene, s, home, t1, regMNI, wm, lesionMap);
    ids := Ids(c, wm, smooth, bias, mni, mniT1, regMNI, lesionMap, priors);
    TemplateShape(s, home, t1, ids, outLabel, nodes0, nodes1, nodes2, nodes3, scene.nodes, log0, log1, log2, scene.log);
    TemplateContent(s, home, t1, wm, regMNI, lesionMap, outLabel, c0, c1, c2, c3, scene.content);
  }

  /** The node set and the log of `TemplateStage`, stated on the snapshots between its steps. */
  lemma TemplateShape(s: Settings, home: string, t1: NodeId, ids: Ids, outLabel: Option<NodeId>,
                      nodes0: set<NodeId>, nodes1: set<NodeId>, nodes2: set<NodeId>, nodes3: set<NodeId>, nodes4: set<NodeId>,
                      log0: seq<Call>, log1: seq<Call>, log2: seq<Call>, log4: seq<Call>)
    requires nodes1 == nodes0 + {ids.wmMask} && nodes2 == nodes1 + {ids.mni, ids.mniT1, ids.regMNI}
    requires outLabel.Some? ==> ids.lesionMap in nodes0 && nodes3 == nodes2
    requires outLabel.None? ==> nodes3 == nodes2 + {ids.lesionMap}
    requires nodes4 == nodes3 + {ids.priors}
    requires log1 == log0 + WhiteMatterCalls(t1, ids.wmMask, ids.smooth, ids.smoothBias)
    requires log2 == log1 + [Call(BSplineRegistration(0.002, "3,3,3", "useMomentsAlign"), [t1, ids.mni], [ids.regMNI, ids.mniT1])]
    requires log4 == log2 + LesionMapCalls(s, home, t1, ids.regMNI, ids.wmMask, ids.lesionMap, ids.priors)
    ensures nodes4 == nodes0 + TemplateNodes(ids)
    ensures log4 == log0 + (WhiteMatterCalls(t1, ids.wmMask, ids.smooth, ids.smoothBias) + TemplateCalls(s, home, t1, ids))
  {
    assert TemplateCalls(s, home, t1, ids) ==
           [Call(BSplineRegistration(0.002, "3,3,3", "useMomentsAlign"), [t1, ids.mni], [ids.regMNI, ids.mniT1])] +
           LesionMapCalls(s, home, t1, ids.regMNI, ids.wmMask, ids.lesionMap, ids.priors);
  }

  /** The content facts of `TemplateStage`, stated on the snapshots between its steps. */
  lemma TemplateContent(s: Settings, home: string, t1: NodeId, wm: NodeId, regMNI: NodeId, lesionMap: NodeId,
                        outLabel: Option<NodeId>, c0: map<NodeId, Content>, c1: map<NodeId, Content>,
                        c2: map<NodeId, Content>, c3: map<NodeId, Content>, c4: map<NodeId, Content>)
    requires t1 in c0 && wm !in c0 && regMNI !in c1 && (outLabel.Some? ==> lesionMap == outLabel.value)
    requires outLabel.None? ==> lesionMap !in c0
    requires KeptExcept(c0, c1, {}) && wm in c1 && c1[wm] == WhiteMatterOf(c0[t1])
    requires KeptExcept(c1, c2, {}) && regMNI in c2 && c2[regMNI] == TemplateRegistrationOf(s, home, c1[t1])
    requires KeptExcept(c2, c3, {}) && KeptExcept(c3, c4, {lesionMap})
    requires lesionMap != t1 ==> lesionMap in c4 && c4[lesionMap] == MaskedLesionMap(s, home, c3[t1], c3[regMNI], c3[wm])
    ensures KeptExcept(c0, c4, OptNodes(outLabel))
    ensures lesionMap != t1 ==> c4[lesionMap] == LesionMapOf(s, home, c0[t1])
  {
    KeptTrans(c0, c1, c2, {}, {});
    KeptTrans(c0, c2, c3, {}, {});
    KeptTrans(c0, c3, c4, {}, {lesionMap});
    assert c3[t1] == c0[t1] && c3[regMNI] == c2[regMNI] && c3[wm] == c1[wm];
  }

  /** Lines 340-459: everything before the deform blocks. */
  method Prepare(scene: Scene, inputs: Inputs, s: Settings, home: string, outLabel: Option<NodeId>) returns (ids: Ids)
    requires scene.Valid() && inputs.t1.Some? && InScene(inputs, scene.nodes)
    requires outLabel.Some? ==> outLabel.value in scene.nodes
    modifies scene
    ensures scene.Valid() && Bound(inputs, ids.conformed) && Numbered(ids, outLabel, scene.next)
    ensures old(scene.next) <= ids.wmMask && MSLesionSimulator.InRange(ConformNodes(ids.conformed), old(scene.next), ids.wmMask)
    ensures scene.nodes == old(scene.nodes) + ConformNodes(ids.conformed) + TemplateNodes(ids)
    ensures scene.log == old(scene.log) + ConformCalls(inputs, ids.conformed) +
                         (WhiteMatterCalls(inputs.t1.value, ids.wmMask, ids.smooth, ids.smoothBias) + TemplateCalls(s, home, inputs.t1.value, ids))
    ensures KeptExcept(old(scene.content), scene.content, OptNodes(outLabel))
    ensures inputs.t1.value in old(scene.content) && AllResampled(inputs, ids.conformed, old(scene.content), scene.content)
    ensures ids.lesionMap != inputs.t1.value ==>
              scene.content[ids.lesionMap] == LesionMapOf(s, home, old(scene.content)[inputs.t1.value])
  {
    assert Present(inputs, T1);
    var c := ConformPhase(scene, inputs);
    ghost var conformed := scene.content;
    ids := TemplateStage(scene, s, home, inputs.t1.value, c, outLabel);
    KeptTrans(old(scene.content), conformed, scene.content, {}, OptNodes(outLabel));
    AllResampledTransfer(inputs, c, old(scene.content), conformed, scene.content, OptNodes(outLabel));
  }

  /** The node set after the run: the template's nodes are gone, and the conform pairs too
      unless the cleanup failed. */
  lemma NodesRestored(nodes0: set<NodeId>, n0: NodeId, conform: set<NodeId>, ids: Ids, outLabel: Option<NodeId>, next: NodeId)
    requires forall id :: id in nodes0 ==> id < n0
    requires n0 <= ids.wmMask && MSLesionSimulator.InRange(conform, n0, ids.wmMask) && Numbered(ids, outLabel, next)
    requires outLabel.Some? ==> outLabel.value in nodes0
    ensures nodes0 + conform + TemplateNodes(ids) - TeardownNodes(ids, outLabel) - conform == nodes0
    ensures nodes0 + conform + TemplateNodes(ids) - TeardownNodes(ids, outLabel) == nodes0 + conform
  {
  }

  /** What the run leaves in the nodes it found, from the content after `Prepare` (cP),
      after `Simulate` (cS) and at the end (c). */
  lemma FinalContent(inputs: Inputs, s: Settings, home: string, outLabel: Option<NodeId>, ids: Ids, nodes0: set<NodeId>,
                     c0: map<NodeId, Content>, cP: map<NodeId, Content>, cS: map<NodeId, Content>, c: map<NodeId, Content>)
    requires inputs.t1.Some? && inputs.t1.value in c0 && c0.Keys == nodes0 && nodes0 <= c.Keys
    requires outLabel.Some? ==> outLabel.value in nodes0 && ids.lesionMap == outLabel.value
    requires KeptExcept(c0, cP, OptNodes(outLabel)) && KeptExcept(cP, cS, InputNodes(inputs))
    requires forall id :: id in c ==> id in cS && c[id] == cS[id]
    requires ids.lesionMap != inputs.t1.value ==> ids.lesionMap in cP && cP[ids.lesionMap] == LesionMapOf(s, home, c0[inputs.t1.value])
    ensures KeptExcept(c0, c, InputNodes(inputs) + OptNodes(outLabel))
    ensures outLabel.Some? && outLabel.value !in InputNodes(inputs) ==>
              outLabel.value in c && c[outLabel.value] == LesionMapOf(s, home, c0[inputs.t1.value])
  {
    KeptTrans(c0, cP, cS, OptNodes(outLabel), InputNodes(inputs));
    if outLabel.Some? && outLabel.value !in InputNodes(inputs) {
      var x := outLabel.value;
      assert x != inputs.t1.value && x in cP && x in c;
      assert c[x] == cS[x] == cP[x];
    }
  }

  /** The lesion facts of `Simulate` hold at the end, where the selected volumes keep their data. */
  lemma FinalLesions(inputs: Inputs, s: Settings, content0: map<NodeId, Content>, cS: map<NodeId, Content>, c: map<NodeId, Content>)
    requires inputs.t1.Some? && InScene(inputs, c.Keys) && InScene(inputs, content0.Keys)
    requires forall id :: id in c ==> id in cS && c[id] == cS[id]
    requires !s.returnSpace ==> forall m :: Present(inputs, m) ==> CarriesLesions(cS[Volume(inputs, m).value])
    requires s.returnSpace ==> forall m :: m != T1 && Present(inputs, m) ==>
               (CarriesLesions(cS[Volume(inputs, m).value]) <==> CarriesLesions(content0[Volume(inputs, m).value]))
    requires inputs.t1.value in cS && (inputs.t1.value !in OtherInputs(inputs) ==> CarriesLesions(cS[inputs.t1.value]))
    ensures inputs.t1.value in c
    ensures !s.returnSpace ==> forall m :: Present(inputs, m) ==> CarriesLesions(c[Volume(inputs, m).value])
    ensures s.returnSpace ==> forall m :: m != T1 && Present(inputs, m) ==>
              (CarriesLesions(c[Volume(inputs, m).value]) <==> CarriesLesions(content0[Volume(inputs, m).value]))
    ensures inputs.t1.value !in OtherInputs(inputs) ==> CarriesLesions(c[inputs.t1.value])
  {
    assert Present(inputs, T1);
  }

  /** The log of a run, regrouped. */
  lemma RunLogs(log0: seq<Call>, a: seq<Call>, w: seq<Call>, t: seq<Call>, d: seq<Call>, r: seq<Call>)
    ensures log0 + a + (w + t) + (d + r) == log0 + (a + w + t + d + r)
  {
  }

  /** Lines 330-555: one run of the GenerateLesionsScript logic.  Its module calls are
      `RunCalls`; the run fails exactly when one of FLAIR and T2 is selected without the
      other, and otherwise leaves the scene's node set as it found it.  Of the nodes before,
      only the selected volumes and the output label change; without the return to the
      input spaces every selected volume carries lesions, with it every selected volume
      other than T1 carries lesions exactly when it did before the run; T1 carries lesions
      unless it is also selected for another modality; an output label that is none of the
      volumes receives the lesion map. */
  method Run(scene: Scene, inputs: Inputs, s: Settings, home: string, outLabel: Option<NodeId>) returns (ok: bool, ids: Ids)
    requires scene.Valid() && inputs.t1.Some? && InScene(inputs, scene.nodes)
    requires outLabel.Some? ==> outLabel.value in scene.nodes
    modifies scene
    ensures scene.Valid() && Bound(inputs, ids.conformed)
    ensures ok <==> (inputs.flair.Some? <==> inputs.t2.Some?)
    ensures scene.log == old(scene.log) + RunCalls(inputs, s, home, ids)
    ensures outLabel.Some? ==> ids.lesionMap == outLabel.value
    ensures ok ==> scene.nodes == old(scene.nodes)
    ensures !ok ==> scene.nodes == old(scene.nodes) + ConformNodes(ids.conformed) &&
                    MSLesionSimulator.InRange(ConformNodes(ids.conformed), old(scene.next), scene.next)
    ensures KeptExcept(old(scene.content), scene.content, InputNodes(inputs) + OptNodes(outLabel))
    ensures InScene(inputs, scene.content.Keys) && inputs.t1.value in scene.content
    ensures !s.returnSpace ==> forall m :: Present(inputs, m) ==> CarriesLesions(scene.content[Volume(inputs, m).value])
    ensures s.returnSpace ==> forall m :: m != T1 && Present(inputs, m) ==>
              (CarriesLesions(scene.content[Volume(inputs, m).value]) <==> CarriesLesions(old(scene.content)[Volume(inputs, m).value]))
    ensures inputs.t1.value !in OtherInputs(inputs) ==> CarriesLesions(scene.content[inputs.t1.value])
    ensures outLabel.Some? && outLabel.value !in InputNodes(inputs) ==>
              inputs.t1.value in old(scene.content) && outLabel.value in scene.content &&
              scene.content[outLabel.value] == LesionMapOf(s, home, old(scene.content)[inputs.t1.value])
  {
    ghost var nodes0, n0, c0 := scene.nodes, scene.next, scene.content;
    ids := Prepare(scene, inputs, s, home, outLabel);
    ok := Complete(scene, inputs, s, home, outLabel, ids, nodes0, n0, c0);
    assert Outcome(inputs, s, home, outLabel, ok, ids, nodes0, c0, scene.nodes, scene.content);
    RunLogs(old(scene.log), ConformCalls(inputs, ids.conformed), WhiteMatterCalls(inputs.t1.value, ids.wmMask, ids.smooth, ids.smoothBias),
            TemplateCalls(s, home, inputs.t1.value, ids), DeformCalls(inputs, s, ids.conformed, ids.lesionMap),
            if s.returnSpace then ReturnCalls(inputs, ids.conformed) else []);
    if !ok {
      InRangeJoin(ConformNodes(ids.conformed), {}, n0, ids.wmMask, scene.next);
    }
  }

  /** What a run leaves behind, with the nodes0 and the content c0 it found: the node set
      is as before, or keeps the conform nodes when the cleanup failed; of the nodes before,
      only the selected volumes and the output label change; the lesion facts of `Simulate`;
      an output label that is none of the volumes holds the lesion map. */
  ghost predicate Outcome(inputs: Inputs, s: Settings, home: string, outLabel: Option<NodeId>, ok: bool, ids: Ids,
                          nodes0: set<NodeId>, c0: map<NodeId, Content>, nodes: set<NodeId>, content: map<NodeId, Content>)
    requires inputs.t1.Some? && inputs.t1.value in c0 && InScene(inputs, c0.Keys)
  {
    (ok ==> nodes == nodes0) &&
    (!ok ==> nodes == nodes0 + ConformNodes(ids.conformed)) &&
    KeptExcept(c0, content, InputNodes(inputs) + OptNodes(outLabel)) &&
    InScene(inputs, content.Keys) && inputs.t1.value in content &&
    (!s.returnSpace ==> forall m :: Present(inputs, m) ==> CarriesLesions(content[Volume(inputs, m).value])) &&
    (s.returnSpace ==> forall m :: m != T1 && Present(inputs, m) ==>
       (CarriesLesions(content[Volume(inputs, m).value]) <==> CarriesLesions(c0[Volume(inputs, m).value]))) &&
    (inputs.t1.value !in OtherInputs(inputs) ==> CarriesLesions(content[inputs.t1.value])) &&
    (outLabel.Some? && outLabel.value !in InputNodes(inputs) ==>
       outLabel.value in content && content[outLabel.value] == LesionMapOf(s, home, c0[inputs.t1.value]))
  }

  /** Lines 461-555: the deform and return blocks, then the removal of the temporaries. */
  method Complete(scene: Scene, inputs: Inputs, s: Settings, home: string, outLabel: Option<NodeId>, ids: Ids,
                  ghost nodes0: set<NodeId>, ghost n0: NodeId, ghost c0: map<NodeId, Content>) returns (ok: bool)
    requires scene.Valid() && inputs.t1.Some? && InScene(inputs, nodes0) && c0.Keys == nodes0 && (forall id :: id in nodes0 ==> id < n0)
    requires outLabel.Some? ==> outLabel.value in nodes0
    requires Bound(inputs, ids.conformed) && Numbered(ids, outLabel, scene.next)
    requires n0 <= ids.wmMask && MSLesionSimulator.InRange(ConformNodes(ids.conformed), n0, ids.wmMask)
    requires scene.nodes == nodes0 + ConformNodes(ids.conformed) + TemplateNodes(ids)
    requires KeptExcept(c0, scene.content, OptNodes(outLabel))
    requires inputs.t1.value in c0 && AllResampled(inputs, ids.conformed, c0, scene.content)
    requires ids.lesionMap != inputs.t1.value ==> scene.content[ids.lesionMap] == LesionMapOf(s, home, c0[inputs.t1.value])
    modifies scene
    ensures scene.Valid() && scene.next == old(scene.next)
    ensures ok <==> (inputs.flair.Some? <==> inputs.t2.Some?)
    ensures scene.log == old(scene.log) + (DeformCalls(inputs, s, ids.conformed, ids.lesionMap) +
                                           if s.returnSpace then ReturnCalls(inputs, ids.conformed) else [])
    ensures Outcome(inputs, s, home, outLabel, ok, ids, nodes0, c0, scene.nodes, scene.content)
  {
    ghost var nodesP, cP := scene.nodes, scene.content;
    assert Present(inputs, T1);
    Separated(inputs, nodes0, n0, ConformNodes(ids.conformed), ids.wmMask);
    Simulate(scene, inputs, s, ids, c0);
    ghost var cS := scene.content;
    ok := Finish(scene, inputs, ids, outLabel);
    CompleteOutcome(inputs, s, home, outLabel, ok, ids, nodes0, n0, c0, nodesP, cP, cS, scene.nodes, scene.content);
  }

  /** `Outcome` from the facts of `Simulate` and `Finish`, on the contents after `Prepare`
      (cP), after `Simulate` (cS) and at the end (cF). */
  lemma CompleteOutcome(inputs: Inputs, s: Settings, home: string, outLabel: Option<NodeId>, ok: bool, ids: Ids,
                        nodes0: set<NodeId>, n0: NodeId, c0: map<NodeId, Content>, nodesP: set<NodeId>,
                        cP: map<NodeId, Content>, cS: map<NodeId, Content>, nodesF: set<NodeId>, cF: map<NodeId, Content>)
    requires inputs.t1.Some? && InScene(inputs, nodes0) && c0.Keys == nodes0 && (forall id :: id in nodes0 ==> id < n0)
    requires outLabel.Some? ==> outLabel.value in nodes0
    requires Numbered(ids, outLabel, ids.priors + 1)
    requires n0 <= ids.wmMask && MSLesionSimulator.InRange(ConformNodes(ids.conformed), n0, ids.wmMask)
    requires nodesP == nodes0 + ConformNodes(ids.conformed) + TemplateNodes(ids)
    requires KeptExcept(c0, cP, OptNodes(outLabel)) && inputs.t1.value in c0
    requires ids.lesionMap != inputs.t1.value ==> ids.lesionMap in cP && cP[ids.lesionMap] == LesionMapOf(s, home, c0[inputs.t1.value])
    requires cS.Keys == nodesP && KeptExcept(cP, cS, InputNodes(inputs))
    requires InScene(inputs, cS.Keys) && inputs.t1.value in cS
    requires !s.returnSpace ==> forall m :: Present(inputs, m) ==> CarriesLesions(cS[Volume(inputs, m).value])
    requires s.returnSpace ==> forall m :: m != T1 && Present(inputs, m) ==>
               (CarriesLesions(cS[Volume(inputs, m).value]) <==> CarriesLesions(c0[Volume(inputs, m).value]))
    requires inputs.t1.value !in OtherInputs(inputs) ==> CarriesLesions(cS[inputs.t1.value])
    requires nodesF == nodesP - TeardownNodes(ids, outLabel) - (if ok then ConformNodes(ids.conformed) else {})
    requires cF.Keys == nodesF && forall id :: id in nodesF ==> cF[id] == cS[id]
    ensures Outcome(inputs, s, home, outLabel, ok, ids, nodes0, c0, nodesF, cF)
  {
    NodesRestored(nodes0, n0, ConformNodes(ids.conformed), ids, outLabel, ids.priors + 1);
    assert nodes0 <= nodesF;
    InputsInScene(inputs, nodes0);
    assert InScene(inputs, cF.Keys) by {
      forall m | Present(inputs, m)
        ensures Volume(inputs, m).value in cF
      {
        VolumeIsInput(inputs, m);
      }
    }
    FinalContent(inputs, s, home, outLabel, ids, nodes0, c0, cP, cS, cF);
    FinalLesions(inputs, s, c0, cS, cF);
  }

  /** The selected volumes are nodes of a scene they are in. */
  lemma InputsInScene(inputs: Inputs, nodes: set<NodeId>)
    requires InScene(inputs, nodes)
    ensures InputNodes(inputs) <= nodes
  {
    assert Present(inputs, T1) ==> Volume(inputs, T1).value in nodes;
    assert Present(inputs, Flair) ==> Volume(inputs, Flair).value in nodes;
    assert Present(inputs, T2) ==> Volume(inputs, T2).value in nodes;
    assert Present(inputs, PD) ==> Volume(inputs, PD).value in nodes;
    assert Present(inputs, FA) ==> Volume(inputs, FA).value in nodes;
    assert Present(inputs, ADC) ==> Volume(inputs, ADC).value in nodes;
  }

  /** The conform nodes are new, so none of them is a selected volume. */
  lemma Separated(inputs: Inputs, nodes0: set<NodeId>, n0: NodeId, conform: set<NodeId>, hi: NodeId)
    requires InScene(inputs, nodes0) && (forall id :: id in nodes0 ==> id < n0) && MSLesionSimulator.InRange(conform, n0, hi)
    ensures conform !! InputNodes(inputs)
  {
    InputsInScene(inputs, nodes0);
  }
}
