/** The MSLesionSimulator driver: it picks a reference space among the structural volumes,
    conforms the others to it, registers the MNI152 template, generates one lesion map,
    filters it per modality and deforms (or follows over time) every selected volume, then
    optionally returns each conformed volume to its own space and removes its
    temporaries. */
module MSLesionSimulator {
  import opened Wrappers
  import opened MrmlScene
  import opened Modalities

  /** The panel's settings besides the volumes. */
  datatype Settings = Settings(returnSpace: bool, isBET: bool, lesionLoad: real, isLongitudinal: bool,
                               numberFollowUp: real, balanceHI: real, outputFolder: string,
                               cutFraction: real, samplingPerc: real, grid: string, initiationMethod: string)

  /** The nodes one run allocates. */
  datatype Ids = Ids(transform: map<Modality, NodeId>, clone: map<Modality, NodeId>,
                     mni: NodeId, mniRef: NodeId, regMNI: NodeId, lesionMap: NodeId,
                     labels: map<Modality, NodeId>)

  const Variability: real := 0.5

  /** The reference space is the first selected of these. */
  const ReferenceOrder: seq<Modality> := [T1, T2, Flair, PD]

  /** None when no structural volume is selected; otherwise the first one selected in
      ReferenceOrder (ReferenceIsFirstSelected). */
  function Reference(inputs: Inputs): Option<NodeId>
  {
    if inputs.t1.Some? then inputs.t1
    else if inputs.t2.Some? then inputs.t2
    else if inputs.flair.Some? then inputs.flair
    else inputs.pd
  }

  /** The reference is missing exactly when no structural volume is selected, and is
      otherwise the first structural volume selected in ReferenceOrder. */
  lemma ReferenceIsFirstSelected(inputs: Inputs)
    ensures Reference(inputs).None? <==> forall i :: 0 <= i < |ReferenceOrder| ==> !Present(inputs, ReferenceOrder[i])
    ensures Reference(inputs).Some? ==>
              exists i :: 0 <= i < |ReferenceOrder| && Volume(inputs, ReferenceOrder[i]) == Reference(inputs) &&
                          forall j :: 0 <= j < i ==> !Present(inputs, ReferenceOrder[j])
  {
    assert ReferenceOrder[0] == T1 && ReferenceOrder[1] == T2 && ReferenceOrder[2] == Flair && ReferenceOrder[3] == PD;
  }

  /** The Apply button is enabled exactly when a structural volume is selected, which is
      exactly when a run can find a reference space. */
  function ApplyEnabled(inputs: Inputs): (enabled: bool)
    ensures enabled <==> Reference(inputs).Some?
    ensures enabled <==> exists i :: 0 <= i < |ReferenceOrder| && Present(inputs, ReferenceOrder[i])
  {
    ReferenceIsFirstSelected(inputs);
    inputs.t1.Some? || inputs.t2.Some? || inputs.flair.Some? || inputs.pd.Some?
  }

  lemma ReferenceSelected(inputs: Inputs, nodes: set<NodeId>)
    requires Reference(inputs).Some? && InScene(inputs, nodes)
    ensures Reference(inputs).value in nodes
  {
    assert Present(inputs, T1) || Present(inputs, T2) || Present(inputs, Flair) || Present(inputs, PD);
  }

  /** Whether modality m is registered into the reference space: T2, FLAIR and PD when they
      are not the reference node itself, FA and ADC whenever selected. */
  predicate Conformed(inputs: Inputs, m: Modality)
  {
    match m
    case T1 => false
    case T2 => inputs.t2.Some? && inputs.t2 != Reference(inputs)
    case Flair => inputs.flair.Some? && inputs.flair != Reference(inputs)
    case PD => inputs.pd.Some? && inputs.pd != Reference(inputs)
    case FA => inputs.fa.Some?
    case ADC => inputs.adc.Some?
  }

  /** After the conform blocks every selected volume lies in the reference space: it is the
      reference node or it was registered to it; only selected volumes are registered. */
  lemma EveryVolumeInReferenceSpace(inputs: Inputs, m: Modality)
    requires Reference(inputs).Some?
    ensures Present(inputs, m) ==> Conformed(inputs, m) || Volume(inputs, m) == Reference(inputs)
    ensures Conformed(inputs, m) ==> Present(inputs, m)
  {
  }

  function Sigma(m: Modality): real
  {
    match m
    case T1 => 0.75
    case T2 => 0.75
    case PD => 0.75
    case Flair => 0.75
    case FA => 1.5
    case ADC => 1.3
  }

  function DatabasePath(modulePath: string): string
  {
    modulePath + "/Resources/MSlesion_database"
  }

  function TemplatePath(modulePath: string, isBET: bool): string
  {
    DatabasePath(modulePath) + (if isBET then "/MNI152_T1_1mm_brain.nii.gz" else "/MNI152_T1_1mm.nii.gz")
  }

  /** The conformed modalities among the first n of the conform order. */
  function ConformedBelow(inputs: Inputs, n: nat): set<Modality>
    requires n <= 5
  {
    if n == 0 then {}
    else ConformedBelow(inputs, n - 1) + (if Conformed(inputs, ConformAt(n - 1)) then {ConformAt(n - 1)} else {})
  }

  lemma {:induction false} ConformedBelowMembers(inputs: Inputs, n: nat)
    requires n <= 5
    ensures forall m :: m in ConformedBelow(inputs, n) <==> Conformed(inputs, m) && ConformRank(m) < n
  {
    if n > 0 {
      ConformedBelowMembers(inputs, n - 1);
      forall m | Conformed(inputs, m) && ConformRank(m) == n - 1
        ensures m == ConformAt(n - 1)
      {
        ConformAtRank(m);
      }
    }
  }

  /** The selected modalities among the first n of the lesion order. */
  function PresentBelow(inputs: Inputs, n: nat): set<Modality>
    requires n <= 6
  {
    if n == 0 then {}
    else PresentBelow(inputs, n - 1) + (if Present(inputs, LesionAt(n - 1)) then {LesionAt(n - 1)} else {})
  }

  lemma {:induction false} PresentBelowMembers(inputs: Inputs, n: nat)
    requires n <= 6
    ensures forall m :: m in PresentBelow(inputs, n) <==> Present(inputs, m) && LesionRank(m) < n
  {
    if n > 0 {
      PresentBelowMembers(inputs, n - 1);
      forall m | LesionRank(m) == n - 1
        ensures m == LesionAt(n - 1)
      {
        LesionAtRank(m);
      }
    }
  }

  lemma ConformedBelowAll(inputs: Inputs)
    ensures forall m :: m in ConformedBelow(inputs, 5) <==> Conformed(inputs, m)
  {
    ConformedBelowMembers(inputs, 5);
    forall m | Conformed(inputs, m) ensures ConformRank(m) < 5 { ConformAtRank(m); }
  }

  lemma PresentBelowAll(inputs: Inputs)
    ensures forall m :: m in PresentBelow(inputs, 6) <==> Present(inputs, m)
  {
    PresentBelowMembers(inputs, 6);
    forall m ensures LesionRank(m) < 6 { LesionAtRank(m); }
  }

  /** The nodes a run allocates: a transform and a clone per conformed modality, a label
      map per selected modality. */
  predicate Allocated(inputs: Inputs, ids: Ids)
  {
    ids.transform.Keys == ConformedBelow(inputs, 5) && ids.clone.Keys == ConformedBelow(inputs, 5) &&
    ids.labels.Keys == PresentBelow(inputs, 6)
  }

  /** The allocated nodes cover exactly the conformed and the selected modalities. */
  lemma AllocatedCovers(inputs: Inputs, ids: Ids)
    requires Allocated(inputs, ids)
    ensures forall m :: m in ids.transform <==> Conformed(inputs, m)
    ensures forall m :: m in ids.clone <==> Conformed(inputs, m)
    ensures forall m :: m in ids.labels <==> Present(inputs, m)
  {
    ConformedBelowAll(inputs);
    PresentBelowAll(inputs);
  }

  // ---------------------------------------------------------------------------------
  // The module calls of a run

  function ConformCall(inputs: Inputs, transform: map<Modality, NodeId>, m: Modality): Call
    requires Reference(inputs).Some? && Conformed(inputs, m) && m in transform
  {
    var v := Volume(inputs, m).value;
    Call(LinearRegistration, [Reference(inputs).value, v], [transform[m], v])
  }

  /** The first n conform blocks. */
  function ConformCalls(inputs: Inputs, transform: map<Modality, NodeId>, n: nat): seq<Call>
    requires n <= 5 && Reference(inputs).Some?
    requires ConformedBelow(inputs, n) <= transform.Keys
  {
    if n == 0 then []
    else
      ConformCalls(inputs, transform, n - 1) +
      (if Conformed(inputs, ConformAt(n - 1)) then [ConformCall(inputs, transform, ConformAt(n - 1))] else [])
  }

  function FilterCall(inputs: Inputs, s: Settings, lesionMap: NodeId, labels: map<Modality, NodeId>, m: Modality): Call
    requires Present(inputs, m) && m in labels
  {
    Call(FilterMask(s.cutFraction), [Volume(inputs, m).value, lesionMap], [labels[m]])
  }

  /** The first n filter blocks: the lesion map filtered into each selected modality's own
      label map. */
  function FilterCalls(inputs: Inputs, s: Settings, lesionMap: NodeId, labels: map<Modality, NodeId>, n: nat): seq<Call>
    requires n <= 6
    requires PresentBelow(inputs, n) <= labels.Keys
  {
    if n == 0 then []
    else
      FilterCalls(inputs, s, lesionMap, labels, n - 1) +
      (if Present(inputs, LesionAt(n - 1)) then [FilterCall(inputs, s, lesionMap, labels, LesionAt(n - 1))] else [])
  }

  /** The deformation in place or, for a longitudinal run, the follow-up series of one volume. */
  function SimulationCall(inputs: Inputs, s: Settings, labels: map<Modality, NodeId>, m: Modality): Call
    requires Present(inputs, m) && m in labels
  {
    var v := Volume(inputs, m).value;
    if s.isLongitudinal then
      Call(LongitudinalExams(Name(m), s.numberFollowUp, s.balanceHI, s.outputFolder, Sigma(m), Variability), [v, labels[m]], [])
    else
      Call(DeformImage(Name(m), Sigma(m), None, Variability), [v, labels[m]], [v])
  }

  function SimulationCalls(inputs: Inputs, s: Settings, labels: map<Modality, NodeId>, n: nat): seq<Call>
    requires n <= 6
    requires PresentBelow(inputs, n) <= labels.Keys
  {
    if n == 0 then []
    else
      SimulationCalls(inputs, s, labels, n - 1) +
      (if Present(inputs, LesionAt(n - 1)) then [SimulationCall(inputs, s, labels, LesionAt(n - 1))] else [])
  }

  /** The inverse resample of a conformed volume onto its clone's grid. */
  function ReturnCall(inputs: Inputs, transform: map<Modality, NodeId>, clone: map<Modality, NodeId>, m: Modality): Call
    requires Conformed(inputs, m) && m in transform && m in clone
  {
    var v := Volume(inputs, m).value;
    Call(Resample(ResampleParamsFor(false, true)), [v, clone[m], transform[m]], [v])
  }

  function ReturnCalls(inputs: Inputs, transform: map<Modality, NodeId>, clone: map<Modality, NodeId>, n: nat): seq<Call>
    requires n <= 5
    requires ConformedBelow(inputs, n) <= transform.Keys && ConformedBelow(inputs, n) <= clone.Keys
  {
    if n == 0 then []
    else
      ReturnCalls(inputs, transform, clone, n - 1) +
      (if Conformed(inputs, ConformAt(n - 1)) then [ReturnCall(inputs, transform, clone, ConformAt(n - 1))] else [])
  }

  /** The template registration, the lesion map's generation and its resampling into the
      reference space. */
  function TemplateCalls(s: Settings, modulePath: string, ref: NodeId, mni: NodeId, mniRef: NodeId, regMNI: NodeId, lesionMap: NodeId): seq<Call>
  {
    [Call(BSplineRegistration(s.samplingPerc, s.grid, s.initiationMethod), [ref, mni], [regMNI, mniRef]),
     Call(GenerateMask(s.lesionLoad, DatabasePath(modulePath) + "/labels-database"), [mni], [lesionMap]),
     Call(Resample(ResampleParamsFor(true, false)), [lesionMap, ref, regMNI], [lesionMap])]
  }

  /** Every module a run with a reference space starts, in order. */
  function RunCalls(inputs: Inputs, s: Settings, modulePath: string, ids: Ids): seq<Call>
    requires Reference(inputs).Some? && Allocated(inputs, ids)
  {
    ConformCalls(inputs, ids.transform, 5) +
    TemplateCalls(s, modulePath, Reference(inputs).value, ids.mni, ids.mniRef, ids.regMNI, ids.lesionMap) +
    FilterCalls(inputs, s, ids.lesionMap, ids.labels, 6) +
    SimulationCalls(inputs, s, ids.labels, 6) +
    (if s.returnSpace then ReturnCalls(inputs, ids.transform, ids.clone, 5) else [])
  }

  // ---------------------------------------------------------------------------------
  // One simulation per modality

  predicate SimulatesModality(c: Call, name: string)
  {
    (c.tool.DeformImage? || c.tool.LongitudinalExams?) && c.tool.imageModality == name
  }

  /** The number of calls that deform or follow up the modality called name. */
  function SimulationsOf(calls: seq<Call>, name: string): nat
  {
    if calls == [] then 0
    else SimulationsOf(calls[..|calls| - 1], name) + (if SimulatesModality(calls[|calls| - 1], name) then 1 else 0)
  }

  lemma {:induction false} SimulationsOfAppend(a: seq<Call>, b: seq<Call>, name: string)
    ensures SimulationsOf(a + b, name) == SimulationsOf(a, name) + SimulationsOf(b, name)
    decreases |b|
  {
    if b == [] {
      assert a + b == a;
    } else {
      assert (a + b)[..|a + b| - 1] == a + b[..|b| - 1];
      SimulationsOfAppend(a, b[..|b| - 1], name);
    }
  }

  /** A list of calls none of which deforms or follows up a volume. */
  predicate NoSimulation(calls: seq<Call>)
  {
    forall c :: c in calls ==> !c.tool.DeformImage? && !c.tool.LongitudinalExams?
  }

  lemma {:induction false} NoSimulationCounts(calls: seq<Call>, name: string)
    requires NoSimulation(calls)
    ensures SimulationsOf(calls, name) == 0
  {
    if calls != [] {
      assert forall c :: c in calls[..|calls| - 1] ==> c in calls;
      NoSimulationCounts(calls[..|calls| - 1], name);
    }
  }

  lemma {:induction false} ConformCallsRegister(inputs: Inputs, transform: map<Modality, NodeId>, n: nat)
    requires n <= 5 && Reference(inputs).Some?
    requires ConformedBelow(inputs, n) <= transform.Keys
    ensures forall c :: c in ConformCalls(inputs, transform, n) ==> c.tool == LinearRegistration
  {
    if n > 0 {
      ConformCallsRegister(inputs, transform, n - 1);
    }
  }

  lemma {:induction false} FilterCallsFilter(inputs: Inputs, s: Settings, lesionMap: NodeId, labels: map<Modality, NodeId>, n: nat)
    requires n <= 6
    requires PresentBelow(inputs, n) <= labels.Keys
    ensures forall c :: c in FilterCalls(inputs, s, lesionMap, labels, n) ==> c.tool.FilterMask?
  {
    if n > 0 {
      FilterCallsFilter(inputs, s, lesionMap, labels, n - 1);
    }
  }

  lemma {:induction false} ReturnCallsResample(inputs: Inputs, transform: map<Modality, NodeId>, clone: map<Modality, NodeId>, n: nat)
    requires n <= 5
    requires ConformedBelow(inputs, n) <= transform.Keys && ConformedBelow(inputs, n) <= clone.Keys
    ensures forall c :: c in ReturnCalls(inputs, transform, clone, n) ==> c.tool.Resample?
  {
    if n > 0 {
      ReturnCallsResample(inputs, transform, clone, n - 1);
    }
  }

  lemma SimulationsOfSingle(c: Call, name: string)
    ensures SimulationsOf([c], name) == if SimulatesModality(c, name) then 1 else 0
  {
    assert [c][..0] == [];
  }

  /** A simulation block simulates its own modality and no other. */
  lemma SimulationCallSimulates(inputs: Inputs, s: Settings, labels: map<Modality, NodeId>, m: Modality, m': Modality)
    requires Present(inputs, m) && m in labels
    ensures SimulatesModality(SimulationCall(inputs, s, labels, m), Name(m')) <==> m == m'
  {
    if SimulatesModality(SimulationCall(inputs, s, labels, m), Name(m')) {
      NamesDistinct(m, m');
    }
  }

  /** The first n simulation blocks simulate a modality once if it is among them and
      selected, and never otherwise. */
  lemma {:induction false} SimulationCount(inputs: Inputs, s: Settings, labels: map<Modality, NodeId>, n: nat, m: Modality)
    requires n <= 6
    requires PresentBelow(inputs, n) <= labels.Keys
    ensures SimulationsOf(SimulationCalls(inputs, s, labels, n), Name(m)) == if LesionRank(m) < n && Present(inputs, m) then 1 else 0
  {
    if n > 0 {
      var last := LesionAt(n - 1);
      var prev := SimulationCalls(inputs, s, labels, n - 1);
      SimulationCount(inputs, s, labels, n - 1, m);
      var count := SimulationsOf(SimulationCalls(inputs, s, labels, n), Name(m));
      if Present(inputs, last) {
        assert SimulationCalls(inputs, s, labels, n) == prev + [SimulationCall(inputs, s, labels, last)];
        SimulationCountStep(inputs, s, labels, prev, last, m);
      } else {
        assert SimulationCalls(inputs, s, labels, n) == prev + [];
        assert prev + [] == prev;
      }
      if LesionRank(m) == n - 1 {
        LesionAtRank(m);
        assert last == m;
        assert count == if Present(inputs, m) then 1 else 0;
      } else {
        assert last != m;
        assert count == SimulationsOf(prev, Name(m));
      }
    }
  }

  /** Appending the simulation block of a selected modality adds one simulation of that
      modality and none of any other. */
  lemma SimulationCountStep(inputs: Inputs, s: Settings, labels: map<Modality, NodeId>, prev: seq<Call>, last: Modality, m: Modality)
    requires Present(inputs, last) && last in labels
    ensures SimulationsOf(prev + [SimulationCall(inputs, s, labels, last)], Name(m)) == SimulationsOf(prev, Name(m)) + if last == m then 1 else 0
  {
    var c := SimulationCall(inputs, s, labels, last);
    SimulationsOfAppend(prev, [c], Name(m));
    SimulationsOfSingle(c, Name(m));
    SimulationCallSimulates(inputs, s, labels, last, m);
  }

  /** A run deforms, or follows over time, each selected modality exactly once and no
      other. */
  lemma OneSimulationPerModality(inputs: Inputs, s: Settings, modulePath: string, ids: Ids, m: Modality)
    requires Reference(inputs).Some? && Allocated(inputs, ids)
    ensures SimulationsOf(RunCalls(inputs, s, modulePath, ids), Name(m)) == if Present(inputs, m) then 1 else 0
  {
    var a := ConformCalls(inputs, ids.transform, 5);
    var b := TemplateCalls(s, modulePath, Reference(inputs).value, ids.mni, ids.mniRef, ids.regMNI, ids.lesionMap);
    var c := FilterCalls(inputs, s, ids.lesionMap, ids.labels, 6);
    var d := SimulationCalls(inputs, s, ids.labels, 6);
    var e := if s.returnSpace then ReturnCalls(inputs, ids.transform, ids.clone, 5) else [];
    assert RunCalls(inputs, s, modulePath, ids) == a + b + c + d + e;
    ConformCallsRegister(inputs, ids.transform, 5);
    FilterCallsFilter(inputs, s, ids.lesionMap, ids.labels, 6);
    ReturnCallsResample(inputs, ids.transform, ids.clone, 5);
    NoSimulationCounts(a, Name(m));
    NoSimulationCounts(b, Name(m));
    NoSimulationCounts(c, Name(m));
    NoSimulationCounts(e, Name(m));
    SimulationCount(inputs, s, ids.labels, 6, m);
    SimulationsOfAppend(a, b, Name(m));
    SimulationsOfAppend(a + b, c, Name(m));
    SimulationsOfAppend(a + b + c, d, Name(m));
    SimulationsOfAppend(a + b + c + d, e, Name(m));
  }

  lemma {:induction false} SimulationsAreSimulations(inputs: Inputs, s: Settings, labels: map<Modality, NodeId>, n: nat)
    requires n <= 6
    requires PresentBelow(inputs, n) <= labels.Keys
    ensures forall c :: c in SimulationCalls(inputs, s, labels, n) ==>
              (c.tool.DeformImage? <==> !s.isLongitudinal) && (c.tool.LongitudinalExams? <==> s.isLongitudinal)
  {
    if n > 0 {
      SimulationsAreSimulations(inputs, s, labels, n - 1);
    }
  }

  /** Every simulation of a run is a deformation in place when the run is not longitudinal
      and a follow-up series when it is. */
  lemma SimulationKindFollowsSetting(inputs: Inputs, s: Settings, modulePath: string, ids: Ids, c: Call)
    requires Reference(inputs).Some? && Allocated(inputs, ids)
    requires c in RunCalls(inputs, s, modulePath, ids)
    ensures c.tool.DeformImage? ==> !s.isLongitudinal
    ensures c.tool.LongitudinalExams? ==> s.isLongitudinal
  {
    ConformCallsRegister(inputs, ids.transform, 5);
    FilterCallsFilter(inputs, s, ids.lesionMap, ids.labels, 6);
    ReturnCallsResample(inputs, ids.transform, ids.clone, 5);
    SimulationsAreSimulations(inputs, s, ids.labels, 6);
  }

  /** Every deformation or follow-up series of modality m in a run gets the smoothing
      sigma of m (0.75 for the structural volumes, 1.5 for FA, 1.3 for ADC) and
      variability 0.5; a deformation passes no homogeneity. */
  lemma SimulationParameters(inputs: Inputs, s: Settings, modulePath: string, ids: Ids, c: Call, m: Modality)
    requires Reference(inputs).Some? && Allocated(inputs, ids)
    requires c in RunCalls(inputs, s, modulePath, ids) && SimulatesModality(c, Name(m))
    ensures Present(inputs, m) && m in ids.labels && c.ins == [Volume(inputs, m).value, ids.labels[m]]
    ensures c.tool.sigma == (if m == FA then 1.5 else if m == ADC then 1.3 else 0.75) && c.tool.variability == 0.5
    ensures c.tool.DeformImage? ==> c.tool.homogeneity.None? && c.outs == [Volume(inputs, m).value]
    ensures c.tool.LongitudinalExams? ==> c.tool.numberFollowUp == s.numberFollowUp && c.tool.balanceHI == s.balanceHI &&
                                          c.tool.outputFolder == s.outputFolder && c.outs == []
  {
    ConformCallsRegister(inputs, ids.transform, 5);
    FilterCallsFilter(inputs, s, ids.lesionMap, ids.labels, 6);
    ReturnCallsResample(inputs, ids.transform, ids.clone, 5);
    SimulationCallsMember(inputs, s, ids.labels, 6, c);
    var m' :| Present(inputs, m') && m' in ids.labels && c == SimulationCall(inputs, s, ids.labels, m');
    SimulationCallSimulates(inputs, s, ids.labels, m', m);
  }

  lemma {:induction false} SimulationCallsMember(inputs: Inputs, s: Settings, labels: map<Modality, NodeId>, n: nat, c: Call)
    requires n <= 6
    requires PresentBelow(inputs, n) <= labels.Keys
    requires c in SimulationCalls(inputs, s, labels, n)
    ensures exists m :: Present(inputs, m) && m in labels && c == SimulationCall(inputs, s, labels, m)
  {
    if c in SimulationCalls(inputs, s, labels, n - 1) {
      SimulationCallsMember(inputs, s, labels, n - 1, c);
    } else {
      assert c == SimulationCall(inputs, s, labels, LesionAt(n - 1));
    }
  }

  // ---------------------------------------------------------------------------------
  // Every inverse resample undoes a registration of the same volume

  lemma {:induction false} ReturnCallsMember(inputs: Inputs, transform: map<Modality, NodeId>, clone: map<Modality, NodeId>, n: nat, c: Call)
    requires n <= 5
    requires ConformedBelow(inputs, n) <= transform.Keys && ConformedBelow(inputs, n) <= clone.Keys
    requires c in ReturnCalls(inputs, transform, clone, n)
    ensures exists m :: Conformed(inputs, m) && ConformRank(m) < n && m in transform && m in clone &&
                        c == ReturnCall(inputs, transform, clone, m)
  {
    if c in ReturnCalls(inputs, transform, clone, n - 1) {
      ReturnCallsMember(inputs, transform, clone, n - 1, c);
    } else {
      assert c == ReturnCall(inputs, transform, clone, ConformAt(n - 1));
    }
  }

  lemma {:induction false} ConformCallsHave(inputs: Inputs, transform: map<Modality, NodeId>, n: nat, m: Modality)
    requires n <= 5 && Reference(inputs).Some?
    requires ConformedBelow(inputs, n) <= transform.Keys
    requires Conformed(inputs, m) && m in ConformedBelow(inputs, n)
    ensures ConformCall(inputs, transform, m) in ConformCalls(inputs, transform, n)
  {
    ConformedBelowMembers(inputs, n);
    ConformAtRank(m);
    if ConformRank(m) < n - 1 {
      ConformedBelowMembers(inputs, n - 1);
      ConformCallsHave(inputs, transform, n - 1, m);
    }
  }

  /** Every inverse resample of a run happens only with returnSpace set, onto a conformed
      volume, and undoes the transform that the same volume's registration wrote: the
      run's log also holds that registration. */
  lemma InverseFollowsRegistration(inputs: Inputs, s: Settings, modulePath: string, ids: Ids, c: Call)
    requires Reference(inputs).Some? && Allocated(inputs, ids)
    requires c in RunCalls(inputs, s, modulePath, ids) && c.tool == Resample(ResampleParamsFor(false, true))
    ensures s.returnSpace
    ensures exists m :: Conformed(inputs, m) && m in ids.transform && m in ids.clone &&
                        c == ReturnCall(inputs, ids.transform, ids.clone, m) &&
                        ConformCall(inputs, ids.transform, m) in RunCalls(inputs, s, modulePath, ids)
  {
    var e := if s.returnSpace then ReturnCalls(inputs, ids.transform, ids.clone, 5) else [];
    ConformCallsRegister(inputs, ids.transform, 5);
    FilterCallsFilter(inputs, s, ids.lesionMap, ids.labels, 6);
    SimulationsAreSimulations(inputs, s, ids.labels, 6);
    assert c in e;
    ReturnCallsMember(inputs, ids.transform, ids.clone, 5, c);
    var m :| Conformed(inputs, m) && ConformRank(m) < 5 && m in ids.transform && m in ids.clone &&
             c == ReturnCall(inputs, ids.transform, ids.clone, m);
    ConformedBelowMembers(inputs, 5);
    ConformCallsHave(inputs, ids.transform, 5, m);
  }

  // ---------------------------------------------------------------------------------
  // The run on the scene

  /** Every node of xs lies in [lo, hi). */
  predicate InRange(xs: set<NodeId>, lo: NodeId, hi: NodeId)
  {
    forall x :: x in xs ==> lo <= x < hi
  }

  lemma ValuesUpdate(ids: map<Modality, NodeId>, m: Modality, id: NodeId)
    requires m !in ids
    ensures ids[m := id].Values == ids.Values + {id}
  {
    forall x | x in ids.Values
      ensures x in ids[m := id].Values
    {
      var k :| k in ids && ids[k] == x;
      assert ids[m := id][k] == x;
    }
    assert ids[m := id][m] == id;
  }

  lemma {:induction false} ConformCallsFrame(inputs: Inputs, t1: map<Modality, NodeId>, t2: map<Modality, NodeId>, n: nat)
    requires n <= 5 && Reference(inputs).Some?
    requires ConformedBelow(inputs, n) <= t1.Keys && ConformedBelow(inputs, n) <= t2.Keys
    requires forall m :: m in ConformedBelow(inputs, n) ==> t1[m] == t2[m]
    ensures ConformCalls(inputs, t1, n) == ConformCalls(inputs, t2, n)
  {
    if n > 0 {
      ConformCallsFrame(inputs, t1, t2, n - 1);
    }
  }

  lemma {:induction false} FilterCallsFrame(inputs: Inputs, s: Settings, lesionMap: NodeId, l1: map<Modality, NodeId>, l2: map<Modality, NodeId>, n: nat)
    requires n <= 6
    requires PresentBelow(inputs, n) <= l1.Keys && PresentBelow(inputs, n) <= l2.Keys
    requires forall m :: m in PresentBelow(inputs, n) ==> l1[m] == l2[m]
    ensures FilterCalls(inputs, s, lesionMap, l1, n) == FilterCalls(inputs, s, lesionMap, l2, n)
  {
    if n > 0 {
      FilterCallsFrame(inputs, s, lesionMap, l1, l2, n - 1);
    }
  }

  /** The state after the first n conform blocks: a transform and a clone for each
      conformed modality among them, all new nodes in [n0, next), and their registrations
      logged. */
  predicate ConformedSoFar(inputs: Inputs, nodes0: set<NodeId>, n0: NodeId, log0: seq<Call>,
                           nodes: set<NodeId>, next: NodeId, log: seq<Call>,
                           transform: map<Modality, NodeId>, clone: map<Modality, NodeId>, n: nat)
    requires n <= 5 && Reference(inputs).Some?
  {
    transform.Keys == ConformedBelow(inputs, n) && clone.Keys == ConformedBelow(inputs, n) &&
    nodes == nodes0 + transform.Values + clone.Values && n0 <= next &&
    InRange(transform.Values + clone.Values, n0, next) &&
    log == log0 + ConformCalls(inputs, transform, n)
  }

  /** The scene operations of one conform block: a new transform, a clone of the volume,
      the registration of the volume in place. */
  method ConformOne(scene: Scene, ref: NodeId, v: NodeId) returns (t: NodeId, c: NodeId)
    requires scene.Valid() && ref in scene.nodes && v in scene.nodes
    modifies scene
    ensures scene.Valid() && scene.next == old(scene.next) + 2 && t == old(scene.next) && c == old(scene.next) + 1
    ensures scene.nodes == old(scene.nodes) + {t, c}
    ensures scene.log == old(scene.log) + [Call(LinearRegistration, [ref, v], [t, v])]
  {
    t := scene.AddNode();
    c := scene.CloneVolume(v);
    scene.Execute(LinearRegistration, [ref, v], [t, v]);
  }

  lemma InRangeGrow(xs: set<NodeId>, ys: set<NodeId>, lo: NodeId, hi: NodeId)
    requires InRange(xs + ys, lo, hi) && lo <= hi
    ensures InRange((xs + {hi}) + (ys + {hi + 1}), lo, hi + 2)
  {
  }

  lemma SetShuffle(a: set<NodeId>, b: set<NodeId>, c: set<NodeId>, x: NodeId, y: NodeId)
    ensures a + (b + {x}) + (c + {y}) == (a + b + c) + {x, y}
  {
  }

  /** One conform block that runs: two fresh nodes and one linear registration. */
  lemma ConformStep(inputs: Inputs, nodes0: set<NodeId>, n0: NodeId, log0: seq<Call>,
                    nodes: set<NodeId>, next: NodeId, log: seq<Call>,
                    transform: map<Modality, NodeId>, clone: map<Modality, NodeId>, i: nat,
                    nodes': set<NodeId>, next': NodeId, log': seq<Call>,
                    transform': map<Modality, NodeId>, clone': map<Modality, NodeId>)
    requires i < 5 && Reference(inputs).Some? && Conformed(inputs, ConformAt(i))
    requires ConformedSoFar(inputs, nodes0, n0, log0, nodes, next, log, transform, clone, i)
    requires nodes' == nodes + {next, next + 1} && next' == next + 2
    requires log' == log + [Call(LinearRegistration, [Reference(inputs).value, Volume(inputs, ConformAt(i)).value],
                                 [next, Volume(inputs, ConformAt(i)).value])]
    requires transform' == transform[ConformAt(i) := next] && clone' == clone[ConformAt(i) := next + 1]
    ensures ConformedSoFar(inputs, nodes0, n0, log0, nodes', next', log', transform', clone', i + 1)
  {
    var m := ConformAt(i);
    ConformedBelowMembers(inputs, i);
    ValuesUpdate(transform, m, next);
    ValuesUpdate(clone, m, next + 1);
    var t', c' := transform[m := next], clone[m := next + 1];
    ConformCallsFrame(inputs, transform, t', i);
    var v := Volume(inputs, m).value;
    assert t'.Keys == ConformedBelow(inputs, i + 1) && c'.Keys == ConformedBelow(inputs, i + 1);
    SetShuffle(nodes0, transform.Values, clone.Values, next, next + 1);
    InRangeGrow(transform.Values, clone.Values, n0, next);
    assert ConformCall(inputs, t', m) == Call(LinearRegistration, [Reference(inputs).value, v], [next, v]);
    assert log + [Call(LinearRegistration, [Reference(inputs).value, v], [next, v])] == log0 + ConformCalls(inputs, t', i + 1);
  }

  /** One conform block that does not run. */
  lemma ConformSkip(inputs: Inputs, nodes0: set<NodeId>, n0: NodeId, log0: seq<Call>,
                    nodes: set<NodeId>, next: NodeId, log: seq<Call>,
                    transform: map<Modality, NodeId>, clone: map<Modality, NodeId>, i: nat)
    requires i < 5 && Reference(inputs).Some? && !Conformed(inputs, ConformAt(i))
    requires ConformedSoFar(inputs, nodes0, n0, log0, nodes, next, log, transform, clone, i)
    ensures ConformedSoFar(inputs, nodes0, n0, log0, nodes, next, log, transform, clone, i + 1)
  {
    assert ConformCalls(inputs, transform, i + 1) == ConformCalls(inputs, transform, i) + [];
  }

  /** The conform block of the i-th modality of the conform order (lines 432-481). */
  method ConformBlock(scene: Scene, inputs: Inputs, i: nat, transform: map<Modality, NodeId>, clone: map<Modality, NodeId>,
                      ghost nodes0: set<NodeId>, ghost n0: NodeId, ghost log0: seq<Call>)
      returns (transform': map<Modality, NodeId>, clone': map<Modality, NodeId>)
    requires i < 5 && Reference(inputs).Some? && scene.Valid() && InScene(inputs, nodes0)
    requires ConformedSoFar(inputs, nodes0, n0, log0, scene.nodes, scene.next, scene.log, transform, clone, i)
    modifies scene
    ensures scene.Valid()
    ensures ConformedSoFar(inputs, nodes0, n0, log0, scene.nodes, scene.next, scene.log, transform', clone', i + 1)
  {
    var m := ConformAt(i);
    if Conformed(inputs, m) {
      ReferenceSelected(inputs, nodes0);
      assert Present(inputs, m);
      ghost var nodes, next, log := scene.nodes, scene.next, scene.log;
      var t, c := ConformOne(scene, Reference(inputs).value, Volume(inputs, m).value);
      transform', clone' := transform[m := t], clone[m := c];
      ConformStep(inputs, nodes0, n0, log0, nodes, next, log, transform, clone, i,
                  scene.nodes, scene.next, scene.log, transform', clone');
    } else {
      ConformSkip(inputs, nodes0, n0, log0, scene.nodes, scene.next, scene.log, transform, clone, i);
      transform', clone' := transform, clone;
    }
  }


  /** Lines 432-481: T2, FLAIR, PD, FA and ADC, each when conformed, get a new linear
      transform and a clone of their original data, and are registered into the
      reference space in place. */
  method ConformPhase(scene: Scene, inputs: Inputs) returns (transform: map<Modality, NodeId>, clone: map<Modality, NodeId>)
    requires scene.Valid() && Reference(inputs).Some? && InScene(inputs, scene.nodes)
    modifies scene
    ensures scene.Valid()
    ensures ConformedSoFar(inputs, old(scene.nodes), old(scene.next), old(scene.log), scene.nodes, scene.next, scene.log, transform, clone, 5)
  {
    ghost var nodes0, n0, log0 := scene.nodes, scene.next, scene.log;
    transform, clone := map[], map[];
    for i := 0 to 5
      invariant scene.Valid()
      invariant ConformedSoFar(inputs, nodes0, n0, log0, scene.nodes, scene.next, scene.log, transform, clone, i)
    {
      transform, clone := ConformBlock(scene, inputs, i, transform, clone, nodes0, n0, log0);
    }
  }

  /** Lines 484-527: the template is loaded and registered to the reference volume with a
      BSpline transform. */
  method RegisterTemplate(scene: Scene, s: Settings, modulePath: string, ref: NodeId) returns (mni: NodeId, mniRef: NodeId, regMNI: NodeId)
    requires scene.Valid() && ref in scene.nodes
    modifies scene
    ensures scene.Valid() && scene.next == old(scene.next) + 3
    ensures mni == old(scene.next) && mniRef == mni + 1 && regMNI == mni + 2
    ensures scene.nodes == old(scene.nodes) + {mni, mniRef, regMNI}
    ensures scene.log == old(scene.log) + [Call(BSplineRegistration(s.samplingPerc, s.grid, s.initiationMethod), [ref, mni], [regMNI, mniRef])]
  {
    mni := scene.LoadVolume(TemplatePath(modulePath, s.isBET));
    mniRef := scene.AddNode();
    regMNI := scene.AddNode();
    scene.Execute(BSplineRegistration(s.samplingPerc, s.grid, s.initiationMethod), [ref, mni], [regMNI, mniRef]);
  }

  /** Lines 529-541: a lesion map is generated in template space and resampled, as a
      label map, into the reference space. */
  method MakeLesionMap(scene: Scene, s: Settings, modulePath: string, ref: NodeId, mni: NodeId, regMNI: NodeId) returns (lesionMap: NodeId)
    requires scene.Valid() && ref in scene.nodes && mni in scene.nodes && regMNI in scene.nodes
    modifies scene
    ensures scene.Valid() && scene.next == old(scene.next) + 1 && lesionMap == old(scene.next)
    ensures scene.nodes == old(scene.nodes) + {lesionMap}
    ensures scene.log == old(scene.log) + [Call(GenerateMask(s.lesionLoad, DatabasePath(modulePath) + "/labels-database"), [mni], [lesionMap]),
                                           Call(Resample(ResampleParamsFor(true, false)), [lesionMap, ref, regMNI], [lesionMap])]
  {
    lesionMap := scene.AddNode();
    scene.Execute(GenerateMask(s.lesionLoad, DatabasePath(modulePath) + "/labels-database"), [mni], [lesionMap]);
    scene.Execute(Resample(ResampleParamsFor(true, false)), [lesionMap, ref, regMNI], [lesionMap]);
  }

  /** The state after the first n filter blocks: a label map for each selected modality
      among them, all new nodes in [n0, next), and the filters logged. */
  predicate FilteredSoFar(inputs: Inputs, s: Settings, lesionMap: NodeId, nodes0: set<NodeId>, n0: NodeId, log0: seq<Call>,
                          nodes: set<NodeId>, next: NodeId, log: seq<Call>, labels: map<Modality, NodeId>, n: nat)
    requires n <= 6
  {
    labels.Keys == PresentBelow(inputs, n) &&
    nodes == nodes0 + labels.Values && n0 <= next && InRange(labels.Values, n0, next) &&
    log == log0 + FilterCalls(inputs, s, lesionMap, labels, n)
  }

  /** The scene operations of one filter block: a new label map, the lesion map filtered
      into it. */
  method FilterOne(scene: Scene, cutFraction: real, v: NodeId, lesionMap: NodeId) returns (l: NodeId)
    requires scene.Valid() && v in scene.nodes && lesionMap in scene.nodes
    modifies scene
    ensures scene.Valid() && scene.next == old(scene.next) + 1 && l == old(scene.next)
    ensures scene.nodes == old(scene.nodes) + {l}
    ensures scene.log == old(scene.log) + [Call(FilterMask(cutFraction), [v, lesionMap], [l])]
  {
    l := scene.AddNode();
    scene.Execute(FilterMask(cutFraction), [v, lesionMap], [l]);
  }

  /** The filter block of the i-th modality of the lesion order (lines 543-581). */
  method FilterBlock(scene: Scene, inputs: Inputs, s: Settings, i: nat, lesionMap: NodeId, labels: map<Modality, NodeId>,
                     ghost nodes0: set<NodeId>, ghost n0: NodeId, ghost log0: seq<Call>)
      returns (labels': map<Modality, NodeId>)
    requires i < 6 && scene.Valid() && InScene(inputs, nodes0) && lesionMap in nodes0
    requires FilteredSoFar(inputs, s, lesionMap, nodes0, n0, log0, scene.nodes, scene.next, scene.log, labels, i)
    modifies scene
    ensures scene.Valid()
    ensures FilteredSoFar(inputs, s, lesionMap, nodes0, n0, log0, scene.nodes, scene.next, scene.log, labels', i + 1)
  {
    var m := LesionAt(i);
    if Present(inputs, m) {
      var l := FilterOne(scene, s.cutFraction, Volume(inputs, m).value, lesionMap);
      PresentBelowMembers(inputs, i);
      ValuesUpdate(labels, m, l);
      labels' := labels[m := l];
      FilterCallsFrame(inputs, s, lesionMap, labels, labels', i);
    } else {
      labels' := labels;
    }
  }

  /** Lines 543-581: T1, FLAIR, T2, PD, FA and ADC, each when selected, get their own label
      map, the lesion map filtered by that volume's intensities. */
  method FilterPhase(scene: Scene, inputs: Inputs, s: Settings, lesionMap: NodeId) returns (labels: map<Modality, NodeId>)
    requires scene.Valid() && InScene(inputs, scene.nodes) && lesionMap in scene.nodes
    modifies scene
    ensures scene.Valid()
    ensures FilteredSoFar(inputs, s, lesionMap, old(scene.nodes), old(scene.next), old(scene.log), scene.nodes, scene.next, scene.log, labels, 6)
  {
    ghost var nodes0, n0, log0 := scene.nodes, scene.next, scene.log;
    labels := map[];
    for i := 0 to 6
      invariant scene.Valid()
      invariant FilteredSoFar(inputs, s, lesionMap, nodes0, n0, log0, scene.nodes, scene.next, scene.log, labels, i)
    {
      labels := FilterBlock(scene, inputs, s, i, lesionMap, labels, nodes0, n0, log0);
    }
  }

  /** Every selected volume of the modalities ms that is a node of the scene carries the
      lesions. */
  predicate Lesioned(inputs: Inputs, content: map<NodeId, Content>, ms: set<Modality>)
  {
    forall m :: m in ms && Present(inputs, m) && Volume(inputs, m).value in content ==> CarriesLesions(content[Volume(inputs, m).value])
  }

  /** The state after the first n simulation blocks: their calls logged; for a
      longitudinal run no node written; otherwise the volumes among them deformed. */
  predicate SimulatedSoFar(inputs: Inputs, s: Settings, labels: map<Modality, NodeId>, content0: map<NodeId, Content>, log0: seq<Call>,
                           content: map<NodeId, Content>, log: seq<Call>, n: nat)
    requires n <= 6 && labels.Keys == PresentBelow(inputs, 6)
  {
    PresentBelow(inputs, n) <= labels.Keys &&
    log == log0 + SimulationCalls(inputs, s, labels, n) &&
    (s.isLongitudinal ==> content == content0) &&
    (!s.isLongitudinal && Distinct(inputs) ==> Lesioned(inputs, content, PresentBelow(inputs, n)))
  }

  /** The scene operation of one simulation block: a deformation rewrites the volume and
      nothing else, a follow-up series writes no node. */
  method SimulateOne(scene: Scene, c: Call, v: NodeId)
    requires scene.Valid() && c.ins != [] && c.ins[0] == v
    requires forall j :: 0 <= j < |c.ins| ==> c.ins[j] in scene.nodes
    requires (c.tool.DeformImage? && c.outs == [v]) || (c.tool.LongitudinalExams? && c.outs == [])
    modifies scene
    ensures scene.Valid() && scene.nodes == old(scene.nodes) && scene.next == old(scene.next)
    ensures scene.log == old(scene.log) + [c]
    ensures c.tool.LongitudinalExams? ==> scene.content == old(scene.content)
    ensures c.tool.DeformImage? ==> CarriesLesions(scene.content[v])
    ensures c.tool.DeformImage? ==> forall id :: id in scene.nodes && id != v ==> scene.content[id] == old(scene.content)[id]
  {
    scene.Execute(c.tool, c.ins, c.outs);
    if c.tool.LongitudinalExams? {
      assert scene.content.Keys == old(scene.content).Keys;
    } else {
      assert LastPort(c.outs, 0);
    }
  }

  /** The simulation block of the i-th modality of the lesion order (lines 598-686). */
  method SimulationBlock(scene: Scene, inputs: Inputs, s: Settings, i: nat, labels: map<Modality, NodeId>,
                         ghost content0: map<NodeId, Content>, ghost log0: seq<Call>)
    requires i < 6 && scene.Valid() && InScene(inputs, scene.nodes)
    requires labels.Keys == PresentBelow(inputs, 6) && labels.Values <= scene.nodes
    requires SimulatedSoFar(inputs, s, labels, content0, log0, scene.content, scene.log, i)
    modifies scene
    ensures scene.Valid() && scene.nodes == old(scene.nodes) && scene.next == old(scene.next)
    ensures SimulatedSoFar(inputs, s, labels, content0, log0, scene.content, scene.log, i + 1)
  {
    var m := LesionAt(i);
    if Present(inputs, m) {
      PresentBelowAll(inputs);
      var v := Volume(inputs, m).value;
      SimulateOne(scene, SimulationCall(inputs, s, labels, m), v);
      if !s.isLongitudinal && Distinct(inputs) {
        forall m' | m' in PresentBelow(inputs, i + 1) && Present(inputs, m') && Volume(inputs, m').value in scene.content
          ensures CarriesLesions(scene.content[Volume(inputs, m').value])
        {
          if m' != m {
            assert m' in PresentBelow(inputs, i);
          }
        }
      }
    }
  }

  /** Lines 584-686: T1, FLAIR, T2, PD, FA and ADC, each when selected, are deformed in
      place by their own label map or, for a longitudinal run, have their follow-up series
      written to the output folder. */
  method SimulationPhase(scene: Scene, inputs: Inputs, s: Settings, labels: map<Modality, NodeId>)
    requires scene.Valid() && InScene(inputs, scene.nodes)
    requires labels.Keys == PresentBelow(inputs, 6) && labels.Values <= scene.nodes
    modifies scene
    ensures scene.Valid() && scene.nodes == old(scene.nodes) && scene.next == old(scene.next)
    ensures SimulatedSoFar(inputs, s, labels, old(scene.content), old(scene.log), scene.content, scene.log, 6)
  {
    ghost var content0, log0 := scene.content, scene.log;
    for i := 0 to 6
      invariant scene.Valid() && scene.nodes == old(scene.nodes) && scene.next == old(scene.next)
      invariant SimulatedSoFar(inputs, s, labels, content0, log0, scene.content, scene.log, i)
    {
      SimulationBlock(scene, inputs, s, i, labels, content0, log0);
    }
  }

  /** The scene operation of one return block: the inverse resample rewrites the volume
      from its own data. */
  method ReturnOne(scene: Scene, v: NodeId, c: NodeId, t: NodeId)
    requires scene.Valid() && v in scene.nodes && c in scene.nodes && t in scene.nodes
    modifies scene
    ensures scene.Valid() && scene.nodes == old(scene.nodes) && scene.next == old(scene.next)
    ensures scene.log == old(scene.log) + [Call(Resample(ResampleParamsFor(false, true)), [v, c, t], [v])]
    ensures CarriesLesions(old(scene.content)[v]) ==> CarriesLesions(scene.content[v])
    ensures forall id :: id in scene.nodes && id != v ==> scene.content[id] == old(scene.content)[id]
  {
    scene.Execute(Resample(ResampleParamsFor(false, true)), [v, c, t], [v]);
    assert LastPort([v], 0);
  }

  /** The return block of the i-th modality of the conform order (lines 691-731). */
  method ReturnBlock(scene: Scene, inputs: Inputs, i: nat, transform: map<Modality, NodeId>, clone: map<Modality, NodeId>, ghost log0: seq<Call>)
    requires i < 5 && scene.Valid() && InScene(inputs, scene.nodes)
    requires transform.Keys == ConformedBelow(inputs, 5) && clone.Keys == ConformedBelow(inputs, 5)
    requires transform.Values <= scene.nodes && clone.Values <= scene.nodes
    requires ConformedBelow(inputs, i) <= transform.Keys && ConformedBelow(inputs, i) <= clone.Keys
    requires scene.log == log0 + ReturnCalls(inputs, transform, clone, i)
    modifies scene
    ensures scene.Valid() && scene.nodes == old(scene.nodes) && scene.next == old(scene.next)
    ensures ConformedBelow(inputs, i + 1) <= transform.Keys && ConformedBelow(inputs, i + 1) <= clone.Keys
    ensures scene.log == log0 + ReturnCalls(inputs, transform, clone, i + 1)
    ensures Distinct(inputs) && Lesioned(inputs, old(scene.content), PresentBelow(inputs, 6)) ==> Lesioned(inputs, scene.content, PresentBelow(inputs, 6))
  {
    var m := ConformAt(i);
    ConformedBelowAll(inputs);
    if Conformed(inputs, m) {
      assert Present(inputs, m);
      ReturnOne(scene, Volume(inputs, m).value, clone[m], transform[m]);
    }
  }

  /** Lines 691-731: T2, FLAIR, PD, FA and ADC, each when conformed, are resampled back
      onto their clone's grid with the inverse of their registration. */
  method ReturnPhase(scene: Scene, inputs: Inputs, transform: map<Modality, NodeId>, clone: map<Modality, NodeId>)
    requires scene.Valid() && InScene(inputs, scene.nodes)
    requires transform.Keys == ConformedBelow(inputs, 5) && clone.Keys == ConformedBelow(inputs, 5)
    requires transform.Values <= scene.nodes && clone.Values <= scene.nodes
    modifies scene
    ensures scene.Valid() && scene.nodes == old(scene.nodes) && scene.next == old(scene.next)
    ensures scene.log == old(scene.log) + ReturnCalls(inputs, transform, clone, 5)
    ensures Distinct(inputs) && Lesioned(inputs, old(scene.content), PresentBelow(inputs, 6)) ==> Lesioned(inputs, scene.content, PresentBelow(inputs, 6))
  {
    ghost var log0 := scene.log;
    for i := 0 to 5
      invariant scene.Valid() && scene.nodes == old(scene.nodes) && scene.next == old(scene.next)
      invariant ConformedBelow(inputs, i) <= transform.Keys && ConformedBelow(inputs, i) <= clone.Keys
      invariant scene.log == log0 + ReturnCalls(inputs, transform, clone, i)
      invariant Distinct(inputs) && Lesioned(inputs, old(scene.content), PresentBelow(inputs, 6)) ==> Lesioned(inputs, scene.content, PresentBelow(inputs, 6))
    {
      ReturnBlock(scene, inputs, i, transform, clone, log0);
    }
  }

  /** Lines 733-737: the template nodes and the lesion map are removed. */
  method Teardown(scene: Scene, inputs: Inputs, a: NodeId, b: NodeId, c: NodeId, d: NodeId)
    requires scene.Valid()
    modifies scene
    ensures scene.Valid() && scene.next == old(scene.next) && scene.log == old(scene.log)
    ensures scene.nodes == old(scene.nodes) - {a, b, c, d}
    ensures Lesioned(inputs, old(scene.content), PresentBelow(inputs, 6)) ==> Lesioned(inputs, scene.content, PresentBelow(inputs, 6))
  {
    scene.RemoveNode(a);
    scene.RemoveNode(b);
    scene.RemoveNode(c);
    scene.RemoveNode(d);
  }

  /** The transforms and clones of the conformed modalities among the first n of the
      cleanup order. */
  function CleanedBelow(inputs: Inputs, transform: map<Modality, NodeId>, clone: map<Modality, NodeId>, n: nat): set<NodeId>
    requires n <= 5
    requires transform.Keys == ConformedBelow(inputs, 5) && clone.Keys == ConformedBelow(inputs, 5)
  {
    if n == 0 then {}
    else
      ConformedBelowAll(inputs);
      CleanedBelow(inputs, transform, clone, n - 1) +
      (if Conformed(inputs, CleanupAt(n - 1)) then {transform[CleanupAt(n - 1)], clone[CleanupAt(n - 1)]} else {})
  }

  lemma {:induction false} CleanedBelowMembers(inputs: Inputs, transform: map<Modality, NodeId>, clone: map<Modality, NodeId>, n: nat, x: NodeId)
    requires n <= 5
    requires transform.Keys == ConformedBelow(inputs, 5) && clone.Keys == ConformedBelow(inputs, 5)
    ensures x in CleanedBelow(inputs, transform, clone, n) <==>
              exists m :: m in transform && CleanupRank(m) < n && (x == transform[m] || x == clone[m])
  {
    ConformedBelowAll(inputs);
    if n > 0 {
      CleanedBelowMembers(inputs, transform, clone, n - 1, x);
      if x in CleanedBelow(inputs, transform, clone, n) && x !in CleanedBelow(inputs, transform, clone, n - 1) {
        assert CleanupRank(CleanupAt(n - 1)) < n;
      }
    }
  }

  /** The cleanup order removes the transform and the clone of every conformed modality. */
  lemma CleanedAll(inputs: Inputs, transform: map<Modality, NodeId>, clone: map<Modality, NodeId>)
    requires transform.Keys == ConformedBelow(inputs, 5) && clone.Keys == ConformedBelow(inputs, 5)
    ensures CleanedBelow(inputs, transform, clone, 5) == transform.Values + clone.Values
  {
    ConformedBelowAll(inputs);
    forall x | x in transform.Values + clone.Values
      ensures x in CleanedBelow(inputs, transform, clone, 5)
    {
      var m :| (m in transform && transform[m] == x) || (m in clone && clone[m] == x);
      assert CleanupRank(m) < 5 by {
        if m == T1 { assert false; }
      }
      CleanedBelowMembers(inputs, transform, clone, 5, x);
    }
    forall x | x in CleanedBelow(inputs, transform, clone, 5)
      ensures x in transform.Values + clone.Values
    {
      CleanedBelowMembers(inputs, transform, clone, 5, x);
    }
  }

  /** The cleanup block of the i-th modality of the cleanup order (lines 741-765). */
  method CleanupBlock(scene: Scene, inputs: Inputs, i: nat, transform: map<Modality, NodeId>, clone: map<Modality, NodeId>, ghost nodes0: set<NodeId>)
    requires i < 5 && scene.Valid()
    requires transform.Keys == ConformedBelow(inputs, 5) && clone.Keys == ConformedBelow(inputs, 5)
    requires scene.nodes == nodes0 - CleanedBelow(inputs, transform, clone, i)
    modifies scene
    ensures scene.Valid() && scene.next == old(scene.next) && scene.log == old(scene.log)
    ensures scene.nodes == nodes0 - CleanedBelow(inputs, transform, clone, i + 1)
    ensures Lesioned(inputs, old(scene.content), PresentBelow(inputs, 6)) ==> Lesioned(inputs, scene.content, PresentBelow(inputs, 6))
  {
    var m := CleanupAt(i);
    ConformedBelowAll(inputs);
    if Conformed(inputs, m) {
      scene.RemoveNode(transform[m]);
      scene.RemoveNode(clone[m]);
    }
  }

  /** Lines 741-765: FLAIR, T2, PD, FA and ADC, each when conformed, have their transform
      and clone removed. */
  method CleanupPhase(scene: Scene, inputs: Inputs, transform: map<Modality, NodeId>, clone: map<Modality, NodeId>)
    requires scene.Valid()
    requires transform.Keys == ConformedBelow(inputs, 5) && clone.Keys == ConformedBelow(inputs, 5)
    modifies scene
    ensures scene.Valid() && scene.next == old(scene.next) && scene.log == old(scene.log)
    ensures scene.nodes == old(scene.nodes) - (transform.Values + clone.Values)
    ensures Lesioned(inputs, old(scene.content), PresentBelow(inputs, 6)) ==> Lesioned(inputs, scene.content, PresentBelow(inputs, 6))
  {
    ghost var nodes0 := scene.nodes;
    for i := 0 to 5
      invariant scene.Valid() && scene.next == old(scene.next) && scene.log == old(scene.log)
      invariant scene.nodes == nodes0 - CleanedBelow(inputs, transform, clone, i)
      invariant Lesioned(inputs, old(scene.content), PresentBelow(inputs, 6)) ==> Lesioned(inputs, scene.content, PresentBelow(inputs, 6))
    {
      CleanupBlock(scene, inputs, i, transform, clone, nodes0);
    }
    CleanedAll(inputs, transform, clone);
  }

  lemma InSceneGrows(inputs: Inputs, a: set<NodeId>, b: set<NodeId>)
    requires InScene(inputs, a) && a <= b
    ensures InScene(inputs, b)
  {
  }

  /** Nodes allocated in successive ranges and later removed leave the old nodes and the
      kept ones. */
  lemma RunNodes(old0: set<NodeId>, temps: set<NodeId>, template: set<NodeId>, kept: set<NodeId>, n0: NodeId, n1: NodeId, n2: NodeId, n3: NodeId)
    requires forall x :: x in old0 ==> x < n0
    requires n0 <= n1 <= n2
    requires InRange(temps, n0, n1) && InRange(template, n1, n2) && InRange(kept, n2, n3)
    ensures (old0 + temps + template + kept) - template - temps == old0 + kept
  {
    forall x | x in old0 + kept
      ensures x !in template && x !in temps
    {
      if x in old0 { assert x < n0; } else { assert n2 <= x; }
    }
  }

  lemma InRangeFour(a: NodeId, b: NodeId, c: NodeId, d: NodeId)
    requires b == a + 1 && c == a + 2 && d == a + 3
    ensures InRange({a, b, c, d}, a, a + 4)
  {
  }

  lemma RunLog(log0: seq<Call>, a: seq<Call>, b: seq<Call>, c: seq<Call>, d: seq<Call>, e: seq<Call>)
    ensures log0 + a + b + c + d + e == log0 + (a + b + c + d + e)
  {
  }

  /** Lines 484-541: the template registration and the lesion map in reference space. */
  method PrepareTemplate(scene: Scene, s: Settings, modulePath: string, ref: NodeId)
      returns (mni: NodeId, mniRef: NodeId, regMNI: NodeId, lesionMap: NodeId)
    requires scene.Valid() && ref in scene.nodes
    modifies scene
    ensures scene.Valid() && scene.next == old(scene.next) + 4
    ensures mni == old(scene.next) && mniRef == mni + 1 && regMNI == mni + 2 && lesionMap == mni + 3
    ensures scene.nodes == old(scene.nodes) + {mni, mniRef, regMNI, lesionMap}
    ensures scene.log == old(scene.log) + TemplateCalls(s, modulePath, ref, mni, mniRef, regMNI, lesionMap)
  {
    mni, mniRef, regMNI := RegisterTemplate(scene, s, modulePath, ref);
    lesionMap := MakeLesionMap(scene, s, modulePath, ref, mni, regMNI);
  }

  /** The phases of a run after the conform blocks, up to the removal of the template
      nodes. */
  method SimulateInReferenceSpace(scene: Scene, inputs: Inputs, s: Settings, modulePath: string,
                                  transform: map<Modality, NodeId>, clone: map<Modality, NodeId>)
      returns (mni: NodeId, mniRef: NodeId, regMNI: NodeId, lesionMap: NodeId, labels: map<Modality, NodeId>)
    requires scene.Valid() && Reference(inputs).Some? && InScene(inputs, scene.nodes)
    requires transform.Keys == ConformedBelow(inputs, 5) && clone.Keys == ConformedBelow(inputs, 5)
    requires transform.Values <= scene.nodes && clone.Values <= scene.nodes
    modifies scene
    ensures scene.Valid() && old(scene.next) <= scene.next
    ensures labels.Keys == PresentBelow(inputs, 6) && InRange(labels.Values, old(scene.next) + 4, scene.next)
    ensures mni == old(scene.next) && mniRef == mni + 1 && regMNI == mni + 2 && lesionMap == mni + 3
    ensures scene.nodes == old(scene.nodes) + {mni, mniRef, regMNI, lesionMap} + labels.Values
    ensures scene.log == old(scene.log) + TemplateCalls(s, modulePath, Reference(inputs).value, mni, mniRef, regMNI, lesionMap) +
                         FilterCalls(inputs, s, lesionMap, labels, 6) + SimulationCalls(inputs, s, labels, 6) +
                         (if s.returnSpace then ReturnCalls(inputs, transform, clone, 5) else [])
    ensures !s.isLongitudinal && Distinct(inputs) ==> Lesioned(inputs, scene.content, PresentBelow(inputs, 6))
  {
    var ref := Reference(inputs).value;
    ReferenceSelected(inputs, scene.nodes);
    ghost var nodes0, log0 := scene.nodes, scene.log;
    mni, mniRef, regMNI, lesionMap := PrepareTemplate(scene, s, modulePath, ref);
    InSceneGrows(inputs, nodes0, scene.nodes);
    labels := FilterPhase(scene, inputs, s, lesionMap);
    InSceneGrows(inputs, nodes0, scene.nodes);
    ghost var log2 := scene.log;
    SimulationPhase(scene, inputs, s, labels);
    ghost var log3 := scene.log;
    if s.returnSpace {
      ReturnPhase(scene, inputs, transform, clone);
    }
  }

  /** `MSLesionSimulatorLogic.run`.  Without a structural volume nothing happens and the
      run fails.  Otherwise the scene's log gains exactly the run's module calls, the
      scene gains exactly the per-modality label maps, and, when the volumes are distinct
      and the run is not longitudinal, every selected volume ends with the lesions,
      whether or not it was returned to its own space. */
  method Run(scene: Scene, inputs: Inputs, s: Settings, modulePath: string) returns (ok: bool, ids: Ids)
    requires scene.Valid() && InScene(inputs, scene.nodes)
    modifies scene
    ensures scene.Valid()
    ensures ok <==> Reference(inputs).Some?
    ensures !ok ==> scene.nodes == old(scene.nodes) && scene.content == old(scene.content) && scene.log == old(scene.log)
    ensures ok ==> Allocated(inputs, ids) && scene.log == old(scene.log) + RunCalls(inputs, s, modulePath, ids)
    ensures ok ==> scene.nodes == old(scene.nodes) + ids.labels.Values
    ensures ok ==> forall m :: m in ids.labels ==> ids.labels[m] !in old(scene.nodes)
    ensures ok && Distinct(inputs) && !s.isLongitudinal ==>
              forall m :: Present(inputs, m) ==> CarriesLesions(scene.content[Volume(inputs, m).value])
  {
    if Reference(inputs).None? {
      return false, Ids(map[], map[], 0, 0, 0, 0, map[]);
    }
    ids := RunSelected(scene, inputs, s, modulePath);
    ok := true;
  }

  /** The run once a structural volume is selected (lines 428-771). */
  method RunSelected(scene: Scene, inputs: Inputs, s: Settings, modulePath: string) returns (ids: Ids)
    requires scene.Valid() && InScene(inputs, scene.nodes) && Reference(inputs).Some?
    modifies scene
    ensures scene.Valid()
    ensures Allocated(inputs, ids) && scene.log == old(scene.log) + RunCalls(inputs, s, modulePath, ids)
    ensures scene.nodes == old(scene.nodes) + ids.labels.Values
    ensures forall m :: m in ids.labels ==> ids.labels[m] !in old(scene.nodes)
    ensures Distinct(inputs) && !s.isLongitudinal ==>
              forall m :: Present(inputs, m) ==> CarriesLesions(scene.content[Volume(inputs, m).value])
  {
    ghost var nodes0, n0 := scene.nodes, scene.next;
    ghost var n1;
    ids, n1 := ConformAndSimulate(scene, inputs, s, modulePath);
    Finish(scene, inputs, ids);
    InRangeFour(ids.mni, ids.mniRef, ids.regMNI, ids.lesionMap);
    RunNodes(nodes0, ids.transform.Values + ids.clone.Values, {ids.mni, ids.mniRef, ids.regMNI, ids.lesionMap}, ids.labels.Values, n0, n1, n1 + 4, scene.next);
    PresentBelowAll(inputs);
  }

  /** Lines 733-765: the template nodes and then the conform nodes leave the scene. */
  method Finish(scene: Scene, inputs: Inputs, ids: Ids)
    requires scene.Valid()
    requires ids.transform.Keys == ConformedBelow(inputs, 5) && ids.clone.Keys == ConformedBelow(inputs, 5)
    modifies scene
    ensures scene.Valid() && scene.next == old(scene.next) && scene.log == old(scene.log)
    ensures scene.nodes == old(scene.nodes) - {ids.mni, ids.mniRef, ids.regMNI, ids.lesionMap} - (ids.transform.Values + ids.clone.Values)
    ensures Lesioned(inputs, old(scene.content), PresentBelow(inputs, 6)) ==> Lesioned(inputs, scene.content, PresentBelow(inputs, 6))
  {
    Teardown(scene, inputs, ids.mniRef, ids.regMNI, ids.mni, ids.lesionMap);
    assert {ids.mniRef, ids.regMNI, ids.mni, ids.lesionMap} == {ids.mni, ids.mniRef, ids.regMNI, ids.lesionMap};
    CleanupPhase(scene, inputs, ids.transform, ids.clone);
  }

  /** Lines 428-731: the conform blocks and every phase in the reference space; the
      nodes are allocated in three successive ranges. */
  method ConformAndSimulate(scene: Scene, inputs: Inputs, s: Settings, modulePath: string) returns (ids: Ids, ghost n1: NodeId)
    requires scene.Valid() && InScene(inputs, scene.nodes) && Reference(inputs).Some?
    modifies scene
    ensures scene.Valid() && old(scene.next) <= n1 && n1 + 4 <= scene.next
    ensures Allocated(inputs, ids) && scene.log == old(scene.log) + RunCalls(inputs, s, modulePath, ids)
    ensures scene.nodes == old(scene.nodes) + (ids.transform.Values + ids.clone.Values) + {ids.mni, ids.mniRef, ids.regMNI, ids.lesionMap} + ids.labels.Values
    ensures InRange(ids.transform.Values + ids.clone.Values, old(scene.next), n1)
    ensures ids.mni == n1 && ids.mniRef == n1 + 1 && ids.regMNI == n1 + 2 && ids.lesionMap == n1 + 3
    ensures InRange(ids.labels.Values, n1 + 4, scene.next)
    ensures Distinct(inputs) && !s.isLongitudinal ==> Lesioned(inputs, scene.content, PresentBelow(inputs, 6))
  {
    ghost var log0 := scene.log;
    var transform, clone := ConformPhase(scene, inputs);
    InSceneGrows(inputs, old(scene.nodes), scene.nodes);
    n1 := scene.next;
    var mni, mniRef, regMNI, lesionMap, labels := SimulateInReferenceSpace(scene, inputs, s, modulePath, transform, clone);
    ids := Ids(transform, clone, mni, mniRef, regMNI, lesionMap, labels);
    RunLog(log0, ConformCalls(inputs, transform, 5), TemplateCalls(s, modulePath, Reference(inputs).value, mni, mniRef, regMNI, lesionMap),
           FilterCalls(inputs, s, lesionMap, labels, 6), SimulationCalls(inputs, s, labels, 6),
           if s.returnSpace then ReturnCalls(inputs, transform, clone, 5) else []);
  }
}
