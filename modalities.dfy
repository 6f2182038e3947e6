/** The six image modalities the two Python drivers take, and the panel's volume selectors. */
module Modalities {
  import opened Wrappers
  import opened MrmlScene
  import LongitudinalExams

  datatype Modality = T1 | Flair | T2 | PD | FA | ADC

  /** The six volume selectors; an empty selector is None. */
  datatype Inputs = Inputs(t1: Option<NodeId>, flair: Option<NodeId>, t2: Option<NodeId>,
                           pd: Option<NodeId>, fa: Option<NodeId>, adc: Option<NodeId>)

  function Volume(inputs: Inputs, m: Modality): Option<NodeId>
  {
    match m
    case T1 => inputs.t1
    case Flair => inputs.flair
    case T2 => inputs.t2
    case PD => inputs.pd
    case FA => inputs.fa
    case ADC => inputs.adc
  }

  predicate Present(inputs: Inputs, m: Modality)
  {
    Volume(inputs, m).Some?
  }

  /** Every selected volume is a node of the scene. */
  predicate InScene(inputs: Inputs, nodes: set<NodeId>)
  {
    forall m :: Present(inputs, m) ==> Volume(inputs, m).value in nodes
  }

  /** No node is selected for two modalities. */
  predicate Distinct(inputs: Inputs)
  {
    forall m, m' :: Present(inputs, m) && Present(inputs, m') && Volume(inputs, m) == Volume(inputs, m') ==> m == m'
  }

  /** The command-line modules' view of a modality. */
  function ExamModality(m: Modality): LongitudinalExams.Modality
  {
    match m
    case T1 => LongitudinalExams.T1
    case Flair => LongitudinalExams.Flair
    case T2 => LongitudinalExams.T2
    case PD => LongitudinalExams.PD
    case FA => LongitudinalExams.FA
    case ADC => LongitudinalExams.ADC
  }

  /** The `imageModality` string the drivers pass. */
  function Name(m: Modality): string
  {
    match m
    case T1 => "T1"
    case Flair => "T2-FLAIR"
    case T2 => "T2"
    case PD => "PD"
    case FA => "DTI-FA"
    case ADC => "DTI-ADC"
  }

  /** The longitudinal module reads each name back as the same modality, so different
      modalities are passed different names. */
  lemma NameRecognised(m: Modality)
    ensures LongitudinalExams.ModalityOf(Name(m)) == ExamModality(m)
  {
  }

  lemma NamesDistinct(m: Modality, m': Modality)
    requires Name(m) == Name(m')
    ensures m == m'
  {
    NameRecognised(m);
    NameRecognised(m');
  }

  // The orders in which the drivers' per-modality blocks run.

  /** T2, FLAIR, PD, FA, ADC: the conform and return-space blocks. T1 is never conformed. */
  function ConformRank(m: Modality): nat
  {
    match m
    case T2 => 0
    case Flair => 1
    case PD => 2
    case FA => 3
    case ADC => 4
    case T1 => 5
  }

  function ConformAt(k: nat): (m: Modality)
    requires k < 5
    ensures ConformRank(m) == k
  {
    if k == 0 then T2 else if k == 1 then Flair else if k == 2 then PD else if k == 3 then FA else ADC
  }

  lemma ConformAtRank(m: Modality)
    requires m != T1
    ensures ConformRank(m) < 5 && ConformAt(ConformRank(m)) == m
  {
  }

  /** T1, FLAIR, T2, PD, FA, ADC: the filter and simulation blocks. */
  function LesionRank(m: Modality): nat
  {
    match m
    case T1 => 0
    case Flair => 1
    case T2 => 2
    case PD => 3
    case FA => 4
    case ADC => 5
  }

  function LesionAt(k: nat): (m: Modality)
    requires k < 6
    ensures LesionRank(m) == k
  {
    if k == 0 then T1 else if k == 1 then Flair else if k == 2 then T2 else if k == 3 then PD else if k == 4 then FA else ADC
  }

  lemma LesionAtRank(m: Modality)
    ensures LesionRank(m) < 6 && LesionAt(LesionRank(m)) == m
  {
  }

  /** FLAIR, T2, PD, FA, ADC: the blocks that remove the conform temporaries. */
  function CleanupRank(m: Modality): nat
  {
    match m
    case Flair => 0
    case T2 => 1
    case PD => 2
    case FA => 3
    case ADC => 4
    case T1 => 5
  }

  function CleanupAt(k: nat): (m: Modality)
    requires k < 5
    ensures CleanupRank(m) == k
  {
    if k == 0 then Flair else if k == 1 then T2 else if k == 2 then PD else if k == 3 then FA else ADC
  }
}
