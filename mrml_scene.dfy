/** The host application's scene as the two Python drivers use it: a set of nodes, what
    each node holds, and the command-line modules run on them.  What a node holds is a
    provenance term: the original data of a node that existed before, or the tool output
    computed from the contents of its input nodes. */
module MrmlScene {
  import opened Wrappers

  type NodeId = nat

  /** `applyRegistrationTransform`'s BRAINSResample parameters. */
  datatype Interpolation = NearestNeighbor | Linear
  datatype PixelType = Binary | Float
  datatype ResampleParams = ResampleParams(interpolationMode: Interpolation, pixelType: PixelType, inverseTransform: bool)

  /** Label maps are resampled nearest-neighbour into binary pixels, other volumes linearly
      into floats; the transform is inverted exactly when asked. */
  function ResampleParamsFor(isLabelMap: bool, doInverse: bool): (p: ResampleParams)
    ensures p.inverseTransform == doInverse
    ensures p.interpolationMode == NearestNeighbor <==> isLabelMap
    ensures p.pixelType == Binary <==> isLabelMap
  {
    if isLabelMap then ResampleParams(NearestNeighbor, Binary, doInverse)
    else ResampleParams(Linear, Float, doInverse)
  }

  /** The command-line modules the drivers run, with the parameters they pass. */
  datatype Tool =
    | LinearRegistration                       // BRAINSFit rigid+affine, ins [fixed, moving], outs [transform, volume]
    | BSplineRegistration(samplingPercentage: real, splineGridSize: string, initializeTransformMode: string)
                                               // BRAINSFit with BSpline, ins [fixed, moving], outs [transform, volume]
    | Resample(params: ResampleParams)         // BRAINSResample, ins [input, reference, transform], outs [output]
    | GenerateMask(lesionLoad: real, databasePath: string)     // ins [probability], outs [mask]
    | FilterMask(cutFactor: real)              // ins [volume, mask], outs [mask]
    | DeformImage(imageModality: string, sigma: real, homogeneity: Option<real>, variability: real)
                                               // ins [volume, label], outs [volume]
    | LongitudinalExams(imageModality: string, numberFollowUp: real, balanceHI: real, outputFolder: string,
                        sigma: real, variability: real)        // ins [volume, label], writes files only
    | MultiplyVolumes                          // ins [a, b], outs [product]
    | AnisotropicDiffusion(conductance: real, iterations: nat, q: real)  // ins [volume], outs [volume]
    | BiasFieldCorrection                      // ins [volume], outs [volume]
    | BrainTissues(imageModality: string, oneTissue: bool, typeTissue: string)  // ins [volume], outs [label]
    | LabelSmoothing(labelToSmooth: nat, gaussianSigma: real)  // ins [label], outs [label]

  /** What a node holds.  `Produced(tool, port, from)` is output `port` of a run of `tool`
      on nodes holding `from`. */
  datatype Content =
    | Original(id: NodeId)
    | Blank
    | Loaded(path: string)
    | Cloned(source: Content)
    | Produced(tool: Tool, port: nat, from: seq<Content>)

  datatype Call = Call(tool: Tool, ins: seq<NodeId>, outs: seq<NodeId>)

  /** The contents of `ins`, in order. */
  function ContentsOf(content: map<NodeId, Content>, ins: seq<NodeId>): seq<Content>
    requires forall j :: 0 <= j < |ins| ==> ins[j] in content
  {
    seq(|ins|, j requires 0 <= j < |ins| => content[ins[j]])
  }

  /** Whether k is the last position of outs holding the node outs[k]. */
  predicate LastPort(outs: seq<NodeId>, k: nat)
    requires k < |outs|
  {
    forall k' :: k < k' < |outs| ==> outs[k'] != outs[k]
  }

  /** Output port k of the run is written into outs[k], one port after the other. */
  function WriteOutputs(content: map<NodeId, Content>, tool: Tool, from: seq<Content>, outs: seq<NodeId>): map<NodeId, Content>
  {
    if outs == [] then content
    else WriteOutputs(content, tool, from, outs[..|outs| - 1])[outs[|outs| - 1] := Produced(tool, |outs| - 1, from)]
  }

  /** Writing the outputs adds exactly the output nodes. */
  lemma {:induction false} WriteOutputsKeys(content: map<NodeId, Content>, tool: Tool, from: seq<Content>, outs: seq<NodeId>)
    ensures forall id :: id in WriteOutputs(content, tool, from, outs) <==> id in content || id in outs
  {
    if outs != [] {
      var init := outs[..|outs| - 1];
      WriteOutputsKeys(content, tool, from, init);
      assert outs == init + [outs[|outs| - 1]];
    }
  }

  /** A node that is not an output keeps its content. */
  lemma {:induction false} WriteOutputsKeeps(content: map<NodeId, Content>, tool: Tool, from: seq<Content>, outs: seq<NodeId>, id: NodeId)
    requires id in content && forall k :: 0 <= k < |outs| ==> outs[k] != id
    ensures id in WriteOutputs(content, tool, from, outs) && WriteOutputs(content, tool, from, outs)[id] == content[id]
  {
    if outs != [] {
      WriteOutputsKeeps(content, tool, from, outs[..|outs| - 1], id);
    }
  }

  /** An output node holds the output of the last port it is listed at. */
  lemma {:induction false} WriteOutputsPort(content: map<NodeId, Content>, tool: Tool, from: seq<Content>, outs: seq<NodeId>, k: nat)
    requires k < |outs| && LastPort(outs, k)
    ensures outs[k] in WriteOutputs(content, tool, from, outs) && WriteOutputs(content, tool, from, outs)[outs[k]] == Produced(tool, k, from)
  {
    if k < |outs| - 1 {
      WriteOutputsPort(content, tool, from, outs[..|outs| - 1], k);
    }
  }

  class Scene {
    var nodes: set<NodeId>
    var next: NodeId
    var content: map<NodeId, Content>
    var log: seq<Call>

    /** Every node has a content and an id below the next one handed out. */
    ghost predicate Valid()
      reads this
    {
      content.Keys == nodes && forall id :: id in nodes ==> id < next
    }

    /** A scene holding `initial`, each node with its original data. */
    constructor(initial: set<NodeId>, firstFree: NodeId)
      requires forall id :: id in initial ==> id < firstFree
      ensures Valid() && nodes == initial && next == firstFree && log == []
      ensures content == map id | id in initial :: Original(id)
    {
      nodes := initial;
      next := firstFree;
      content := map id | id in initial :: Original(id);
      log := [];
    }

    /** `slicer.mrmlScene.AddNode` of a new, empty node. */
    method AddNode() returns (id: NodeId)
      requires Valid()
      modifies this
      ensures Valid() && id == old(next) && id !in old(nodes) && next == old(next) + 1
      ensures nodes == old(nodes) + {id} && content == old(content)[id := Blank] && log == old(log)
    {
      id := next;
      nodes := nodes + {id};
      content := content[id := Blank];
      next := next + 1;
    }

    /** `slicer.util.loadVolume`: a new node holding the file's data. */
    method LoadVolume(path: string) returns (id: NodeId)
      requires Valid()
      modifies this
      ensures Valid() && id == old(next) && id !in old(nodes) && next == old(next) + 1
      ensures nodes == old(nodes) + {id} && content == old(content)[id := Loaded(path)] && log == old(log)
    {
      id := next;
      nodes := nodes + {id};
      content := content[id := Loaded(path)];
      next := next + 1;
    }

    /** `volumesLogic.CloneVolume`: a new node holding a copy of the source's data. */
    method CloneVolume(source: NodeId) returns (id: NodeId)
      requires Valid() && source in nodes
      modifies this
      ensures Valid() && id == old(next) && id !in old(nodes) && next == old(next) + 1
      ensures nodes == old(nodes) + {id} && content == old(content)[id := Cloned(old(content[source]))] && log == old(log)
    {
      id := next;
      nodes := nodes + {id};
      content := content[id := Cloned(content[source])];
      next := next + 1;
    }

    /** `slicer.mrmlScene.RemoveNode`; a node that is not in the scene is ignored. */
    method RemoveNode(id: NodeId)
      requires Valid()
      modifies this
      ensures Valid() && nodes == old(nodes) - {id} && content == old(content) - {id}
      ensures next == old(next) && log == old(log)
    {
      nodes := nodes - {id};
      content := content - {id};
    }

    /** `slicer.cli.run(module, None, params, wait_for_completion=True)` on nodes of the scene. */
    method Execute(tool: Tool, ins: seq<NodeId>, outs: seq<NodeId>)
      requires Valid()
      requires forall j :: 0 <= j < |ins| ==> ins[j] in nodes
      requires forall k :: 0 <= k < |outs| ==> outs[k] in nodes
      modifies this
      ensures Valid() && nodes == old(nodes) && next == old(next)
      ensures forall id :: id in nodes && id !in outs ==> content[id] == old(content)[id]
      ensures forall k :: 0 <= k < |outs| && LastPort(outs, k) ==> content[outs[k]] == Produced(tool, k, ContentsOf(old(content), ins))
      ensures log == old(log) + [Call(tool, ins, outs)]
    {
      var from := ContentsOf(content, ins);
      var written := WriteOutputs(content, tool, from, outs);
      WriteOutputsKeys(content, tool, from, outs);
      forall id | id in nodes && id !in outs
        ensures id in written && written[id] == content[id]
      {
        WriteOutputsKeeps(content, tool, from, outs, id);
      }
      forall k | 0 <= k < |outs| && LastPort(outs, k)
        ensures outs[k] in written && written[outs[k]] == Produced(tool, k, from)
      {
        WriteOutputsPort(content, tool, from, outs, k);
      }
      content := written;
      log := log + [Call(tool, ins, outs)];
    }
  }

  /** Whether a node's data has passed through the lesion deformation.  A resample carries
      the data of its input volume (the reference volume only gives the grid); a
      registration's output volume carries the moving volume's data. */
  predicate CarriesLesions(c: Content)
  {
    match c
    case Original(_) => false
    case Blank => false
    case Loaded(_) => false
    case Cloned(source) => CarriesLesions(source)
    case Produced(tool, port, from) =>
      if tool.DeformImage? then true
      else if tool.Resample? then |from| > 0 && CarriesLesions(from[0])
      else if tool.LinearRegistration? || tool.BSplineRegistration? then port == 1 && |from| > 1 && CarriesLesions(from[1])
      else exists j :: 0 <= j < |from| && CarriesLesions(from[j])
  }
}
