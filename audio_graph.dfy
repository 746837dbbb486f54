/**
 The audio graph that starting playback builds, with nodes as abstract
 identifiers and connections as edges. The noise type and the modulation type
 decide which nodes exist and how they are connected. Plan builds the edge list in
 the order the connections are made, and Planned states the same wiring rules
 declaratively. PlanMatchesRules proves that the two agree.
 */
module AudioGraph {
  import opened Settings

  /** The frequencies of the resonator bank, in Hz. */
  const ResonantFrequencies: seq<int> := [1200, 2400, 3600, 4800, 6000]

  /** A biquad filter of the resonator bank, with its type, centre frequency, Q and gain. */
  datatype Resonator = Resonator(filterType: string, frequency: int, q: int, gain: int)

  /** The nodes of one audio graph. ResonatorNode(i) is the i-th filter of the resonator bank. */
  datatype Node =
    | Source | Distortion | Filter | Gain | Analyser | Destination
    | Modulator | ModulationGain
    | ResonatorInput | ResonatorOutput | ResonatorNode(index: nat)
    | TremoloGain | TremoloModGain

  /** What an edge feeds: the node's audio input, its gain parameter or its frequency parameter. */
  datatype Port = AudioIn | GainParam | FrequencyParam

  datatype Edge = Edge(from: Node, to: Node, port: Port)

  datatype Graph = Graph(nodes: seq<Node>, edges: seq<Edge>)

  function Wire(from: Node, to: Node): Edge {
    Edge(from, to, AudioIn)
  }

  /** The resonators created for a noise type: five peaking filters with Q 10 and gain 15 at
      the resonant frequencies for metallic noise, and none otherwise. */
  function ResonatorBank(noiseType: string): (bank: seq<Resonator>)
    ensures IsMetallic(noiseType) ==> |bank| == 5
    ensures !IsMetallic(noiseType) ==> bank == []
    ensures forall i :: 0 <= i < |bank| ==> bank[i] == Resonator("peaking", 1200 * (i + 1), 10, 15)
  {
    if IsMetallic(noiseType) then
      seq(|ResonantFrequencies|, i requires 0 <= i < |ResonantFrequencies| =>
        Resonator("peaking", ResonantFrequencies[i], 10, 15))
    else
      []
  }

  /** The resonator nodes of a bank of n resonators. */
  function ResonatorNodes(n: nat): (ns: seq<Node>)
    ensures |ns| == n
    ensures forall x: Node :: x in ns <==> x.ResonatorNode? && x.index < n
  {
    var ns := seq(n, i requires 0 <= i < n => ResonatorNode(i));
    assert forall x: Node :: x.ResonatorNode? && x.index < n ==> ns[x.index] == x;
    ns
  }

  /** An edge of the parallel bank over n resonators: from the resonator input to a resonator,
      or from a resonator to the resonator output. */
  predicate BankEdge(e: Edge, n: nat) {
    && e.port == AudioIn
    && ((e.from == ResonatorInput && e.to.ResonatorNode? && e.to.index < n)
        || (e.from.ResonatorNode? && e.from.index < n && e.to == ResonatorOutput))
  }

  /** The two connections made for each resonator, in the order of the bank. */
  function FanOut(n: nat): (es: seq<Edge>)
    ensures |es| == 2 * n
    ensures forall e :: e in es <==> BankEdge(e, n)
  {
    if n == 0 then []
    else
      var es := FanOut(n - 1) + [Wire(ResonatorInput, ResonatorNode(n - 1)), Wire(ResonatorNode(n - 1), ResonatorOutput)];
      assert forall e :: BankEdge(e, n) && !BankEdge(e, n - 1) ==>
        e == Wire(ResonatorInput, ResonatorNode(n - 1)) || e == Wire(ResonatorNode(n - 1), ResonatorOutput);
      es
  }

  /** The choices startAudio makes about the shape of the graph: how many resonators were
      created, whether the parallel bank is inserted, whether the tremolo stage is inserted,
      and whether the filter's frequency is modulated. */
  datatype Shape = Shape(bankSize: nat, parallel: bool, tremolo: bool, filterModulation: bool)

  /** The bank is inserted only for metallic noise with at least one resonator; the tremolo and
      filter routes follow the modulation type. */
  function ShapeOf(noiseType: string, modType: string, bank: seq<Resonator>): Shape {
    Shape(|bank|, IsMetallic(noiseType) && |bank| > 0, IsTremolo(modType), IsFilterModulation(modType))
  }

  /** The nodes every graph has, in the order startAudio creates them. */
  const FixedNodes: seq<Node> := [Source, Gain, Distortion, Filter, Analyser, Modulator, ModulationGain]

  /** The nodes startAudio creates, in order. */
  function CreatedNodes(s: Shape): seq<Node> {
    FixedNodes
    + ResonatorNodes(s.bankSize)
    + (if s.parallel then [ResonatorInput, ResonatorOutput] else [])
    + (if s.tremolo then [TremoloGain, TremoloModGain] else [])
    + [Destination]
  }

  /** The connections startAudio makes, in order. */
  function Connections(s: Shape): seq<Edge> {
    [Wire(Modulator, ModulationGain), Wire(Source, Distortion)]
    + (if s.parallel then
         [Wire(Distortion, ResonatorInput)] + FanOut(s.bankSize)
         + [Wire(ResonatorInput, ResonatorOutput), Wire(ResonatorOutput, Filter)]
       else [Wire(Distortion, Filter)])
    + (if s.tremolo then
         [Wire(Modulator, TremoloModGain), Edge(TremoloModGain, TremoloGain, GainParam),
          Wire(Filter, TremoloGain), Wire(TremoloGain, Gain)]
       else [Wire(Filter, Gain)])
    + (if s.filterModulation then [Edge(ModulationGain, Filter, FrequencyParam)] else [])
    + [Wire(Gain, Analyser), Wire(Analyser, Destination)]
  }

  /** The graph that startAudio builds from the noise type, the modulation type and the
      resonators that were created. */
  function Wiring(noiseType: string, modType: string, bank: seq<Resonator>): Graph {
    var s := ShapeOf(noiseType, modType, bank);
    Graph(CreatedNodes(s), Connections(s))
  }

  /** The graph built for a noise type and a modulation type, with the resonators that
      createResonators makes for that noise type. */
  function Plan(noiseType: string, modType: string): Graph {
    Wiring(noiseType, modType, ResonatorBank(noiseType))
  }

  /** The wiring rules, stated edge by edge and independently of any order. */
  predicate Planned(s: Shape, e: Edge) {
    || e == Wire(Source, Distortion)
    || e == Wire(Modulator, ModulationGain)
    || (s.parallel &&
         (|| e == Wire(Distortion, ResonatorInput)
          || BankEdge(e, s.bankSize)
          || e == Wire(ResonatorInput, ResonatorOutput)
          || e == Wire(ResonatorOutput, Filter)))
    || (!s.parallel && e == Wire(Distortion, Filter))
    || (s.tremolo &&
         (|| e == Wire(Modulator, TremoloModGain)
          || e == Edge(TremoloModGain, TremoloGain, GainParam)
          || e == Wire(Filter, TremoloGain)
          || e == Wire(TremoloGain, Gain)))
    || (!s.tremolo && e == Wire(Filter, Gain))
    || (s.filterModulation && e == Edge(ModulationGain, Filter, FrequencyParam))
    || e == Wire(Gain, Analyser)
    || e == Wire(Analyser, Destination)
  }

  /** The nodes every graph has. */
  predicate IsFixedNode(n: Node) {
    || n.Source? || n.Gain? || n.Distortion? || n.Filter? || n.Analyser?
    || n.Modulator? || n.ModulationGain? || n.Destination?
  }

  /** The node rules: the fixed nodes always, the resonators that were created, the bank's input
      and output gains when the bank is inserted, and the two tremolo gains for tremolo. */
  predicate PlannedNode(s: Shape, n: Node) {
    || IsFixedNode(n)
    || (n.ResonatorNode? && n.index < s.bankSize)
    || (s.parallel && (n == ResonatorInput || n == ResonatorOutput))
    || (s.tremolo && (n == TremoloGain || n == TremoloModGain))
  }

  /** Every edge joins two nodes of the graph. */
  predicate WellFormed(g: Graph) {
    forall e :: e in g.edges ==> e.from in g.nodes && e.to in g.nodes
  }

  /** No node appears twice. */
  predicate Distinct(ns: seq<Node>) {
    forall i, j :: 0 <= i < j < |ns| ==> ns[i] != ns[j]
  }

  /** The shape Plan builds: five resonators in the parallel bank exactly for metallic noise. */
  lemma PlanShape(noiseType: string, modType: string)
    ensures Plan(noiseType, modType) == Graph(CreatedNodes(PlanShapeOf(noiseType, modType)), Connections(PlanShapeOf(noiseType, modType)))
  {
  }

  function PlanShapeOf(noiseType: string, modType: string): (s: Shape)
    ensures s.parallel <==> IsMetallic(noiseType)
    ensures s.bankSize == if IsMetallic(noiseType) then 5 else 0
    ensures s.tremolo <==> IsTremolo(modType)
    ensures s.filterModulation <==> IsFilterModulation(modType)
  {
    ShapeOf(noiseType, modType, ResonatorBank(noiseType))
  }

  /** The edges startAudio connects are exactly the ones the wiring rules call for. */
  lemma ConnectionsMatchRules(s: Shape, e: Edge)
    ensures e in Connections(s) <==> Planned(s, e)
  {
  }

  /** The nodes startAudio creates are exactly the ones the node rules call for. */
  lemma CreatedNodesMatchRules(s: Shape, n: Node)
    ensures n in CreatedNodes(s) <==> PlannedNode(s, n)
  {
    var io: seq<Node> := if s.parallel then [ResonatorInput, ResonatorOutput] else [];
    var tr: seq<Node> := if s.tremolo then [TremoloGain, TremoloModGain] else [];
    assert CreatedNodes(s) == FixedNodes + ResonatorNodes(s.bankSize) + io + tr + [Destination];
  }

  /** The block of CreatedNodes a node belongs to. */
  function Stage(n: Node): nat {
    match n
    case ResonatorNode(_) => 1
    case ResonatorInput | ResonatorOutput => 2
    case TremoloGain | TremoloModGain => 3
    case Destination => 4
    case _ => 0
  }

  predicate AllAtStage(ns: seq<Node>, k: nat) {
    forall i :: 0 <= i < |ns| ==> Stage(ns[i]) == k
  }

  predicate AllBelowStage(ns: seq<Node>, k: nat) {
    forall i :: 0 <= i < |ns| ==> Stage(ns[i]) < k
  }

  /** Appending a distinct block of a later stage keeps the nodes distinct. */
  lemma AppendStage(a: seq<Node>, b: seq<Node>, k: nat)
    requires Distinct(a) && Distinct(b) && AllBelowStage(a, k) && AllAtStage(b, k)
    ensures Distinct(a + b) && AllBelowStage(a + b, k + 1)
  {
    forall i, j | 0 <= i < j < |a + b| ensures (a + b)[i] != (a + b)[j] {
      if i < |a| && |a| <= j {
        assert Stage((a + b)[i]) < k == Stage((a + b)[j]);
      }
    }
  }

  lemma ResonatorNodesDistinct(n: nat)
    ensures Distinct(ResonatorNodes(n)) && AllAtStage(ResonatorNodes(n), 1)
  {
  }

  lemma FixedNodesDistinct()
    ensures Distinct(FixedNodes) && AllBelowStage(FixedNodes, 1)
  {
  }

  /** startAudio never creates a node twice, so a metallic graph holds exactly five resonators. */
  lemma CreatedNodesDistinct(s: Shape)
    ensures Distinct(CreatedNodes(s))
  {
    var rs := ResonatorNodes(s.bankSize);
    var io: seq<Node> := if s.parallel then [ResonatorInput, ResonatorOutput] else [];
    var tr: seq<Node> := if s.tremolo then [TremoloGain, TremoloModGain] else [];
    FixedNodesDistinct();
    ResonatorNodesDistinct(s.bankSize);
    AppendStage(FixedNodes, rs, 1);
    AppendStage(FixedNodes + rs, io, 2);
    AppendStage(FixedNodes + rs + io, tr, 3);
    AppendStage(FixedNodes + rs + io + tr, [Destination], 4);
  }

  lemma PlannedEdgeEnds(s: Shape, e: Edge)
    requires Planned(s, e)
    ensures PlannedNode(s, e.from) && PlannedNode(s, e.to)
  {
  }

  /** Every edge startAudio connects joins two nodes it created. */
  lemma ConnectionsWellFormed(s: Shape)
    ensures WellFormed(Graph(CreatedNodes(s), Connections(s)))
  {
    forall e | e in Connections(s) ensures e.from in CreatedNodes(s) && e.to in CreatedNodes(s) {
      ConnectionsMatchRules(s, e);
      PlannedEdgeEnds(s, e);
      CreatedNodesMatchRules(s, e.from);
      CreatedNodesMatchRules(s, e.to);
    }
  }

  /** The graph Plan builds is well formed and creates no node twice. */
  lemma PlanWellFormed(noiseType: string, modType: string)
    ensures WellFormed(Plan(noiseType, modType)) && Distinct(Plan(noiseType, modType).nodes)
  {
    PlanShape(noiseType, modType);
    ConnectionsWellFormed(PlanShapeOf(noiseType, modType));
    CreatedNodesDistinct(PlanShapeOf(noiseType, modType));
  }

  /** The resonator nodes are those of the created resonators, the bank's input and output
      gains exist with the bank, and the tremolo gains with the tremolo stage. */
  lemma ShapeNodes(s: Shape)
    ensures var ns := CreatedNodes(s);
      && (forall i: nat :: ResonatorNode(i) in ns <==> i < s.bankSize)
      && (ResonatorInput in ns <==> s.parallel)
      && (ResonatorOutput in ns <==> s.parallel)
      && (TremoloGain in ns <==> s.tremolo)
      && (TremoloModGain in ns <==> s.tremolo)
  {
    forall i: nat ensures ResonatorNode(i) in CreatedNodes(s) <==> i < s.bankSize {
      CreatedNodesMatchRules(s, ResonatorNode(i));
    }
    CreatedNodesMatchRules(s, ResonatorInput);
    CreatedNodesMatchRules(s, ResonatorOutput);
    CreatedNodesMatchRules(s, TremoloGain);
    CreatedNodesMatchRules(s, TremoloModGain);
  }

  /** Resonator nodes exist exactly for metallic noise, five of them, together with the bank's
      input and output gains; the tremolo gains exist exactly for tremolo. */
  lemma PlanNodes(noiseType: string, modType: string)
    ensures var g := Plan(noiseType, modType);
      && (forall i: nat :: ResonatorNode(i) in g.nodes <==> IsMetallic(noiseType) && i < 5)
      && (ResonatorInput in g.nodes <==> IsMetallic(noiseType))
      && (ResonatorOutput in g.nodes <==> IsMetallic(noiseType))
      && (TremoloGain in g.nodes <==> IsTremolo(modType))
      && (TremoloModGain in g.nodes <==> IsTremolo(modType))
  {
    PlanShape(noiseType, modType);
    ShapeNodes(PlanShapeOf(noiseType, modType));
  }

  /** The edges Plan builds are exactly the ones the wiring rules call for, with a bank of five
      resonators exactly for metallic noise. */
  lemma PlanMatchesRules(noiseType: string, modType: string, e: Edge)
    ensures e in Plan(noiseType, modType).edges <==> Planned(PlanShapeOf(noiseType, modType), e)
  {
    PlanShape(noiseType, modType);
    ConnectionsMatchRules(PlanShapeOf(noiseType, modType), e);
  }

  /** With the bank inserted, the distortion feeds the bank's input, the input feeds every
      resonator and the output directly, every resonator feeds the output, and the output
      feeds the filter; without it, the distortion feeds the filter and no edge touches the
      bank. */
  lemma BankWiring(s: Shape)
    ensures var es := Connections(s);
      && (s.parallel ==>
            && Wire(Distortion, ResonatorInput) in es
            && (forall i :: 0 <= i < s.bankSize ==>
                  Wire(ResonatorInput, ResonatorNode(i)) in es && Wire(ResonatorNode(i), ResonatorOutput) in es)
            && Wire(ResonatorInput, ResonatorOutput) in es
            && Wire(ResonatorOutput, Filter) in es
            && Wire(Distortion, Filter) !in es)
      && (!s.parallel ==>
            && Wire(Distortion, Filter) in es
            && (forall e :: e in es ==> e.from != ResonatorInput && e.to != ResonatorInput)
            && (forall e :: e in es ==> e.from != ResonatorOutput && e.to != ResonatorOutput)
            && (forall e :: e in es ==> !e.from.ResonatorNode? && !e.to.ResonatorNode?))
  {
    var es := Connections(s);
    ConnectionsMatchRules(s, Wire(Distortion, ResonatorInput));
    ConnectionsMatchRules(s, Wire(ResonatorInput, ResonatorOutput));
    ConnectionsMatchRules(s, Wire(ResonatorOutput, Filter));
    ConnectionsMatchRules(s, Wire(Distortion, Filter));
    forall i | 0 <= i < s.bankSize
      ensures s.parallel ==>
        Wire(ResonatorInput, ResonatorNode(i)) in es && Wire(ResonatorNode(i), ResonatorOutput) in es
    {
      ConnectionsMatchRules(s, Wire(ResonatorInput, ResonatorNode(i)));
      ConnectionsMatchRules(s, Wire(ResonatorNode(i), ResonatorOutput));
    }
    forall e | e in es
      ensures !s.parallel ==>
        && e.from != ResonatorInput && e.to != ResonatorInput
        && e.from != ResonatorOutput && e.to != ResonatorOutput
        && !e.from.ResonatorNode? && !e.to.ResonatorNode?
    {
      ConnectionsMatchRules(s, e);
    }
  }

  /** The resonator bank is wired in parallel with a bypass for metallic noise, over five
      resonators; otherwise the distortion feeds the filter directly and no edge touches the
      bank. */
  lemma ResonatorWiring(noiseType: string, modType: string)
    ensures var es := Plan(noiseType, modType).edges;
      && (IsMetallic(noiseType) ==>
            && Wire(Distortion, ResonatorInput) in es
            && (forall i :: 0 <= i < 5 ==>
                  Wire(ResonatorInput, ResonatorNode(i)) in es && Wire(ResonatorNode(i), ResonatorOutput) in es)
            && Wire(ResonatorInput, ResonatorOutput) in es
            && Wire(ResonatorOutput, Filter) in es
            && Wire(Distortion, Filter) !in es)
      && (!IsMetallic(noiseType) ==>
            && Wire(Distortion, Filter) in es
            && (forall e :: e in es ==> e.from != ResonatorInput && e.to != ResonatorInput)
            && (forall e :: e in es ==> e.from != ResonatorOutput && e.to != ResonatorOutput)
            && (forall e :: e in es ==> !e.from.ResonatorNode? && !e.to.ResonatorNode?))
  {
    PlanShape(noiseType, modType);
    BankWiring(PlanShapeOf(noiseType, modType));
  }

  /** A resonator is fed only by the bank's input and feeds only the bank's output. */
  lemma ShapeParallel(s: Shape)
    ensures forall e :: e in Connections(s) ==>
      (e.to.ResonatorNode? ==> e.from == ResonatorInput) && (e.from.ResonatorNode? ==> e.to == ResonatorOutput)
  {
    forall e | e in Connections(s)
      ensures (e.to.ResonatorNode? ==> e.from == ResonatorInput) && (e.from.ResonatorNode? ==> e.to == ResonatorOutput)
    {
      ConnectionsMatchRules(s, e);
    }
  }

  /** Resonators are never in series: a resonator is fed only by the bank's input and feeds
      only the bank's output. */
  lemma ResonatorsInParallel(noiseType: string, modType: string)
    ensures forall e :: e in Plan(noiseType, modType).edges ==>
      (e.to.ResonatorNode? ==> e.from == ResonatorInput) && (e.from.ResonatorNode? ==> e.to == ResonatorOutput)
  {
    PlanShape(noiseType, modType);
    ShapeParallel(PlanShapeOf(noiseType, modType));
  }

  /** The tremolo edges are present exactly with the tremolo stage, and the filter feeds the
      gain node directly exactly without it. */
  lemma ShapeTremolo(s: Shape)
    ensures var es := Connections(s);
      && (Wire(Filter, TremoloGain) in es <==> s.tremolo)
      && (Wire(TremoloGain, Gain) in es <==> s.tremolo)
      && (Edge(TremoloModGain, TremoloGain, GainParam) in es <==> s.tremolo)
      && (Wire(Modulator, TremoloModGain) in es <==> s.tremolo)
      && (Wire(Filter, Gain) in es <==> !s.tremolo)
  {
    ConnectionsMatchRules(s, Wire(Filter, TremoloGain));
    ConnectionsMatchRules(s, Wire(TremoloGain, Gain));
    ConnectionsMatchRules(s, Edge(TremoloModGain, TremoloGain, GainParam));
    ConnectionsMatchRules(s, Wire(Modulator, TremoloModGain));
    ConnectionsMatchRules(s, Wire(Filter, Gain));
  }

  /** The tremolo gain sits between the filter and the gain node, with its gain parameter
      driven through the tremolo depth gain from the modulator, exactly when the modulation
      type is tremolo or both; otherwise the filter feeds the gain node directly. */
  lemma TremoloWiring(noiseType: string, modType: string)
    ensures var es := Plan(noiseType, modType).edges;
      && (Wire(Filter, TremoloGain) in es <==> IsTremolo(modType))
      && (Wire(TremoloGain, Gain) in es <==> IsTremolo(modType))
      && (Edge(TremoloModGain, TremoloGain, GainParam) in es <==> IsTremolo(modType))
      && (Wire(Modulator, TremoloModGain) in es <==> IsTremolo(modType))
      && (Wire(Filter, Gain) in es <==> !IsTremolo(modType))
  {
    PlanShape(noiseType, modType);
    ShapeTremolo(PlanShapeOf(noiseType, modType));
  }

  /** The filter frequency edge is present exactly with filter modulation, and it is the only
      edge into a frequency parameter. */
  lemma ShapeFilterModulation(s: Shape)
    ensures var es := Connections(s);
      && (Edge(ModulationGain, Filter, FrequencyParam) in es <==> s.filterModulation)
      && (forall e :: e in es && e.port == FrequencyParam ==> e == Edge(ModulationGain, Filter, FrequencyParam))
  {
    ConnectionsMatchRules(s, Edge(ModulationGain, Filter, FrequencyParam));
    forall e | e in Connections(s) && e.port == FrequencyParam
      ensures e == Edge(ModulationGain, Filter, FrequencyParam)
    {
      ConnectionsMatchRules(s, e);
    }
  }

  /** The modulation depth gain drives the filter's frequency exactly when the modulation type
      is filter or both, whatever the tremolo rule decides; no other edge feeds a frequency. */
  lemma FilterModulationWiring(noiseType: string, modType: string)
    ensures var es := Plan(noiseType, modType).edges;
      && (Edge(ModulationGain, Filter, FrequencyParam) in es <==> IsFilterModulation(modType))
      && (forall e :: e in es && e.port == FrequencyParam ==> e == Edge(ModulationGain, Filter, FrequencyParam))
  {
    PlanShape(noiseType, modType);
    ShapeFilterModulation(PlanShapeOf(noiseType, modType));
  }

  /** The spine edges are always present, and the analyser and the destination are fed only
      along the spine. */
  lemma ShapeSpine(s: Shape)
    ensures var es := Connections(s);
      && Wire(Source, Distortion) in es
      && Wire(Modulator, ModulationGain) in es
      && Wire(Gain, Analyser) in es
      && Wire(Analyser, Destination) in es
      && (forall e :: e in es && e.to == Analyser ==> e == Wire(Gain, Analyser))
      && (forall e :: e in es && e.to == Destination ==> e == Wire(Analyser, Destination))
      && (forall e :: e in es ==> e.to != Source)
  {
    ConnectionsMatchRules(s, Wire(Source, Distortion));
    ConnectionsMatchRules(s, Wire(Modulator, ModulationGain));
    ConnectionsMatchRules(s, Wire(Gain, Analyser));
    ConnectionsMatchRules(s, Wire(Analyser, Destination));
    forall e | e in Connections(s)
      ensures (e.to == Analyser ==> e == Wire(Gain, Analyser))
        && (e.to == Destination ==> e == Wire(Analyser, Destination)) && e.to != Source
    {
      ConnectionsMatchRules(s, e);
    }
  }

  /** The fixed spine is present for every setting, and the analyser and the destination are
      fed only along it. */
  lemma FixedSpine(noiseType: string, modType: string)
    ensures var es := Plan(noiseType, modType).edges;
      && Wire(Source, Distortion) in es
      && Wire(Modulator, ModulationGain) in es
      && Wire(Gain, Analyser) in es
      && Wire(Analyser, Destination) in es
      && (forall e :: e in es && e.to == Analyser ==> e == Wire(Gain, Analyser))
      && (forall e :: e in es && e.to == Destination ==> e == Wire(Analyser, Destination))
      && (forall e :: e in es ==> e.to != Source)
  {
    PlanShape(noiseType, modType);
    ShapeSpine(PlanShapeOf(noiseType, modType));
  }

  /** Applying the built-in "extreme" preset loads its ten literal values, and the graph built
      from them has both modulation routes and no resonators. */
  lemma ExtremePresetGraph()
    ensures BuiltIn("extreme") == Some(ParamSet(0.3, "brown", 800, "4x", "highpass", 1000, 12.0, 12.0, 0.9, "both"))
    ensures var p := BuiltInPresets["extreme"];
      var g := Plan(p.noiseType, p.modType);
      && Wire(Filter, TremoloGain) in g.edges
      && Edge(ModulationGain, Filter, FrequencyParam) in g.edges
      && (forall i: nat :: ResonatorNode(i) !in g.nodes)
  {
    var p := BuiltInPresets["extreme"];
    PlanNodes(p.noiseType, p.modType);
    TremoloWiring(p.noiseType, p.modType);
    FilterModulationWiring(p.noiseType, p.modType);
  }

  /** Drops the outgoing edges of every node in gone, as disconnect() does for each of them. */
  function Disconnect(edges: seq<Edge>, gone: set<Node>): (r: seq<Edge>)
    ensures forall e :: e in r <==> e in edges && e.from !in gone
    ensures |r| <= |edges|
  {
    if edges == [] then []
    else if edges[0].from in gone then Disconnect(edges[1..], gone)
    else [edges[0]] + Disconnect(edges[1..], gone)
  }

  /** The nodes of a bank of n resonators, as a set. */
  function ResonatorIds(n: nat): set<Node> {
    set i | 0 <= i < n :: ResonatorNode(i)
  }

  /** The nodes that stopping disconnects: the gain node and the n resonators. */
  function StoppedNodes(n: nat): set<Node> {
    {Gain} + ResonatorIds(n)
  }

  lemma PlannedSources(s: Shape, e: Edge)
    requires Planned(s, e)
    ensures e.to == Analyser ==> e.from == Gain
    ensures e.from.ResonatorNode? ==> e.from.index < s.bankSize
  {
  }

  lemma InStoppedNodes(x: Node, n: nat)
    ensures x in StoppedNodes(n) <==> x == Gain || (x.ResonatorNode? && x.index < n)
  {
    if x.ResonatorNode? && x.index < n {
      assert x == ResonatorNode(x.index);
    }
  }

  /** Disconnecting the gain node and the created resonators leaves nothing feeding the
      analyser and nothing leaving a resonator, and keeps every other edge. */
  lemma ShapeStop(s: Shape)
    ensures var es := Disconnect(Connections(s), StoppedNodes(s.bankSize));
      && (forall e :: e in es ==> e.to != Analyser)
      && (forall e :: e in es ==> !e.from.ResonatorNode?)
      && (forall e :: e in Connections(s) && e.from != Gain && !e.from.ResonatorNode? ==> e in es)
  {
    forall e | e in Connections(s)
      ensures e.to == Analyser ==> e.from in StoppedNodes(s.bankSize)
      ensures e.from.ResonatorNode? ==> e.from in StoppedNodes(s.bankSize)
      ensures e.from != Gain && !e.from.ResonatorNode? ==> e.from !in StoppedNodes(s.bankSize)
    {
      ConnectionsMatchRules(s, e);
      PlannedSources(s, e);
      InStoppedNodes(e.from, s.bankSize);
    }
  }

  /** After stopping, nothing reaches the analyser any more, no resonator feeds anything, and
      only the edges out of the gain node and the resonators were removed. */
  lemma StopSilences(noiseType: string, modType: string)
    ensures var g := Plan(noiseType, modType);
      var es := Disconnect(g.edges, StoppedNodes(|ResonatorBank(noiseType)|));
      && (forall e :: e in es ==> e.to != Analyser)
      && (forall e :: e in es ==> !e.from.ResonatorNode?)
      && (forall e :: e in g.edges && e.from != Gain && !e.from.ResonatorNode? ==> e in es)
  {
    PlanShape(noiseType, modType);
    ShapeStop(PlanShapeOf(noiseType, modType));
  }
}
