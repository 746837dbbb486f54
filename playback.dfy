/**
 The playback session: whether sound is playing, the resonators of the running
 graph, the graph itself and the scalar settings of its nodes. Starting builds the
 graph from the controls; stopping disconnects the gain node and the resonators
 and empties the resonator list; changing the noise or modulation type while
 playing stops and starts again.
 */
module Playback {
  import opened Settings
  import opened AudioGraph

  /** The scalar settings applied to the nodes of a running graph. modulationDepth is the gain
      of the modulation depth gain; tremoloDepth is the gain of the tremolo depth gain, present
      only when the tremolo stage was built. */
  datatype NodeSettings = NodeSettings(
    volume: real,
    curveAmount: int,
    oversample: string,
    filterType: string,
    filterFrequency: int,
    filterQ: real,
    modulatorFrequency: real,
    modulationDepth: real,
    tremoloDepth: Option<real>)

  /** The settings startAudio gives the nodes it creates from the controls p. */
  function Configure(p: ParamSet): NodeSettings {
    NodeSettings(
      p.volume, p.distortionAmount, p.distortionOversample,
      p.filterType, p.filterFrequency, p.filterQ,
      p.modSpeed, p.modDepth * 1000.0,
      if IsTremolo(p.modType) then Some(p.modDepth * 0.5) else None)
  }

  /** The settings updateAudioParams gives the running nodes from the controls p: every scalar
      is refreshed except the tremolo depth gain, which keeps the value it was built with. */
  function Retune(s: NodeSettings, p: ParamSet): NodeSettings {
    NodeSettings(
      p.volume, p.distortionAmount, p.distortionOversample,
      p.filterType, p.filterFrequency, p.filterQ,
      p.modSpeed, p.modDepth * 1000.0,
      s.tremoloDepth)
  }

  /** Retuning a running graph gives the settings a rebuild would give exactly when the
      tremolo stage is unchanged and, if present, its depth is unchanged. */
  lemma RetuneMatchesRebuild(p: ParamSet, q: ParamSet)
    ensures Retune(Configure(p), q) == Configure(q) <==>
      IsTremolo(p.modType) == IsTremolo(q.modType) && (IsTremolo(p.modType) ==> p.modDepth == q.modDepth)
  {
    if IsTremolo(p.modType) && IsTremolo(q.modType) && Retune(Configure(p), q) == Configure(q) {
      assert p.modDepth * 0.5 == q.modDepth * 0.5;
    }
  }

  class Player {
    /** The values the controls hold. */
    var controls: ParamSet
    var isPlaying: bool
    var resonators: seq<Resonator>
    /** The graph built by the last start; empty before the first start. */
    var graph: Graph
    /** The scalar settings of the nodes; None before the first start. */
    var live: Option<NodeSettings>

    ghost predicate Valid()
      reads this
    {
      && (!isPlaying ==> resonators == [])
      && (isPlaying ==>
            && live.Some?
            && WellFormed(graph)
            && Distinct(graph.nodes)
            && (forall i: nat :: ResonatorNode(i) in graph.nodes <==> i < |resonators|))
    }

    constructor(initial: ParamSet)
      ensures Valid()
      ensures controls == initial && !isPlaying && resonators == []
      ensures graph == Graph([], []) && live == None
    {
      controls := initial;
      isPlaying := false;
      resonators := [];
      graph := Graph([], []);
      live := None;
    }

    /** Disconnects the previous resonators and creates the bank for the selected noise type. */
    method CreateResonators()
      modifies this`resonators, this`graph
      ensures resonators == ResonatorBank(controls.noiseType)
      ensures graph == Graph(old(graph).nodes, Disconnect(old(graph).edges, ResonatorIds(|old(resonators)|)))
    {
      graph := Graph(graph.nodes, Disconnect(graph.edges, ResonatorIds(|resonators|)));
      resonators := [];
      if IsMetallic(controls.noiseType) {
        var i := 0;
        while i < |ResonantFrequencies|
          invariant 0 <= i <= |ResonantFrequencies|
          invariant graph == Graph(old(graph).nodes, Disconnect(old(graph).edges, ResonatorIds(|old(resonators)|)))
          invariant |resonators| == i
          invariant forall k :: 0 <= k < i ==> resonators[k] == Resonator("peaking", ResonantFrequencies[k], 10, 15)
        {
          resonators := resonators + [Resonator("peaking", ResonantFrequencies[i], 10, 15)];
          i := i + 1;
        }
      }
    }

    /** Starting while playing does nothing; otherwise the graph is built from the controls. */
    method Start()
      requires Valid()
      modifies this
      ensures Valid()
      ensures isPlaying && controls == old(controls)
      ensures old(isPlaying) ==> resonators == old(resonators) && graph == old(graph) && live == old(live)
      ensures !old(isPlaying) ==>
        && resonators == ResonatorBank(controls.noiseType)
        && graph == Plan(controls.noiseType, controls.modType)
        && live == Some(Configure(controls))
    {
      if isPlaying {
        return;
      }
      live := Some(Configure(controls));
      CreateResonators();
      graph := Wiring(controls.noiseType, controls.modType, resonators);
      PlanNodes(controls.noiseType, controls.modType);
      PlanWellFormed(controls.noiseType, controls.modType);
      isPlaying := true;
    }

    /** Stopping while stopped does nothing; otherwise the gain node and the resonators are
        disconnected and the resonator list is emptied. */
    method Stop()
      requires Valid()
      modifies this
      ensures Valid()
      ensures !isPlaying && resonators == []
      ensures controls == old(controls) && live == old(live)
      ensures !old(isPlaying) ==> graph == old(graph)
      ensures old(isPlaying) ==>
        graph == Graph(old(graph).nodes, Disconnect(old(graph).edges, StoppedNodes(|old(resonators)|)))
    {
      if !isPlaying {
        return;
      }
      graph := Graph(graph.nodes, Disconnect(graph.edges, StoppedNodes(|resonators|)));
      resonators := [];
      isPlaying := false;
    }

    /** While playing, the running nodes take the scalar values of the controls; while stopped
        nothing changes. */
    method UpdateAudioParams()
      requires Valid()
      modifies this`live
      ensures Valid()
      ensures !isPlaying ==> live == old(live)
      ensures isPlaying ==> live == Some(Retune(old(live).value, controls))
    {
      if !isPlaying {
        return;
      }
      live := Some(Retune(live.value, controls));
    }

    /** Stops and starts again when playing, so that a new noise or modulation type takes
        effect; does nothing when stopped. */
    method Rebuild()
      requires Valid()
      modifies this
      ensures Valid()
      ensures isPlaying == old(isPlaying) && controls == old(controls)
      ensures !old(isPlaying) ==> resonators == old(resonators) && graph == old(graph) && live == old(live)
      ensures old(isPlaying) ==>
        && resonators == ResonatorBank(controls.noiseType)
        && graph == Plan(controls.noiseType, controls.modType)
        && live == Some(Configure(controls))
    {
      if isPlaying {
        Stop();
        Start();
      }
    }

    /** A scalar control moved: the controls take the new scalar values and the running nodes
        follow them. The noise and modulation types are not scalar controls. */
    method AdjustControls(p: ParamSet)
      requires Valid()
      modifies this`controls, this`live
      ensures Valid()
      ensures controls == p.(noiseType := old(controls).noiseType, modType := old(controls).modType)
      ensures !isPlaying ==> live == old(live)
      ensures isPlaying ==> live == Some(Retune(old(live).value, controls))
    {
      controls := p.(noiseType := controls.noiseType, modType := controls.modType);
      UpdateAudioParams();
    }

    /** A new noise type was selected. */
    method SelectNoiseType(noiseType: string)
      requires Valid()
      modifies this
      ensures Valid()
      ensures controls == old(controls).(noiseType := noiseType) && isPlaying == old(isPlaying)
      ensures !old(isPlaying) ==> resonators == old(resonators) && graph == old(graph) && live == old(live)
      ensures old(isPlaying) ==>
        && resonators == ResonatorBank(noiseType)
        && graph == Plan(noiseType, controls.modType)
        && live == Some(Configure(controls))
    {
      controls := controls.(noiseType := noiseType);
      Rebuild();
    }

    /** A new modulation type was selected. */
    method SelectModType(modType: string)
      requires Valid()
      modifies this
      ensures Valid()
      ensures controls == old(controls).(modType := modType) && isPlaying == old(isPlaying)
      ensures !old(isPlaying) ==> resonators == old(resonators) && graph == old(graph) && live == old(live)
      ensures old(isPlaying) ==>
        && resonators == ResonatorBank(controls.noiseType)
        && graph == Plan(controls.noiseType, modType)
        && live == Some(Configure(controls))
    {
      controls := controls.(modType := modType);
      Rebuild();
    }

    /** Loads a preset into the controls and, when playing, rebuilds the graph from it. */
    method Load(preset: ParamSet)
      requires Valid()
      modifies this
      ensures Valid()
      ensures controls == preset && isPlaying == old(isPlaying)
      ensures !old(isPlaying) ==> resonators == old(resonators) && graph == old(graph) && live == old(live)
      ensures old(isPlaying) ==>
        && resonators == ResonatorBank(preset.noiseType)
        && graph == Plan(preset.noiseType, preset.modType)
        && live == Some(Configure(preset))
    {
      controls := preset;
      UpdateAudioParams();
      Rebuild();
    }

    /** Applies a built-in preset; an unknown name changes nothing. */
    method ApplyPreset(name: string)
      requires Valid()
      modifies this
      ensures Valid()
      ensures name !in BuiltInPresets ==>
        controls == old(controls) && isPlaying == old(isPlaying) && resonators == old(resonators)
        && graph == old(graph) && live == old(live)
      ensures name in BuiltInPresets ==> controls == BuiltInPresets[name] && isPlaying == old(isPlaying)
      ensures name in BuiltInPresets && !old(isPlaying) ==>
        resonators == old(resonators) && graph == old(graph) && live == old(live)
      ensures name in BuiltInPresets && old(isPlaying) ==>
        && resonators == ResonatorBank(controls.noiseType)
        && graph == Plan(controls.noiseType, controls.modType)
        && live == Some(Configure(controls))
    {
      var preset := BuiltIn(name);
      if preset.None? {
        return;
      }
      Load(preset.value);
    }

    /** Applies a saved custom preset; a name that is not saved changes nothing. */
    method ApplyCustomPreset(saved: map<string, ParamSet>, name: string)
      requires Valid()
      modifies this
      ensures Valid()
      ensures name !in saved ==>
        controls == old(controls) && isPlaying == old(isPlaying) && resonators == old(resonators)
        && graph == old(graph) && live == old(live)
      ensures name in saved ==> controls == saved[name] && isPlaying == old(isPlaying)
      ensures name in saved && !old(isPlaying) ==>
        resonators == old(resonators) && graph == old(graph) && live == old(live)
      ensures name in saved && old(isPlaying) ==>
        && resonators == ResonatorBank(controls.noiseType)
        && graph == Plan(controls.noiseType, controls.modType)
        && live == Some(Configure(controls))
    {
      if name !in saved {
        return;
      }
      Load(saved[name]);
    }
  }
}
