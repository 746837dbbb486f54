/**
 The parameter set that the synthesizer's controls hold, the string-valued
 settings that choose the shape of the audio graph, and the five built-in
 presets.
 */
module Settings {

  datatype Option<T> = None | Some(value: T)

  /** The ten values read from the controls (getCurrentSettings) and stored in a preset. */
  datatype ParamSet = ParamSet(
    volume: real,
    noiseType: string,
    distortionAmount: int,
    distortionOversample: string,
    filterType: string,
    filterFrequency: int,
    filterQ: real,
    modSpeed: real,
    modDepth: real,
    modType: string)

  /** Resonators and the parallel resonator bank are used only for this noise type. */
  predicate IsMetallic(noiseType: string) {
    noiseType == "metallic"
  }

  /** Modulation types that insert the tremolo gain stage. */
  predicate IsTremolo(modType: string) {
    modType == "tremolo" || modType == "both"
  }

  /** Modulation types that route the modulator to the filter's frequency. */
  predicate IsFilterModulation(modType: string) {
    modType == "filter" || modType == "both"
  }

  /** The built-in preset table, keyed by the name carried on each preset button. */
  const BuiltInPresets: map<string, ParamSet> := map[
    "mild" := ParamSet(0.15, "white", 200, "2x", "lowpass", 3000, 2.0, 2.0, 0.3, "filter"),
    "medium" := ParamSet(0.2, "white", 400, "4x", "bandpass", 2000, 5.0, 5.0, 0.5, "filter"),
    "intense" := ParamSet(0.25, "pink", 600, "4x", "bandpass", 1500, 8.0, 8.0, 0.7, "both"),
    "extreme" := ParamSet(0.3, "brown", 800, "4x", "highpass", 1000, 12.0, 12.0, 0.9, "both"),
    "metallic" := ParamSet(0.25, "metallic", 500, "4x", "bandpass", 3000, 10.0, 15.0, 0.8, "both")
  ]

  /** Looking a name up in the built-in table; an unknown name gives None. */
  function BuiltIn(name: string): (r: Option<ParamSet>)
    ensures r.Some? <==> name in {"mild", "medium", "intense", "extreme", "metallic"}
    ensures r.Some? ==> r.value == BuiltInPresets[name]
  {
    if name in BuiltInPresets then Some(BuiltInPresets[name]) else None
  }

  /** Only the "metallic" preset selects the metallic noise type, and every preset modulates. */
  lemma BuiltInShapes(name: string)
    requires BuiltIn(name).Some?
    ensures IsMetallic(BuiltIn(name).value.noiseType) <==> name == "metallic"
    ensures IsFilterModulation(BuiltIn(name).value.modType)
    ensures IsTremolo(BuiltIn(name).value.modType) <==> name in {"intense", "extreme", "metallic"}
  {
  }
}
