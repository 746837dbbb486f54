# Noise synthesizer core: audio graph, playback state and presets

This project models the core of `app.js`, a browser noise synthesizer. Starting playback
builds a Web Audio graph:

- a looping noise source feeds a wave-shaper distortion;
- for metallic noise, the distortion feeds an optional parallel bank of five peaking resonators with a bypass;
- the signal then goes through a biquad filter;
- an optional tremolo gain stage follows;
- then the output gain, an analyser and the destination.

The modulation type decides two things. One is whether the shared modulator drives the tremolo gain. The other is whether it drives the filter's frequency.

Stopping disconnects the output gain and the resonators. Moving a scalar control retunes the running nodes. Changing the noise or modulation type while playing stops and starts again. Built-in and custom presets load a whole parameter set into the controls. Custom presets are saved under a trimmed name and deleted after confirmation.

Modules:

- `Settings` (`settings.dfy`) holds:
  - the parameter set;
  - the string tests that choose the graph's shape;
  - the table of five built-in presets.
- `Text` (`text.dfy`) holds `String.prototype.trim` as the preset-name input uses it. It covers ECMAScript WhiteSpace and LineTerminator characters.
- `AudioGraph` (`audio_graph.dfy`) defines three things:
  - `Plan`, the graph that `startAudio` builds: its nodes in creation order, with the context's destination appended last, and its edges in connection order;
  - `Planned`, a declarative edge-by-edge statement of the same wiring rules;
  - `Disconnect`, the effect of `disconnect()`.
  - Each edge names the port it feeds: the audio input, the gain parameter or the frequency parameter.
  - The graph depends on the strings only through a `Shape`:
    - the number of resonators;
    - whether the bank is inserted;
    - whether the tremolo stage is inserted;
    - whether the filter is modulated.
  - The lemmas are proved per shape and then restated for the noise and modulation types.
- `Playback` (`playback.dfy`) defines the class `Player`:
  - its fields are the controls, `isPlaying`, the resonator list, the current graph and the scalar settings of the running nodes;
  - its methods are `startAudio`, `stopAudio`, `updateAudioParams`, `createResonators`, the select-change handlers and the two preset appliers.
  - Its invariant `Valid` says:
    - a stopped player holds no resonators;
    - a playing player's graph is well formed and holds no node twice;
    - the graph holds exactly one resonator node per created resonator.
- `Presets` (`presets.dfy`) models the custom preset store:
  - the functions `SaveInto` and `DeleteFrom`;
  - the class `Store`, whose methods update the saved map.

## Model

| member | source | states |
|---|---|---|
| Settings.BuiltIn | app.js:392-453 | A name gives a preset exactly when it is one of mild, medium, intense, extreme or metallic, and the preset holds that entry's literal values. |
| Settings.BuiltInShapes | app.js:392-453 | Only the metallic preset selects metallic noise. Every preset modulates the filter. Exactly intense, extreme and metallic use the tremolo. |
| Text.TrimStart | app.js:473 | The result is the suffix of the input that starts at its first non-white-space character; everything dropped is white space. |
| Text.TrimEnd | app.js:473 | The result is the prefix of the input that ends at its last non-white-space character; everything dropped is white space. |
| Text.Trim | app.js:473-474 | A non-empty result neither starts nor ends with white space. The result is empty exactly when the name is all white space, which is the case the save rejects. |
| Text.TrimIsInfix | app.js:473 | The trimmed name is a contiguous piece of the typed name with only white space before and after it. |
| Text.TrimIdempotent | app.js:473 | Trimming an already trimmed name changes nothing. |
| AudioGraph.ResonatorNodes | app.js:184-191 | The graph nodes of a bank of n resonators are exactly resonator nodes 0 to n-1. |
| AudioGraph.ResonatorBank | app.js:180-192 | Metallic noise gives five peaking resonators at 1200·(i+1) Hz with Q 10 and gain 15; any other noise type gives none. |
| AudioGraph.FanOut | app.js:261-264 | The per-resonator connections are exactly input→resonator and resonator→output for each of the n resonators, 2n edges in all. |
| AudioGraph.ShapeOf | app.js:253-293 | The three tests startAudio makes: the bank for metallic noise with at least one created resonator, the tremolo for tremolo or both, and filter modulation for filter or both. Its properties are stated by PlanShapeOf. |
| AudioGraph.CreatedNodes | app.js:213-280 | The nodes startAudio creates, in order, with the destination last. Its properties are stated by CreatedNodesMatchRules, CreatedNodesDistinct and ShapeNodes. |
| AudioGraph.Connections | app.js:244-299 | The connections startAudio makes, in order. Its properties are stated by ConnectionsMatchRules, ConnectionsWellFormed, BankWiring, ShapeParallel, ShapeTremolo, ShapeFilterModulation, ShapeSpine and ShapeStop. |
| AudioGraph.Wiring | app.js:244-299 | The graph built from the noise type, the modulation type and the resonators created. Player.Start sets the graph to it. |
| AudioGraph.Plan | app.js:244-299 | The graph built with the resonators createResonators makes. Its properties are stated by PlanMatchesRules, PlanWellFormed, PlanNodes, ResonatorWiring, ResonatorsInParallel, TremoloWiring, FilterModulationWiring, FixedSpine and StopSilences. |
| AudioGraph.PlanShapeOf | app.js:248-296 | The bank is inserted, with five resonators, exactly for metallic noise. The tremolo stage is inserted exactly for tremolo or both, and filter modulation exactly for filter or both. |
| AudioGraph.ConnectionsMatchRules | app.js:245-299 | The edges connected in order are exactly the edges the declarative wiring rules call for. |
| AudioGraph.CreatedNodesMatchRules | app.js:213-299 | The nodes created are exactly the fixed nodes, the created resonators, the bank's two gains when the bank is inserted, and the two tremolo gains for tremolo. |
| AudioGraph.CreatedNodesDistinct | app.js:213-299 | No node is created twice. |
| AudioGraph.ConnectionsWellFormed | app.js:245-299 | Every connection joins two nodes that were created. |
| AudioGraph.PlanWellFormed | app.js:244-299 | The graph built for any noise and modulation type is well formed and holds no node twice. |
| AudioGraph.ShapeNodes | app.js:248-280 | A resonator node exists exactly for each created resonator. The bank gains exist exactly with the bank, and the tremolo gains exactly with the tremolo stage. |
| AudioGraph.PlanNodes | app.js:248-280 | Resonator nodes 0..4 and the bank gains exist exactly for metallic noise, and the tremolo gains exactly for tremolo or both. |
| AudioGraph.PlanMatchesRules | app.js:244-299 | An edge is in the built graph exactly when the wiring rules call for it under the shape the noise and modulation types select. |
| AudioGraph.BankWiring | app.js:253-272 | With the bank inserted, the distortion feeds the input, the input feeds every resonator and the output, every resonator feeds the output, the output feeds the filter, and the distortion does not feed the filter. Without the bank, the distortion feeds the filter and no edge touches the bank. |
| AudioGraph.ResonatorWiring | app.js:253-272 | The same, for metallic noise over five resonators against every other noise type. |
| AudioGraph.ShapeParallel | app.js:260-267 | A resonator is fed only by the bank's input and feeds only the bank's output, so resonators are never in series. |
| AudioGraph.ResonatorsInParallel | app.js:260-267 | The same, for every noise and modulation type. |
| AudioGraph.ShapeTremolo | app.js:274-291 | The four tremolo edges, including the depth gain driving the tremolo's gain parameter, exist exactly with the tremolo stage. The filter feeds the gain node directly exactly without it. |
| AudioGraph.TremoloWiring | app.js:274-291 | The same, for tremolo or both against every other modulation type. |
| AudioGraph.ShapeFilterModulation | app.js:293-296 | The modulation depth gain feeds the filter's frequency exactly under filter modulation, and no other edge feeds a frequency parameter. |
| AudioGraph.FilterModulationWiring | app.js:293-296 | The same, for filter or both against every other modulation type. |
| AudioGraph.ShapeSpine | app.js:245-299 | Source→distortion, modulator→depth gain, gain→analyser and analyser→destination always exist. The analyser and the destination are fed only along that spine, and nothing feeds the source. |
| AudioGraph.FixedSpine | app.js:245-299 | The same, for every noise and modulation type. |
| AudioGraph.ExtremePresetGraph | app.js:429-440 | The extreme preset holds volume 0.3, brown noise, amount 800, 4x, highpass at 1000 Hz, Q 12, speed 12, depth 0.9 and both; the graph built from it has the tremolo stage, the filter-frequency route and no resonators. |
| AudioGraph.Disconnect | app.js:327-335 | Disconnecting a set of nodes keeps exactly the edges that do not leave one of them. |
| AudioGraph.ShapeStop | app.js:327-336 | After disconnecting the gain node and the resonators, nothing feeds the analyser, no resonator feeds anything, and every other edge remains. |
| AudioGraph.StopSilences | app.js:327-336 | The same, for the graph built for any noise and modulation type. |
| Playback.Configure | app.js:218-281 | The scalar settings startAudio gives the nodes: the modulation depth gain is the depth times 1000, and the tremolo depth gain is the depth times 0.5, present only with the tremolo stage. Its relation to Retune is stated by RetuneMatchesRebuild. |
| Playback.Retune | app.js:360-389 | The scalar settings updateAudioParams gives the running nodes: every one follows the controls except the tremolo depth gain, which keeps its value. Its relation to Configure is stated by RetuneMatchesRebuild. |
| Playback.RetuneMatchesRebuild | app.js:274-281 | Retuning the running nodes agrees with a fresh build exactly when the tremolo stage is unchanged and, if present, the modulation depth is unchanged. |
| Playback.Player.constructor | app.js:10-11 | The player starts stopped, with no resonators and no graph. |
| Playback.Player.CreateResonators | app.js:173-193 | The old resonators lose their outgoing edges, and the resonator list becomes the bank for the selected noise type. |
| Playback.Player.Start | app.js:196-312 | Starting while playing changes nothing. Otherwise the player is playing, with the resonator bank, the planned graph and the node settings taken from the controls, and the invariant holds. |
| Playback.Player.Stop | app.js:315-347 | Stopping while stopped changes nothing. Otherwise the gain node and the resonators are disconnected, the resonator list is empty and the player is stopped. |
| Playback.Player.UpdateAudioParams | app.js:360-389 | While stopped nothing changes. While playing every scalar setting follows the controls, and the tremolo depth keeps its built value. |
| Playback.Player.Rebuild | app.js:723-735 | While playing, stop-then-start leaves the player playing with the graph, resonators and settings a fresh start gives. While stopped, nothing changes. |
| Playback.Player.AdjustControls | app.js:689-721 | A slider or select input changes the scalar controls only, and the running nodes follow them while playing. |
| Playback.Player.SelectNoiseType | app.js:730-735 | The noise type changes. While playing, the graph and resonators are rebuilt for it; while stopped, nothing else changes. |
| Playback.Player.SelectModType | app.js:723-728 | The modulation type changes. While playing, the graph is rebuilt for it; while stopped, nothing else changes. |
| Playback.Player.Load | app.js:651-681 | The controls take the preset's values. While playing, the graph is rebuilt from them; while stopped, nothing else changes. |
| Playback.Player.ApplyPreset | app.js:647-682 | An unknown name changes nothing. A known name loads that table entry and, while playing, rebuilds. |
| Playback.Player.ApplyCustomPreset | app.js:573-622 | A name that is not saved changes nothing. A saved name loads its settings and, while playing, rebuilds. |
| Presets.SaveInto | app.js:472-498 | An all-white-space name leaves the store unchanged, and so does a name that trims to `__proto__`, whose assignment replaces the object's prototype and is not written back. Otherwise the trimmed name is added or overwritten with the current settings. Every other entry is kept. |
| Presets.DeleteFrom | app.js:625-634 | A confirmed deletion of a saved name removes exactly that name. Declining, or an absent name, changes nothing. No entry's value changes. |
| Presets.SaveUnderTrimmedName | app.js:473-494 | Saving under the typed name is saving under its trimmed form. |
| Presets.SaveOverwrites | app.js:494 | Saving twice under one name keeps only the second settings. |
| Presets.SaveThenDelete | app.js:472-634 | A preset saved under a storable name is found under its trimmed name with its settings, and a confirmed deletion restores the rest of the store. Under any other name the save leaves the store as it was. |
| Presets.DeleteAbsentOrDeclined | app.js:626-632 | Declining, or deleting an absent name, leaves the store exactly as it was, names and settings. |
| Presets.Test1Scenario | app.js:472-634 | Saving as "Test1" makes the preset retrievable under "Test1" with the saved settings, and deleting it leaves the other presets. |
| Presets.Store.constructor | app.js:483-488 | The store starts with the presets read from storage. |
| Presets.Store.Save | app.js:472-512 | The save reports success exactly when the trimmed name is non-empty, including for `__proto__`, where nothing is stored. The store becomes SaveInto of its old contents. |
| Presets.Store.Delete | app.js:625-644 | The store becomes DeleteFrom of its old contents under the user's answer. |

Behaviour of the code worth noting:

- The bank is inserted when the noise type is metallic and at least one resonator was created (line 253). `ShapeOf` keeps both tests. For the bank `createResonators` builds, this means exactly for metallic noise.
- With the bank, six parallel paths run from the bank's input to its output: the bypass and one through each resonator.
- The modulator→modulation-gain edge is made for every modulation type (line 245), including "none". Only the tremolo and filter-frequency routes depend on the type.
- A modulation type other than tremolo, filter or both behaves like none.
- `updateAudioParams` does not update the tremolo depth gain (lines 360-389). A depth change while the tremolo is active takes effect only at the next start. `RetuneMatchesRebuild` states exactly when retuning and rebuilding agree.
- A preset name that trims to `__proto__` is reported as saved (line 507), but the assignment at line 494 replaces the object's prototype, so the JSON written at line 498 does not hold it. `SaveInto` leaves the store unchanged for it.

## Left out

- Noise generation (`generateNoise`): floating-point and random sample synthesis. The graph models only the source node.
- Distortion curve values (`makeDistortionCurve`): floating-point. The node settings record the curve amount it is built from.
- Audio context:
  - its creation and resume;
  - the noise buffer size;
  - `start()`/`stop()` of the source and modulator;
  - the analyser's FFT size and the tremolo gain's fixed base gain of 1.0.
  - These are browser audio calls that do not change the graph's shape.
- The waveform visualizer, the canvas resize and the animation frame: rendering only.
- Parsing: slider values arrive as strings and go through `parseInt`/`parseFloat`. The controls are modelled as already-parsed numbers, and the browser's clamping of slider values to their ranges is not modelled.
- An unknown value assigned to a select (noise type, modulation type, filter type or oversampling): the browser would empty the select. Here the string is kept.
- Floating point: slider values and preset numbers are JavaScript doubles and are modelled as `real`, without rounding.
- Storage and dialogs:
  - local storage and JSON reads, writes and their error paths are not modelled. This includes a corrupt store that a save replaces with an empty one, and a full store.
  - The store is a map held by `Store`.
  - `confirm` is a boolean parameter. `alert` messages are not modelled.
- UI work:
  - `loadCustomPresets` button creation, active-button highlighting and `updateUIValues` text formatting are DOM only;
  - clearing the name input after a save is not modelled.
- Presets.DeleteFrom, Playback.Player.ApplyCustomPreset: JavaScript objects also answer inherited names such as "toString". The model treats only saved names as present, so those names are not modelled.
- Playback.Player.ApplyPreset: the built-in table is likewise looked up by own keys only.
- Event-listener registration and the initial `applyPreset('medium')` on page load: the handlers are the `Player` and `Store` methods themselves.
