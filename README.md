# Menagerie: effect routing, one-shot voice, step sequencer and waveform envelope

A model of the behavioural core of the Menagerie web instrument, with proofs
about it. The model covers five parts:

- **`FxChain`** (app/fx.js): a registry of eight effect nodes, and a mutable
  set of audio-graph edges. `connectNodes(names)` cuts every edge leaving the
  chain input or a registry node, then wires `input -> names... -> output`.
  The registry's nodes are modelled by their constructor arguments: the stereo
  chorus (three phase-shifted warpers behind a channel splitter), the ring
  modulator `AM` and the tremolo. The fixed internal wiring of the splitter and
  the chorus is a constant set of port-to-port links.
- **Cissy and the presets** (app/Menagerie.js): the one-shot voice. Its `play`
  always stops the previous source before it starts a new one. Every call it
  makes on a buffer source is recorded. Also modelled: the three effect presets,
  the pad offset table of the `notInLove` sampler, the buffer table that
  `loadBuffers` builds, and the `Menagerie` object that wires them together.
- **The step sequencer** (app/pattern.js and app/Pattern.js): `mapPattern`
  turns a step string into note events. The constructor registers one loop per
  pattern with a scheduler at tempo 400. The scheduler callback plays a note only
  when its pattern id is active. The two files share one `Pattern` class; they
  differ only in their first pattern string and in the id of the first pattern,
  1 in app/pattern.js and 0 in app/Pattern.js. The initial active set `{1}`
  therefore enables a different pattern in each file.
- **The waveform envelope** (app/BufferViewer.js): `getAmplitudes` samples the
  buffer at `width` evenly spaced indices. `normalizeAmplitudes` divides by the
  peak.

Modules:

- `Optional`: the `Option` type.
- `Sine`: what the core sees of the external `sine` audio library, as abstract
  node ids and recorded calls. This covers `connect` as a set of consecutive
  edges, a keyed sampler and a scheduler.
- `FxNodes`: the effect nodes and the chorus topology.
- `FxRouting`: the registry and the `FxChain` class.
- `Menagerie`: app/Menagerie.js.
- `Sequencer`: the shared `Pattern` class.
- `PatternFiles`: the two files' pattern lists and their initial state.
- `Waveform`: app/BufferViewer.js.

Two facts about the code shape the model of the effect chain:

- `connectNodes` is not transactional. It disconnects first (app/fx.js:196)
  and only then indexes `this.fx[name]` unchecked (app/fx.js:200). So a chain
  that names an unknown effect fails after the old chain has already been cut.
- Effect names are the closed enumeration `FxName`. `Key` gives each name its
  property name in the source, and `KeyIsInjective` shows that this mapping is
  one to one. An unknown name therefore cannot be written, and every chain
  request names registry entries only.

## Model

| member | source | states |
|---|---|---|
| Sine.Connect | app/fx.js:198-202 | `connect(n1..nk)` only joins listed nodes; a list of at least two nodes joins its first two; fewer than two nodes make no edge |
| Sine.ConnectMembership | app/fx.js:198-202 | an edge is in `connect(nodes)` exactly when its two ends are neighbours in the list, in that order |
| Sine.ConnectedAreNeighbours | app/fx.js:198-202 | the "only if" half of that, by induction on the list |
| Sine.NeighboursAreConnected | app/fx.js:198-202 | the "if" half of that: every pair of neighbours is joined |
| Sine.ConnectPair | app/Menagerie.js:23 | `connect(a, b)` makes exactly the edge a -> b |
| Sine.SingleBufferSampler.Play | app/Menagerie.js:72 | each `play(key, when, length)` is appended to the sampler's calls, in order |
| Sine.Scheduler.AddLoop | app/pattern.js:21 | `addLoop` appends one loop with its length and events and leaves the clock as it was |
| FxNodes.NewLfo | app/fx.js:31-44 | `new LFO(frequency, gain = 1, real = 1, imag = 0)`: the oscillator's rate, output gain and single Fourier coefficient pair, with the source's defaults |
| FxNodes.NewWarper | app/fx.js:46-64 | `new Warper(...)`: a unit-gain LFO with the given phase, depth `amount / 1000` on the delay time, a delay line of at most 2 s starting at 1 ms; its properties in the chorus are `ChorusWarpers` |
| FxNodes.NewStereoChorus | app/fx.js:91-100 | `new StereoChorus(lfoFrequency, amount)`: dry gain 0.5 and the three warpers with phases (-1,1), (1,1), (1,-1); stated by `ChorusWarpers` and `ChorusOuterPath` |
| FxNodes.ChorusWarpers | app/fx.js:98-100 | the three warpers share the LFO rate, unit gain and depth `amount / 1000`; their phases (-1,1), (1,1), (1,-1) are pairwise distinct |
| FxNodes.SplitterLinks | app/fx.js:77-85 | the six links `new Splitter()` makes, with their channel and merger indices; stated by `SplitterRouting` |
| FxNodes.ChorusLinks | app/fx.js:104-116 | the splitter's links plus the eight cross-feed links and the outer path; stated by the lemmas below |
| FxNodes.SplitterRouting | app/fx.js:77-85 | splitter output 0 goes only to the left tap and output 1 only to the right; the left output enters merger input 0 and the right enters input 1; the input feeds only the channel splitter, and only the merger feeds the output |
| FxNodes.LeftTapTargets | app/fx.js:104-105 | the left tap feeds exactly warpers 1 and 2 |
| FxNodes.RightTapTargets | app/fx.js:106-107 | the right tap feeds exactly warpers 2 and 3 |
| FxNodes.LeftOutputSources | app/fx.js:111-112 | exactly warpers 1 and 2 feed the left output |
| FxNodes.RightOutputSources | app/fx.js:113-114 | exactly warpers 2 and 3 feed the right output |
| FxNodes.ChorusCrossFeed | app/fx.js:104-114 | the whole cross-feed: inputs {1,2} / {2,3}, outputs {1,2} / {2,3} |
| FxNodes.SharedWarper | app/fx.js:104-114 | warper k is fed by both taps, and feeds both outputs, exactly when k = 2 |
| FxNodes.InputTargets | app/fx.js:116 | the chorus input feeds only the dry gain |
| FxNodes.DryGainTargets | app/fx.js:116 | the dry gain feeds only the splitter |
| FxNodes.OutputSources | app/fx.js:116 | only the splitter feeds the chorus output |
| FxNodes.ChorusOuterPath | app/fx.js:95-116 | the outer path is input -> gain -> splitter -> output, with no other edge at those ports; the dry gain is 0.5 for every rate and depth |
| FxNodes.NewAm | app/fx.js:141-151 | `new AM(frequency, amount, centerGain = 0)`: wet mix 0.4, centre gain defaulting to 0; stated by `DefaultAmIsBipolar` |
| FxNodes.NewTremolo | app/fx.js:154-159 | `new Tremolo(frequency, amount)` is `new AM(frequency, amount, 1)`; stated by `RegistryModulators` and `TremoloIsUnipolar` |
| FxNodes.SignalGain | app/fx.js:143-148 | the signal gain: the centre gain plus the modulator output scaled by `amount`; its range is `GainRange` and `GainReached` |
| FxNodes.GainRange | app/fx.js:132-150 | for a modulator value in [-1, 1], the AM signal gain lies in [centerGain - amount, centerGain + amount] |
| FxNodes.GainReached | app/fx.js:132-150 | every gain in that interval is reached by some modulator value in [-1, 1] |
| FxNodes.TremoloIsUnipolar | app/fx.js:154-159 | a tremolo (centre gain 1) of depth at most 1 never makes the gain negative |
| FxNodes.DefaultAmIsBipolar | app/fx.js:141-144 | an AM has centre gain 0 by default, and its gain is odd in the modulator value |
| FxRouting.KeyIsInjective | app/fx.js:165-174 | distinct registry keys have distinct, non-empty property names |
| FxRouting.Registry | app/fx.js:165-174 | the registry has exactly the eight keys |
| FxRouting.RegistryOrderIsExact | app/fx.js:165-174 | the keys, in the literal's order, are chorus, multiplier, tremolo, distortion, delay, reverb, compressor, am, each once |
| FxRouting.KeyIsRegistered | app/fx.js:189-191 | every key is a registry key, and is visited by `Object.keys(this.fx)` |
| FxRouting.RegistryModulators | app/fx.js:168-173 | the tremolo is an AM at 5 Hz, depth 0.3, centre gain 1, with gain in [0.7, 1.3]; `am` keeps centre gain 0, at 2000 Hz and depth 1, with gain in [-1, 1] |
| FxRouting.ModulationEdges | app/fx.js:181 | `connect(lfo, am2, fx.am.modulator.frequency)`; kept by `DisconnectKeepsModulation` |
| FxRouting.InitialEdges | app/fx.js:176-183 | the modulation wiring plus the passthrough that the constructor's `connectNodes()` leaves |
| FxRouting.Disconnected | app/fx.js:186-192 | the edge set without every edge leaving the input or a registry node; `FxChain.DisconnectNodes` is proved equal to it |
| FxRouting.ChainNodes | app/fx.js:198-202 | the node list starts at the input, ends at the output, and holds the named effects between them in order |
| FxRouting.ChainEdges | app/fx.js:198-202 | `connect(input, ...names.map(name => fx[name]), output)`; characterised by `ChainEdgesMembership` |
| FxRouting.Rewire | app/fx.js:194-203 | the disconnected edges plus the chain's; stated by `RewireRouting` and `RewireLastWins`, and `FxChain.ConnectNodes` is proved equal to it |
| FxRouting.ChainEdgesMembership | app/fx.js:198-202 | a chain edge is exactly input -> first, last -> output, or consecutive named effects |
| FxRouting.ChainEdgeJoinsNeighbours | app/fx.js:198-202 | the "only if" half of that: every chain edge joins neighbours |
| FxRouting.NeighboursAreJoined | app/fx.js:198-202 | the "if" half of that: every pair of neighbours is joined |
| FxRouting.EmptyChainIsPassthrough | app/fx.js:194-203 | `connectNodes()` with the default `[]` wires only input -> output |
| FxRouting.ChainEnds | app/fx.js:198-202 | in a chain the input has one successor (the first effect, or the output) and the output has one predecessor |
| FxRouting.UnnamedEffectIsIsolated | app/fx.js:194-203 | a registry node that is not named has no chain edge in or out |
| FxRouting.ChainSourcesAreCleared | app/fx.js:186-203 | every chain edge leaves a node that `disconnectNodes` clears |
| FxRouting.RewireRouting | app/fx.js:186-203 | after `connectNodes(names)`, the edges leaving the input and the registry nodes are exactly the chain's, and every other edge is as before |
| FxRouting.RewireLastWins | app/fx.js:194-203 | a second `connectNodes` erases the first one's registry edges; in particular `connectNodes` is idempotent |
| FxRouting.DisconnectKeepsModulation | app/fx.js:176-192 | the lfo -> am2 -> am.modulator.frequency wiring survives every disconnection |
| FxRouting.FxChain.constructor | app/fx.js:161-184 | builds the registry, the lfo (0.7, 1000) and am2 (0.3, 1), and ends with the modulation wiring plus the passthrough |
| FxRouting.FxChain.DisconnectNodes | app/fx.js:186-192 | cutting the input, then each registry node in key order, removes exactly the edges leaving cleared nodes |
| FxRouting.FxChain.ConnectNodes | app/fx.js:194-203 | the new edge set is the disconnected old one plus the chain's edges, and the modulation wiring is kept |
| Menagerie.FromPairs | app/Menagerie.js:49-51 | `_.fromPairs` has exactly the pairs' first components as keys |
| Menagerie.FromPairsLookup | app/Menagerie.js:49-51 | with distinct keys, each key maps to the value of its own pair |
| Menagerie.DecodeAll | app/Menagerie.js:49-50 | each `[name, fileName]` pair becomes `[name, buffer of fileName]`, in order |
| Menagerie.LoadBuffers | app/Menagerie.js:38-52 | `_.fromPairs` of the decoded pairs of `fileNames`; stated by `LoadBuffersKeys` |
| Menagerie.LoadBuffersKeys | app/Menagerie.js:38-52 | `loadBuffers` keeps exactly cissyStrut, impulse and notInLove, each mapped to the buffer of its own file |
| Menagerie.Step | app/Menagerie.js:24-33 | a start adds its source to those playing, a stop (thrown or not) removes it, other calls change nothing |
| Menagerie.Live | app/Menagerie.js:19-35 | the sources playing after a run of recorded calls; stated by `LiveAfterStop`, `LiveAfterStart` and `LiveAfterPlay` |
| Menagerie.StopCalls | app/Menagerie.js:31-35 | `stop()` makes one stop call when there is a source and none otherwise |
| Menagerie.StartCalls | app/Menagerie.js:22-28 | the calls of `play` after its `stop()`: create, start, and `onended` only when one is given |
| Menagerie.StartCallsInOrder | app/Menagerie.js:22-28 | `play` creates, then starts, then attaches `onended` only when one is given |
| Menagerie.LiveSnoc | app/Menagerie.js:19-35 | the sources that are playing change by one recorded call at a time |
| Menagerie.LiveAfterStop | app/Menagerie.js:31-35 | after `stop()` nothing plays, whether or not the platform throws, and also when there was never a source |
| Menagerie.LiveAfterStart | app/Menagerie.js:22-28 | starting a source when none plays leaves exactly that source playing |
| Menagerie.LiveAfterPlay | app/Menagerie.js:19-29 | after `play`, exactly one source plays: the new one |
| Menagerie.Cissy.constructor | app/Menagerie.js:14-17 | keeps the cissyStrut buffer and the chain; no source, no calls |
| Menagerie.Cissy.Stop | app/Menagerie.js:31-35 | stops the current source if there is one, swallows a throw, keeps the source field, and leaves nothing playing |
| Menagerie.Cissy.Play | app/Menagerie.js:19-29 | records the stop calls, then the start calls for a new source; links that source to the chain input; exactly that source plays |
| Menagerie.Cissy.Start | app/Menagerie.js:22-28 | the part of `play` after `stop()`: new source, one new edge to the chain, recorded calls in order |
| Menagerie.FlattenPadGrid | app/SamplerControl.js:7-12 | the pad grid read row by row is 1 2 3 4 Q W E R A S D F Z X C V |
| Menagerie.StepwiseIncreasing | app/Menagerie.js:62-67 | proof step for `OffsetsFollowPads`, a general fact: a sequence that grows at each step grows strictly overall |
| Menagerie.OffsetTableMatchesPads | app/Menagerie.js:62-67 | the offset table's keys are exactly the sixteen pads of the grid |
| Menagerie.PadOffsetsLookup | app/Menagerie.js:62-67 | the offsets of the pad keys, in grid order, are the table's values |
| Menagerie.OffsetsFollowPads | app/Menagerie.js:62-67 | the offsets strictly increase in the grid's row-major order |
| Menagerie.Samplers.constructor | app/Menagerie.js:57-68 | one fresh sampler over the notInLove buffer with that offset table |
| Menagerie.Samplers.Play | app/Menagerie.js:71-73 | `play(sample)` triggers the key now, for 0.2 s |
| Menagerie.PresetNames | app/Menagerie.js:116-147 | the presets are, in order, the property names the source passes, and all are registry keys |
| Menagerie.Preset1StartsPreset2 | app/Menagerie.js:116-134 | preset 1 is a prefix of preset 2 |
| Menagerie.Preset2IsRegistryWithoutAm | app/Menagerie.js:124-134 | preset 2 is the registry without `am`, each key once |
| Menagerie.Preset3IsPermutation | app/Menagerie.js:136-147 | preset 3 lists all eight keys, each exactly once |
| Menagerie.Preset2BypassesAm | app/Menagerie.js:124-134 | under preset 2 no edge leaves `am`, and the chain adds no edge into it |
| Menagerie.VoiceEdges | app/Menagerie.js:103-105 | samplers -> chain input, synth -> chain input, chain output -> destination; kept by `RewireKeepsVoices` |
| Menagerie.RewireKeepsVoices | app/Menagerie.js:103-105 | no preset cuts the samplers or the synth off the chain, or the chain off the destination |
| Menagerie.Menagerie.constructor | app/Menagerie.js:88-106 | keeps `buffers`; the chain's registry is built over the impulse buffer and its edges are the registry rewired to preset 1 plus the voice connections; Cissy holds the cissyStrut buffer with no source and no calls; the sampler holds the notInLove buffer and offset table and has played nothing |
| Menagerie.Menagerie.ConnectVoices | app/Menagerie.js:103-105 | adds samplers -> chain, synth -> chain and chain -> destination |
| Menagerie.Menagerie.SetPreset1 | app/Menagerie.js:116-122 | rewires the chain to preset 1 |
| Menagerie.Menagerie.SetPreset2 | app/Menagerie.js:124-134 | rewires the chain to preset 2 |
| Menagerie.Menagerie.SetPreset3 | app/Menagerie.js:136-147 | rewires the chain to preset 3 |
| Menagerie.Menagerie.PlaySample | app/Menagerie.js:108-110 | forwards to the samplers' `play` |
| Menagerie.Menagerie.PlayCissy | app/Menagerie.js:149-151 | Cissy's new source is the next one created; the recorded calls grow by the stop of the old source (if any) and the create, start and optional `onended` of the new one; afterwards exactly the new source plays, linked to the chain |
| Menagerie.Menagerie.StopCissy | app/Menagerie.js:153-155 | the recorded calls grow by one stop of the current source, if there is one, and no source is created; afterwards nothing plays |
| Sequencer.Indexed | app/pattern.js:28-32 | `split("").map(...)`: note i carries offset i, character i and the id |
| Sequencer.KeepSounding | app/pattern.js:33 | `.filter(note => note.sample !== ' ')`; stated by the three `KeepSounding` lemmas |
| Sequencer.MapPattern | app/pattern.js:27-33 | `mapPattern(pattern, id)`; fully characterised by `MapPatternExact` |
| Sequencer.KeepSoundingMembers | app/pattern.js:33 | the filter keeps a note exactly when its sample is not a space |
| Sequencer.KeepSoundingIncreasing | app/pattern.js:30-33 | the filter keeps the beat offsets strictly increasing |
| Sequencer.KeepSoundingSamples | app/pattern.js:33 | the kept notes' samples are the input's samples without the spaces |
| Sequencer.SamplesSpell | app/pattern.js:28-32 | proof step for `MapPatternExact`, a general fact: notes made one per character spell the string |
| Sequencer.SamplesLength | app/pattern.js:33 | proof step for `MapPatternExact`, a general fact: one sample per note |
| Sequencer.MapPatternExact | app/pattern.js:27-33 | one note per non-space character, with that character, its index as offset and the given id; offsets strictly increase and stay below the length; the note count is the number of non-space characters |
| Sequencer.Dispatch | app/pattern.js:14-18 | the callback's effect for one note: one `play(sample, when)` if the id is active, nothing otherwise; `Pattern.OnNote` is proved to append it |
| Sequencer.DispatchAll | app/pattern.js:14-18 | a run of callbacks plays at most one sample per note |
| Sequencer.PatternIsAllOrNothing | app/pattern.js:14-18 | a pattern's notes share one id, so the callback plays all of them, each at its own `when`, or none |
| Sequencer.PatternLoop | app/pattern.js:21 | `addLoop(pattern.length, mapPattern(pattern, id))` for one pattern |
| Sequencer.Loops | app/pattern.js:20-22 | the loops of the `forEach`, pattern i with id firstId + i; `Pattern.constructor` is proved to register exactly these |
| Sequencer.LoopEnabled | app/pattern.js:20-22 | loop i is as long as pattern i, its notes carry id firstId + i, and it sounds exactly when that id is active |
| Sequencer.Pattern.constructor | app/pattern.js:11-25 | one loop per pattern in order on a stopped scheduler at tempo 400; active ids {1} |
| Sequencer.Pattern.OnNote | app/pattern.js:14-18 | the callback plays `note.sample` at `when`, unchanged, exactly when the id is active, and otherwise does nothing |
| Sequencer.Pattern.Play | app/pattern.js:35-37 | starts the scheduler; the loops stay |
| Sequencer.Pattern.Stop | app/pattern.js:39-41 | stops the scheduler; the loops stay |
| PatternFiles.NewOneBasedPattern | app/pattern.js:3-25 | app/pattern.js's patterns, with ids from 1 |
| PatternFiles.NewZeroBasedPattern | app/Pattern.js:3-25 | app/Pattern.js's patterns, with ids from 0 |
| PatternFiles.PatternsAreNonEmpty | app/pattern.js:4-9 | the loops last 32, 32 and 8 steps, and each starts with a note |
| PatternFiles.OneBasedEnablesFirst | app/pattern.js:20-24 | with ids from 1, the initial set {1} enables the first pattern only |
| PatternFiles.ZeroBasedEnablesSecond | app/Pattern.js:20-24 | with ids from 0, the initial set {1} enables only the second pattern, "X XZX ..." |
| PatternFiles.PatternStringsPlayPads | app/Pattern.js:4-9 | every non-space character of either file's patterns is a key of the offset table; the two lists differ only in their first pattern |
| PatternFiles.PatternSamplesHaveOffsets | app/Pattern.js:4-9 | every note either file's loops play has an offset in the notInLove table |
| PatternFiles.PlayedSamplesAreKeys | app/pattern.js:27-33 | a pattern playing only table keys makes notes whose samples are table keys |
| PatternFiles.FirstNoteIsKept | app/pattern.js:27-33 | a pattern that starts with a note keeps it, at offset 0 |
| Waveform.SampleIndexInBounds | app/BufferViewer.js:88-93 | with `samplesPerPixel = floor(length / width)`, every index `i * samplesPerPixel` with `i < width` is inside a non-empty buffer |
| Waveform.ScaleIsStrict | app/BufferViewer.js:93 | proof step for `SampleIndexInBounds`, a general fact: scaling by a positive factor keeps `i < width` strict |
| Waveform.RawAmplitude | app/BufferViewer.js:93-95 | pixel i's amplitude: the root of the magnitude of the channel mean at index `i * floor(length / width)` |
| Waveform.RawAmplitudes | app/BufferViewer.js:92-97 | the amplitudes the loop pushes, one per pixel column; `GetAmplitudes` is proved to build exactly these |
| Waveform.RawAmplitudesShape | app/BufferViewer.js:92-97 | there are `width` raw amplitudes, none negative |
| Waveform.Peak | app/BufferViewer.js:103 | the `reduce` result is an element of a non-empty list and at least every element |
| Waveform.NormalizeAmplitudes | app/BufferViewer.js:102-105 | no result exactly for the empty list (`reduce` throws) or a zero peak (NaN); otherwise the same length, each value times the peak giving the input value |
| Waveform.QuotientBounds | app/BufferViewer.js:104 | proof step for `NormalizedRange`, a general fact: a share of a positive peak lies in [0, 1], and is 1 only at the peak |
| Waveform.NormalizedRange | app/BufferViewer.js:103-104 | for non-negative input, every normalised value is in [0, 1], it is 1 exactly where the input equals the peak, and some value is 1 |
| Waveform.PeakIsZeroIffSilent | app/BufferViewer.js:103 | for non-negative input the peak is 0 exactly when every value is 0 |
| Waveform.GetAmplitudes | app/BufferViewer.js:86-100 | the loop yields the normalised raw amplitudes: no result when the width is 0 or every sample is silent; otherwise `width` values in [0, 1] with some value at 1 |

## Left out

- Audio signal values are not modelled: no oscillator output, no gain
  automation and no sample data flowing through nodes. Nodes are ids, and
  `connect` is a set of edges.
- `Distortion`, `FeedbackDelay`, `Reverb`, the dynamics compressor,
  `HarmonicSynth` and `getAudioBuffer` belong to the `sine` library. They
  appear only as registry entries or node ids, with their arguments.
- `createTimeDomainAnalyser` and the `Warper` analyser are left out. They use
  timers and a debug-only floating-point RMS.
- The asynchronous loading in `loadBuffers` (`Promise.all`) and the
  module-level promise are left out. Only the key-to-buffer mapping is
  modelled.
- `playAtPosition` and `playNote` are left out. They use floating-point
  duration arithmetic and `Math.random`.
- `getAmplitudes` takes the square root as a parameter `root`. It is assumed
  non-negative on non-negative numbers, and its precision is not modelled.
- Waveform.GetAmplitudes: requires a stereo buffer whose two channels have
  the same, non-zero length. Web Audio buffers always have at least one frame,
  and all channels of a buffer share one length. A mono buffer is not modelled:
  for it the source's `getChannelData(1)` throws.
- Menagerie.Live: a stop that the platform rejects with an exception counts as
  stopped. The source swallows that exception (app/Menagerie.js:32-34); its
  comment names Safari, which throws when the source has already stopped. So
  `LiveAfterStop` holds whether or not the platform throws. A platform that
  throws and keeps the source playing is not modelled.
- `normalizeAmplitudes` models the source's throw on an empty list, and its
  all-NaN result for a zero peak, as `None`.
- `Menagerie.Samplers.Play` records the call. Resolving a key to an offset is
  the sampler library's business.
- The scheduler's timing and look-ahead are not modelled. Neither is its
  invoking the callback: `Sequencer.Pattern.OnNote` is the callback, and
  `Sequencer.DispatchAll` is a run of it.
- `setPattern`, `changeSampler` and `current()` are left out. They are called
  from the UI on objects outside this model.
- Duplicate names in a chain cannot be wired twice in series here: in an edge
  set a repeated node becomes a self-edge or a shared node. No claim is made
  about duplicates.
- The source throws on an unknown effect name after it has already
  disconnected. That cannot be expressed, because names are a closed
  enumeration.
- The source does not check that the buffer keys impulse, cissyStrut and
  notInLove are present. The model states their presence as constructor
  preconditions; `Menagerie.LoadBuffersKeys` shows that `loadBuffers` provides
  them.
- The React components, the canvas drawing and the build configuration are
  left out.
