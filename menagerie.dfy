/**
 * app/Menagerie.js: the Cissy one-shot voice, the buffer table built by
 * `loadBuffers`, the `Samplers` offset table, the three effect presets and the
 * `Menagerie` object that wires them to one `FxChain`.
 */
module Menagerie {
  import opened Optional
  import opened Sine
  import opened FxRouting

  // ---------------------------------------------------------------------------
  // loadBuffers

  /** The `fileNames` object, as the pairs `_.toPairs` lists in key order. */
  const FileNames: seq<(string, string)> := [
    ("cissyStrut", "cissy-strut-start.mp3"),
    ("impulse", "conic_echo_long_hall_short.mp3"),
    ("notInLove", "notinlove.mp3")]

  /** `_.fromPairs(pairs)`: each pair sets its key, a later pair overriding an earlier one. */
  function FromPairs<K, V>(pairs: seq<(K, V)>): (m: map<K, V>)
    ensures m.Keys == set i | 0 <= i < |pairs| :: pairs[i].0
  {
    if pairs == [] then map[]
    else
      var last := pairs[|pairs| - 1];
      var init := pairs[..|pairs| - 1];
      var m := FromPairs(init);
      assert forall i :: 0 <= i < |init| ==> init[i] == pairs[i];
      m[last.0 := last.1]
  }

  /** With distinct keys, `fromPairs` maps every key to the value of its own pair. */
  lemma {:induction false} FromPairsLookup<K, V>(pairs: seq<(K, V)>, i: nat)
    requires forall a, b :: 0 <= a < b < |pairs| ==> pairs[a].0 != pairs[b].0
    requires i < |pairs|
    ensures pairs[i].0 in FromPairs(pairs) && FromPairs(pairs)[pairs[i].0] == pairs[i].1
  {
    if i < |pairs| - 1 {
      var init := pairs[..|pairs| - 1];
      FromPairsLookup(init, i);
      assert init[i] == pairs[i];
    }
  }

  /** `.map(([name, fileName]) => [name, buffer of fileName])`. */
  function DecodeAll(pairs: seq<(string, string)>): seq<(string, Buffer)>
  {
    seq(|pairs|, i requires 0 <= i < |pairs| => (pairs[i].0, Decoded(pairs[i].1)))
  }

  /** The object of buffers that `loadBuffers()` resolves to. */
  function LoadBuffers(): map<string, Buffer>
  {
    FromPairs(DecodeAll(FileNames))
  }

  /**
   * `loadBuffers()` keeps exactly the keys of `fileNames`, and maps each to
   * the buffer decoded from its own file.
   */
  lemma LoadBuffersKeys()
    ensures LoadBuffers().Keys == {"cissyStrut", "impulse", "notInLove"}
    ensures LoadBuffers()["cissyStrut"] == Decoded("cissy-strut-start.mp3")
    ensures LoadBuffers()["impulse"] == Decoded("conic_echo_long_hall_short.mp3")
    ensures LoadBuffers()["notInLove"] == Decoded("notinlove.mp3")
  {
    var pairs := DecodeAll(FileNames);
    assert pairs[0].0 == "cissyStrut" && pairs[1].0 == "impulse" && pairs[2].0 == "notInLove";
    assert (set i | 0 <= i < |pairs| :: pairs[i].0) == {"cissyStrut", "impulse", "notInLove"};
    FromPairsLookup(pairs, 0);
    FromPairsLookup(pairs, 1);
    FromPairsLookup(pairs, 2);
  }

  // ---------------------------------------------------------------------------
  // Cissy

  /** A callback handed to `play`, by identity. */
  type CallbackId = nat

  /** The calls `Cissy` makes on its buffer sources. */
  datatype SourceCall =
    | CreateSource(src: nat, buffer: Buffer)     // createBufferSource(this.buffer)
    | StartSource(src: nat)                      // cissySource.start()
    | SetOnEnded(src: nat, callback: CallbackId) // cissySource.onended = onended
    | StopSource(src: nat, threw: bool)          // cissySource.stop(), which may throw

  /**
   * The sources that are playing after a sequence of calls: started and not
   * stopped since. A stop that throws is one the platform refused because the
   * source had already stopped, so it counts as stopped too.
   */
  function Live(calls: seq<SourceCall>): set<nat>
  {
    if calls == [] then {} else Step(Live(calls[..|calls| - 1]), calls[|calls| - 1])
  }

  /** The sources playing after call `c`, given those playing before it. */
  function Step(live: set<nat>, c: SourceCall): set<nat>
  {
    match c
    case StartSource(src) => live + {src}
    case StopSource(src, _) => live - {src}
    case _ => live
  }

  /** The calls of `stop()`: one stop of the current source, if there is one. */
  function StopCalls(current: Option<nat>, threw: bool): seq<SourceCall>
  {
    if current.Some? then [StopSource(current.value, threw)] else []
  }

  /** The calls of `play(onended)` after its `stop()`, for new source `src`. */
  function StartCalls(src: nat, buffer: Buffer, onended: Option<CallbackId>): seq<SourceCall>
  {
    [CreateSource(src, buffer), StartSource(src)] +
    (if onended.Some? then [SetOnEnded(src, onended.value)] else [])
  }

  /** `StartCalls` lists the calls of `play` in the order it makes them. */
  lemma StartCallsInOrder(calls: seq<SourceCall>, src: nat, buffer: Buffer, onended: Option<CallbackId>)
    ensures var started := calls + [CreateSource(src, buffer)] + [StartSource(src)];
      calls + StartCalls(src, buffer, onended) ==
      if onended.Some? then started + [SetOnEnded(src, onended.value)] else started
  {
  }

  /** Appending one call changes the live set by that call alone. */
  lemma LiveSnoc(calls: seq<SourceCall>, c: SourceCall)
    ensures Live(calls + [c]) == Step(Live(calls), c)
  {
    assert (calls + [c])[..|calls|] == calls;
  }

  /** `stop()` leaves nothing playing, whatever the platform does with the stop. */
  lemma {:induction false} LiveAfterStop(calls: seq<SourceCall>, current: Option<nat>, threw: bool)
    requires Live(calls) <= (if current.Some? then {current.value} else {})
    ensures Live(calls + StopCalls(current, threw)) == {}
  {
    if current.Some? {
      LiveSnoc(calls, StopSource(current.value, threw));
    } else {
      assert calls + [] == calls;
    }
  }

  /** Starting a source when none is playing leaves exactly that one playing. */
  lemma {:induction false} LiveAfterStart(calls: seq<SourceCall>, src: nat, buffer: Buffer,
                                          onended: Option<CallbackId>)
    requires Live(calls) == {}
    ensures Live(calls + StartCalls(src, buffer, onended)) == {src}
  {
    var created := calls + [CreateSource(src, buffer)];
    LiveSnoc(calls, CreateSource(src, buffer));
    var started := created + [StartSource(src)];
    LiveSnoc(created, StartSource(src));
    StartCallsInOrder(calls, src, buffer, onended);
    if onended.Some? {
      LiveSnoc(started, SetOnEnded(src, onended.value));
    }
  }

  /**
   * `play` stops the previous source before it starts the new one, so afterwards
   * exactly one source, the new one, is playing.
   */
  lemma {:induction false} LiveAfterPlay(calls: seq<SourceCall>, current: Option<nat>, threw: bool,
                                         src: nat, buffer: Buffer, onended: Option<CallbackId>)
    requires Live(calls) <= (if current.Some? then {current.value} else {})
    ensures Live(calls + StopCalls(current, threw) + StartCalls(src, buffer, onended)) == {src}
  {
    LiveAfterStop(calls, current, threw);
    LiveAfterStart(calls + StopCalls(current, threw), src, buffer, onended);
  }

  /** The Cissy Strut one-shot: at most one buffer source, replaced on every `play`. */
  class Cissy {
    const buffer: Buffer
    const fxChain: FxChain
    var cissySource: Option<nat>
    /** How many sources have been created: the next one gets this id. */
    var created: nat
    var calls: seq<SourceCall>

    ghost predicate Valid()
      reads this
    {
      && (cissySource.Some? ==> cissySource.value < created)
      && Live(calls) <= (if cissySource.Some? then {cissySource.value} else {})
    }

    constructor (fxChain: FxChain, buffers: map<string, Buffer>)
      requires "cissyStrut" in buffers
      ensures Valid()
      ensures buffer == buffers["cissyStrut"] && this.fxChain == fxChain
      ensures cissySource == None && created == 0 && calls == []
    {
      buffer := buffers["cissyStrut"];
      this.fxChain := fxChain;
      cissySource := None;
      created := 0;
      calls := [];
    }

    /**
     * `stop()`: stop the current source if there is one; an exception from
     * the platform (`platformThrows`) is swallowed. The source is not forgotten.
     */
    method Stop(platformThrows: bool)
      requires Valid()
      modifies this
      ensures Valid()
      ensures cissySource == old(cissySource) && created == old(created)
      ensures calls == old(calls) + StopCalls(old(cissySource), platformThrows)
      ensures Live(calls) == {}
    {
      LiveAfterStop(calls, cissySource, platformThrows);
      if cissySource.Some? {
        calls := calls + [StopSource(cissySource.value, platformThrows)];
      }
    }

    /**
     * `play(onended)`: stop the previous source, then create a source for the
     * buffer, connect it to the effect chain, start it, and attach `onended`
     * when one is given.
     */
    method Play(onended: Option<CallbackId>, stopThrows: bool)
      requires Valid() && fxChain.Valid()
      modifies this, fxChain
      ensures Valid() && fxChain.Valid()
      ensures cissySource == Some(old(created)) && created == old(created) + 1
      ensures calls == old(calls) + StopCalls(old(cissySource), stopThrows)
                       + StartCalls(old(created), buffer, onended)
      ensures fxChain.edges == old(fxChain.edges) + {(CissySource(old(created)), Input)}
      ensures Live(calls) == {old(created)}
    {
      Stop(stopThrows);
      Start(onended);
    }

    /** The part of `play` after its `stop()`, once nothing is playing. */
    method Start(onended: Option<CallbackId>)
      requires Valid() && fxChain.Valid() && Live(calls) == {}
      modifies this, fxChain
      ensures Valid() && fxChain.Valid()
      ensures cissySource == Some(old(created)) && created == old(created) + 1
      ensures calls == old(calls) + StartCalls(old(created), buffer, onended)
      ensures fxChain.edges == old(fxChain.edges) + {(CissySource(old(created)), Input)}
      ensures Live(calls) == {old(created)}
    {
      ghost var stopped := calls;
      var src := created;
      created := created + 1;
      calls := calls + [CreateSource(src, buffer)];
      ConnectPair(CissySource(src), Input);
      fxChain.edges := fxChain.edges + Connect([CissySource(src), Input]);
      calls := calls + [StartSource(src)];
      if onended.Some? {
        calls := calls + [SetOnEnded(src, onended.value)];
      }
      cissySource := Some(src);
      StartCallsInOrder(stopped, src, buffer, onended);
      LiveAfterStart(stopped, src, buffer, onended);
    }
  }

  // ---------------------------------------------------------------------------
  // Samplers

  /** The pad grid of app/SamplerControl.js, row by row. */
  const PadGrid: seq<seq<char>> := [
    ['1', '2', '3', '4'],
    ['Q', 'W', 'E', 'R'],
    ['A', 'S', 'D', 'F'],
    ['Z', 'X', 'C', 'V']]

  /** The rows of a grid one after the other. */
  function Flatten(grid: seq<seq<char>>): seq<char>
  {
    if grid == [] then [] else grid[0] + Flatten(grid[1..])
  }

  /** Start offsets in seconds of the samples cut out of notinlove.mp3. */
  const NotInLoveOffsets: map<char, real> := map[
    '1' := 0.5,   '2' := 2.0,   '3' := 3.0,    '4' := 3.5,
    'Q' := 4.98,  'W' := 5.5,   'E' := 10.03,  'R' := 10.55,
    'A' := 27.25, 'S' := 30.0,  'D' := 31.0,   'F' := 31.8,
    'Z' := 33.55, 'X' := 34.2,  'C' := 37.1,   'V' := 40.61]

  /** The pad keys in row-major order. */
  const PadKeys: seq<char> := ['1', '2', '3', '4', 'Q', 'W', 'E', 'R', 'A', 'S', 'D', 'F', 'Z', 'X', 'C', 'V']

  lemma FlattenPadGrid()
    ensures Flatten(PadGrid) == PadKeys
  {
    assert PadGrid[1..][1..][1..][1..] == [];
  }

  /** A sequence that grows at each step grows strictly overall. */
  lemma {:induction false} StepwiseIncreasing(s: seq<real>)
    requires forall i :: 0 <= i < |s| - 1 ==> s[i] < s[i + 1]
    ensures forall i, j :: 0 <= i < j < |s| ==> s[i] < s[j]
  {
    if |s| > 1 {
      StepwiseIncreasing(s[1..]);
      forall j | 1 < j < |s| ensures s[0] < s[j] {
        assert s[1..][0] < s[1..][j - 1];
      }
      forall i, j | 0 < i < j < |s| ensures s[i] < s[j] {
        assert s[1..][i - 1] < s[1..][j - 1];
      }
    }
  }

  /** The offset table has exactly the sixteen pad keys of the grid. */
  lemma OffsetTableMatchesPads()
    ensures |Flatten(PadGrid)| == 16
    ensures NotInLoveOffsets.Keys == set i | 0 <= i < 16 :: Flatten(PadGrid)[i]
  {
    FlattenPadGrid();
    assert (set i | 0 <= i < 16 :: PadKeys[i]) == NotInLoveOffsets.Keys by {
      assert forall c :: c in NotInLoveOffsets.Keys ==> c in PadKeys;
    }
  }

  /** The offsets of the pad keys, in the grid's row-major order. */
  const PadOffsets: seq<real> := [0.5, 2.0, 3.0, 3.5, 4.98, 5.5, 10.03, 10.55,
                                  27.25, 30.0, 31.0, 31.8, 33.55, 34.2, 37.1, 40.61]

  lemma PadOffsetsLookup()
    ensures |PadOffsets| == |PadKeys|
    ensures forall i :: 0 <= i < |PadKeys| ==>
              PadKeys[i] in NotInLoveOffsets && NotInLoveOffsets[PadKeys[i]] == PadOffsets[i]
  {
  }

  /** The offsets grow strictly in the grid's row-major order. */
  lemma OffsetsFollowPads()
    ensures forall i, j :: 0 <= i < j < |Flatten(PadGrid)| ==>
              Flatten(PadGrid)[i] in NotInLoveOffsets && Flatten(PadGrid)[j] in NotInLoveOffsets &&
              NotInLoveOffsets[Flatten(PadGrid)[i]] < NotInLoveOffsets[Flatten(PadGrid)[j]]
  {
    FlattenPadGrid();
    PadOffsetsLookup();
    StepwiseIncreasing(PadOffsets);
  }

  /** `Samplers`: one keyed sampler over notinlove.mp3. */
  class Samplers {
    const buffers: map<string, Buffer>
    const notInLove: SingleBufferSampler

    constructor (buffers: map<string, Buffer>)
      requires "notInLove" in buffers
      ensures this.buffers == buffers && fresh(notInLove)
      ensures notInLove.buffer == buffers["notInLove"] && notInLove.offsets == NotInLoveOffsets
      ensures notInLove.triggers == []
    {
      this.buffers := buffers;
      notInLove := new SingleBufferSampler(buffers["notInLove"], NotInLoveOffsets);
    }

    /** `play(sample)`: trigger the key now, for 0.2 seconds. */
    method Play(sample: char)
      modifies notInLove
      ensures notInLove.triggers == old(notInLove.triggers) + [Trigger(sample, 0.0, Some(0.2))]
    {
      notInLove.Play(sample, 0.0, Some(0.2));
    }
  }

  // ---------------------------------------------------------------------------
  // Presets

  /** chorus, multiplier, tremolo */
  const Preset1: seq<FxName> := [ChorusKey, MultiplierKey, TremoloKey]

  /** chorus, multiplier, tremolo, distortion, delay, reverb, compressor */
  const Preset2: seq<FxName> :=
    [ChorusKey, MultiplierKey, TremoloKey, DistortionKey, DelayKey, ReverbKey, CompressorKey]

  /** reverb, am, multiplier, chorus, tremolo, compressor, delay, distortion */
  const Preset3: seq<FxName> :=
    [ReverbKey, AmKey, MultiplierKey, ChorusKey, TremoloKey, CompressorKey, DelayKey, DistortionKey]

  /**
   * The presets name, in order, the properties that app/Menagerie.js passes to
   * `connectNodes`, and every one of them is a registry key.
   */
  lemma PresetNames()
    ensures forall i :: 0 <= i < |Preset1| ==>
              Key(Preset1[i]) == ["chorus", "multiplier", "tremolo"][i]
    ensures forall i :: 0 <= i < |Preset2| ==>
              Key(Preset2[i]) ==
              ["chorus", "multiplier", "tremolo", "distortion", "delay", "reverb", "compressor"][i]
    ensures forall i :: 0 <= i < |Preset3| ==>
              Key(Preset3[i]) ==
              ["reverb", "am", "multiplier", "chorus", "tremolo", "compressor", "delay", "distortion"][i]
    ensures forall n :: n in Preset1 + Preset2 + Preset3 ==> n in RegistryKeys
  {
    forall n | n in Preset1 + Preset2 + Preset3 ensures n in RegistryKeys {
      KeyIsRegistered(n);
    }
  }

  /** Preset 1 is the start of preset 2. */
  lemma Preset1StartsPreset2()
    ensures Preset1 == Preset2[..|Preset1|]
  {
  }

  /** Preset 2 is the registry without `am`, each key once. */
  lemma Preset2IsRegistryWithoutAm()
    ensures (set i | 0 <= i < |Preset2| :: Preset2[i]) == RegistryKeys - {AmKey}
    ensures forall i, j :: 0 <= i < j < |Preset2| ==> Preset2[i] != Preset2[j]
  {
    var s := set i | 0 <= i < |Preset2| :: Preset2[i];
    assert s == {Preset2[0], Preset2[1], Preset2[2], Preset2[3], Preset2[4], Preset2[5], Preset2[6]};
  }

  /** Preset 3 is a reordering of all eight registry keys: each appears exactly once. */
  lemma Preset3IsPermutation()
    ensures |Preset3| == |RegistryOrder|
    ensures forall i, j :: 0 <= i < j < |Preset3| ==> Preset3[i] != Preset3[j]
    ensures forall n: FxName :: n in Preset3
  {
    forall n: FxName ensures n in Preset3 {
      match n
      case ChorusKey => assert Preset3[3] == n;
      case MultiplierKey => assert Preset3[2] == n;
      case TremoloKey => assert Preset3[4] == n;
      case DistortionKey => assert Preset3[7] == n;
      case DelayKey => assert Preset3[6] == n;
      case ReverbKey => assert Preset3[0] == n;
      case CompressorKey => assert Preset3[5] == n;
      case AmKey => assert Preset3[1] == n;
    }
  }

  /** Under preset 2 the `am` node is cut off: nothing leaves it and the chain does not enter it. */
  lemma Preset2BypassesAm(edges: Edges)
    ensures forall e :: e in Rewire(edges, Preset2) ==>
              e.0 != Fx(AmKey) && (e.1 == Fx(AmKey) ==> e in edges)
  {
    RewireRouting(edges, Preset2);
    UnnamedEffectIsIsolated(Preset2, AmKey);
  }

  // ---------------------------------------------------------------------------
  // Menagerie

  /** The fixed connections the constructor makes into and out of the chain. */
  function VoiceEdges(): Edges
  {
    // connect(this.samplers, this.fxChain); connect(this.synth, this.fxChain, ctx.destination)
    {(SamplersOut, Input), (SynthOut, Input), (Output, Destination)}
  }

  /** No preset ever cuts the voices off the chain, or the chain off the destination. */
  lemma RewireKeepsVoices(edges: Edges, names: seq<FxName>)
    requires VoiceEdges() <= edges
    ensures VoiceEdges() <= Rewire(edges, names)
  {
    assert forall e :: e in VoiceEdges() ==> !Cleared(e.0);
  }

  class Menagerie {
    const buffers: map<string, Buffer>
    const fxChain: FxChain
    const cissy: Cissy
    const samplers: Samplers

    ghost predicate Valid()
      reads this, fxChain, cissy
    {
      fxChain.Valid() && cissy.Valid() && cissy.fxChain == fxChain
    }

    /**
     * Build the chain and apply preset 1, build the voices, and connect them.
     * The source calls `setPreset1()` before it builds Cissy and the samplers;
     * here they are built first, as every field must be set before a method
     * runs. Building them touches no edge, so the final state is the same.
     */
    constructor (buffers: map<string, Buffer>)
      requires "cissyStrut" in buffers && "impulse" in buffers && "notInLove" in buffers
      ensures Valid()
      ensures fresh(fxChain) && fresh(cissy) && fresh(samplers) && fresh(samplers.notInLove)
      ensures fxChain.fx == Registry(buffers["impulse"])
      ensures fxChain.edges == Rewire(InitialEdges(), Preset1) + VoiceEdges()
      ensures this.buffers == buffers && cissy.buffer == buffers["cissyStrut"]
      ensures cissy.cissySource == None && cissy.created == 0 && cissy.calls == []
      ensures samplers.notInLove.buffer == buffers["notInLove"] && samplers.notInLove.offsets == NotInLoveOffsets
      ensures samplers.notInLove.triggers == []
    {
      this.buffers := buffers;
      var chain := new FxChain(buffers);
      fxChain := chain;
      cissy := new Cissy(chain, buffers);
      samplers := new Samplers(buffers);
      new;
      SetPreset1();
      ConnectVoices();
    }

    /** `connect(this.samplers, this.fxChain)` and `connect(this.synth, this.fxChain, ctx.destination)`. */
    method ConnectVoices()
      requires Valid()
      modifies fxChain
      ensures Valid() && fxChain.edges == old(fxChain.edges) + VoiceEdges()
    {
      fxChain.edges := fxChain.edges + VoiceEdges();
    }

    method SetPreset1()
      requires Valid()
      modifies fxChain
      ensures Valid() && fxChain.edges == Rewire(old(fxChain.edges), Preset1)
    {
      fxChain.ConnectNodes(Preset1);
    }

    method SetPreset2()
      requires Valid()
      modifies fxChain
      ensures Valid() && fxChain.edges == Rewire(old(fxChain.edges), Preset2)
    {
      fxChain.ConnectNodes(Preset2);
    }

    method SetPreset3()
      requires Valid()
      modifies fxChain
      ensures Valid() && fxChain.edges == Rewire(old(fxChain.edges), Preset3)
    {
      fxChain.ConnectNodes(Preset3);
    }

    method PlaySample(sample: char)
      modifies samplers.notInLove
      ensures samplers.notInLove.triggers ==
              old(samplers.notInLove.triggers) + [Trigger(sample, 0.0, Some(0.2))]
    {
      samplers.Play(sample);
    }

    method PlayCissy(onended: Option<CallbackId>, stopThrows: bool)
      requires Valid()
      modifies cissy, fxChain
      ensures Valid() && Live(cissy.calls) == {old(cissy.created)}
      ensures cissy.cissySource == Some(old(cissy.created)) && cissy.created == old(cissy.created) + 1
      ensures cissy.calls == old(cissy.calls) + StopCalls(old(cissy.cissySource), stopThrows)
                             + StartCalls(old(cissy.created), cissy.buffer, onended)
      ensures fxChain.edges == old(fxChain.edges) + {(CissySource(old(cissy.created)), Input)}
    {
      cissy.Play(onended, stopThrows);
    }

    method StopCissy(platformThrows: bool)
      requires Valid()
      modifies cissy
      ensures Valid() && Live(cissy.calls) == {}
      ensures cissy.cissySource == old(cissy.cissySource) && cissy.created == old(cissy.created)
      ensures cissy.calls == old(cissy.calls) + StopCalls(old(cissy.cissySource), platformThrows)
    {
      cissy.Stop(platformThrows);
    }
  }
}
