/**
 * The effect registry `FxChain` of app/fx.js. The audio graph around it is a
 * set of directed edges between node ids; `connectNodes(names)` cuts every
 * edge leaving the chain's input or a registry node and then wires
 * input -> names... -> output. The registry's string keys are the constructors
 * of `FxName`, so a name is always one of the eight (see `Key`).
 */
module FxRouting {
  import opened Sine
  import opened FxNodes

  /** The nodes of the audio graph that the core wires. */
  datatype NodeId =
    | Input                      // the chain's own input
    | Output                     // the chain's own output
    | Fx(name: FxName)           // the registry node under that key
    | ModulationLfo              // `new LFO(0.7, 1000)` in the constructor
    | ModulationAm               // `new AM(0.3, 1)` in the constructor
    | AmModulatorFrequency       // the frequency parameter of `fx.am.modulator`
    | CissySource(id: nat)       // a buffer source made by `Cissy.play`
    | SamplersOut                // the output of `Samplers`
    | SynthOut                   // the output of the harmonic synth
    | Destination                // the audio context's destination

  type Edges = set<(NodeId, NodeId)>

  /** The keys of the `this.fx` object literal. */
  datatype FxName =
    | ChorusKey | MultiplierKey | TremoloKey | DistortionKey
    | DelayKey | ReverbKey | CompressorKey | AmKey

  /** The property name each key has in the source. */
  function Key(n: FxName): string
  {
    match n
    case ChorusKey => "chorus"
    case MultiplierKey => "multiplier"
    case TremoloKey => "tremolo"
    case DistortionKey => "distortion"
    case DelayKey => "delay"
    case ReverbKey => "reverb"
    case CompressorKey => "compressor"
    case AmKey => "am"
  }

  /** Distinct keys have distinct property names, none of them empty. */
  lemma KeyIsInjective(a: FxName, b: FxName)
    ensures Key(a) == Key(b) <==> a == b
    ensures |Key(a)| > 0
  {
    if a != b {
      assert Key(a)[0] != Key(b)[0] || |Key(a)| != |Key(b)|;
    }
  }

  /** A registry entry: the node built under each key, with its arguments. */
  datatype Effect =
    | ChorusFx(chorus: StereoChorus)
    | MultiplierFx(multiplier: Multiplier)
    | TremoloFx(tremolo: Am)
    | DistortionFx(amount: real)
    | FeedbackDelayFx
    | ReverbFx(mix: real, impulse: Buffer)
    | CompressorFx
    | AmFx(am: Am)

  /** The registry's keys in the order the object literal lists them. */
  const RegistryOrder: seq<FxName> :=
    [ChorusKey, MultiplierKey, TremoloKey, DistortionKey, DelayKey, ReverbKey, CompressorKey, AmKey]

  const RegistryKeys: set<FxName> :=
    {ChorusKey, MultiplierKey, TremoloKey, DistortionKey, DelayKey, ReverbKey, CompressorKey, AmKey}

  /** The registry that the constructor builds. */
  function Registry(impulse: Buffer): (fx: map<FxName, Effect>)
    ensures fx.Keys == RegistryKeys
  {
    map[
      ChorusKey := ChorusFx(NewStereoChorus(0.5, 5.0)),
      MultiplierKey := MultiplierFx(Multiplier(0.4)),
      TremoloKey := TremoloFx(NewTremolo(5.0, 0.3)),
      DistortionKey := DistortionFx(1.5),
      DelayKey := FeedbackDelayFx,
      ReverbKey := ReverbFx(0.3, impulse),
      CompressorKey := CompressorFx,
      AmKey := AmFx(NewAm(2000.0, 1.0))]
  }

  /** The registry's eight keys, each listed once, in the literal's order. */
  lemma RegistryOrderIsExact()
    ensures |RegistryOrder| == 8
    ensures forall i, j :: 0 <= i < j < |RegistryOrder| ==> RegistryOrder[i] != RegistryOrder[j]
    ensures forall i :: 0 <= i < |RegistryOrder| ==>
              Key(RegistryOrder[i]) ==
              ["chorus", "multiplier", "tremolo", "distortion", "delay", "reverb", "compressor", "am"][i]
  {
  }

  /** Every key is in the registry, and in the order `Object.keys` visits. */
  lemma KeyIsRegistered(n: FxName)
    ensures n in RegistryKeys && n in RegistryOrder
  {
    match n
    case ChorusKey =>
    case MultiplierKey =>
    case TremoloKey =>
    case DistortionKey =>
    case DelayKey =>
    case ReverbKey =>
    case CompressorKey =>
    case AmKey =>
  }

  /**
   * The parameters that the registry's AM-type entries get: the tremolo is an
   * AM with centre gain 1 at 5 Hz and depth 0.3; the ring modulator `am` keeps
   * the default centre gain 0 at 2000 Hz and depth 1.
   */
  lemma RegistryModulators(impulse: Buffer)
    ensures Registry(impulse)[TremoloKey] == TremoloFx(NewAm(5.0, 0.3, 1.0))
    ensures Registry(impulse)[TremoloKey].tremolo.centerGain == 1.0
    ensures Registry(impulse)[AmKey].am.centerGain == 0.0
    ensures forall m :: -1.0 <= m <= 1.0 ==>
              0.7 <= SignalGain(Registry(impulse)[TremoloKey].tremolo, m) <= 1.3
    ensures forall m :: -1.0 <= m <= 1.0 ==>
              -1.0 <= SignalGain(Registry(impulse)[AmKey].am, m) <= 1.0
  {
    var fx := Registry(impulse);
    forall m | -1.0 <= m <= 1.0
      ensures 0.7 <= SignalGain(fx[TremoloKey].tremolo, m) <= 1.3
      ensures -1.0 <= SignalGain(fx[AmKey].am, m) <= 1.0
    {
      GainRange(fx[TremoloKey].tremolo, m);
      GainRange(fx[AmKey].am, m);
    }
  }

  /**
   * The modulation-of-modulation wiring made once by the constructor:
   * `connect(lfo, am2, fx.am.modulator.frequency)`.
   */
  function ModulationEdges(): Edges
  {
    Connect([ModulationLfo, ModulationAm, AmModulatorFrequency])
  }

  /** The nodes whose outgoing edges `disconnectNodes` cuts: the input and every registry node. */
  predicate Cleared(n: NodeId)
  {
    n == Input || n.Fx?
  }

  /** The edge set after `disconnectNodes()`. */
  function Disconnected(edges: Edges): Edges
  {
    set e | e in edges && !Cleared(e.0)
  }

  /** The node list `[input, ...names.map(name => fx[name]), output]`. */
  function ChainNodes(names: seq<FxName>): (nodes: seq<NodeId>)
    ensures |nodes| == |names| + 2
    ensures nodes[0] == Input && nodes[|names| + 1] == Output
    ensures forall i :: 0 <= i < |names| ==> nodes[i + 1] == Fx(names[i])
  {
    [Input] + seq(|names|, i requires 0 <= i < |names| => Fx(names[i])) + [Output]
  }

  /** The edges that `connect(input, ...names, output)` adds. */
  function ChainEdges(names: seq<FxName>): Edges
  {
    Connect(ChainNodes(names))
  }

  /** The edge set after `connectNodes(names)`. */
  function Rewire(edges: Edges, names: seq<FxName>): Edges
  {
    Disconnected(edges) + ChainEdges(names)
  }

  /** The first node after the input: the first named effect, or the output. */
  function First(names: seq<FxName>): NodeId
  {
    if names == [] then Output else Fx(names[0])
  }

  /** The last node before the output: the last named effect, or the input. */
  function Last(names: seq<FxName>): NodeId
  {
    if names == [] then Input else Fx(names[|names| - 1])
  }

  /** The chain's edges join exactly the neighbours of `[input] + names + [output]`. */
  lemma ChainEdgesMembership(names: seq<FxName>, a: NodeId, b: NodeId)
    ensures (a, b) in ChainEdges(names) <==>
            || (a == Input && b == First(names))
            || (a == Last(names) && b == Output && names != [])
            || (exists i :: 0 <= i < |names| - 1 && a == Fx(names[i]) && b == Fx(names[i + 1]))
  {
    if (a, b) in ChainEdges(names) {
      ChainEdgeJoinsNeighbours(names, a, b);
    }
    if || (a == Input && b == First(names))
       || (a == Last(names) && b == Output && names != [])
       || (exists i :: 0 <= i < |names| - 1 && a == Fx(names[i]) && b == Fx(names[i + 1]))
    {
      NeighboursAreJoined(names, a, b);
    }
  }

  lemma ChainEdgeJoinsNeighbours(names: seq<FxName>, a: NodeId, b: NodeId)
    requires (a, b) in ChainEdges(names)
    ensures || (a == Input && b == First(names))
            || (a == Last(names) && b == Output && names != [])
            || (exists i :: 0 <= i < |names| - 1 && a == Fx(names[i]) && b == Fx(names[i + 1]))
  {
    var nodes := ChainNodes(names);
    ConnectMembership(nodes, a, b);
    var i :| 0 <= i < |nodes| - 1 && nodes[i] == a && nodes[i + 1] == b;
    if 0 < i < |names| {
      assert a == Fx(names[i - 1]) && b == Fx(names[i]);
    }
  }

  lemma NeighboursAreJoined(names: seq<FxName>, a: NodeId, b: NodeId)
    requires || (a == Input && b == First(names))
             || (a == Last(names) && b == Output && names != [])
             || (exists i :: 0 <= i < |names| - 1 && a == Fx(names[i]) && b == Fx(names[i + 1]))
    ensures (a, b) in ChainEdges(names)
  {
    var nodes := ChainNodes(names);
    ConnectMembership(nodes, a, b);
    if a == Input && b == First(names) {
      assert nodes[0] == a && nodes[1] == b;
    } else if a == Last(names) && b == Output && names != [] {
      assert nodes[|names|] == a && nodes[|names| + 1] == b;
    } else {
      var i :| 0 <= i < |names| - 1 && a == Fx(names[i]) && b == Fx(names[i + 1]);
      assert nodes[i + 1] == a && nodes[i + 2] == b;
    }
  }

  /** With no names the chain is the single passthrough edge input -> output. */
  lemma {:induction false} EmptyChainIsPassthrough()
    ensures ChainEdges([]) == {(Input, Output)}
  {
    assert ChainNodes([]) == [Input, Output];
  }

  /** The input has exactly one successor in the chain, and the output one predecessor. */
  lemma ChainEnds(names: seq<FxName>)
    ensures forall x :: (Input, x) in ChainEdges(names) <==> x == First(names)
    ensures forall x :: (x, Output) in ChainEdges(names) <==> x == Last(names)
  {
    forall x
      ensures (Input, x) in ChainEdges(names) <==> x == First(names)
      ensures (x, Output) in ChainEdges(names) <==> x == Last(names)
    {
      ChainEdgesMembership(names, Input, x);
      ChainEdgesMembership(names, x, Output);
      if names == [] {
        EmptyChainIsPassthrough();
      }
    }
  }

  /** A registry node that is not named has no edge in the chain at all. */
  lemma UnnamedEffectIsIsolated(names: seq<FxName>, key: FxName)
    requires key !in names
    ensures forall e :: e in ChainEdges(names) ==> e.0 != Fx(key) && e.1 != Fx(key)
  {
    forall e | e in ChainEdges(names) ensures e.0 != Fx(key) && e.1 != Fx(key) {
      ChainEdgeJoinsNeighbours(names, e.0, e.1);
    }
  }

  /** Every edge of a chain leaves a node that `disconnectNodes` cuts. */
  lemma ChainSourcesAreCleared(names: seq<FxName>)
    ensures forall e :: e in ChainEdges(names) ==> Cleared(e.0)
  {
    forall e | e in ChainEdges(names) ensures Cleared(e.0) {
      ChainEdgesMembership(names, e.0, e.1);
    }
  }

  /**
   * After `connectNodes(names)` the edges leaving the input and the registry
   * nodes are exactly the chain's, and every other edge is as before.
   */
  lemma RewireRouting(edges: Edges, names: seq<FxName>)
    ensures forall e :: e in Rewire(edges, names) && Cleared(e.0) <==> e in ChainEdges(names)
    ensures forall e: (NodeId, NodeId) :: !Cleared(e.0) ==> (e in Rewire(edges, names) <==> e in edges)
  {
    ChainSourcesAreCleared(names);
  }

  /**
   * The last `connectNodes` wins: what an earlier call wired leaves no stale
   * registry edge behind. In particular `connectNodes` is idempotent.
   */
  lemma RewireLastWins(edges: Edges, first: seq<FxName>, second: seq<FxName>)
    ensures Rewire(Rewire(edges, first), second) == Rewire(edges, second)
    ensures Rewire(Rewire(edges, second), second) == Rewire(edges, second)
  {
    RewireRouting(edges, first);
    RewireRouting(Rewire(edges, first), second);
    RewireRouting(edges, second);
    RewireRouting(Rewire(edges, second), second);
  }

  /** The modulation wiring does not leave a cleared node, so no disconnection removes it. */
  lemma DisconnectKeepsModulation(edges: Edges)
    requires ModulationEdges() <= edges
    ensures ModulationEdges() <= Disconnected(edges)
  {
    forall e | e in ModulationEdges() ensures !Cleared(e.0) {
      assert e.0 in [ModulationLfo, ModulationAm, AmModulatorFrequency];
    }
  }

  /** The state `FxChain` is constructed in: the modulation wiring plus the passthrough. */
  function InitialEdges(): Edges
  {
    ModulationEdges() + {(Input, Output)}
  }

  class FxChain {
    const fx: map<FxName, Effect>
    const lfo: Lfo
    const am2: Am
    var edges: Edges

    ghost predicate Valid()
      reads this
    {
      fx.Keys == RegistryKeys && ModulationEdges() <= edges
    }

    constructor (buffers: map<string, Buffer>)
      requires "impulse" in buffers
      ensures Valid()
      ensures fx == Registry(buffers["impulse"])
      ensures lfo == NewLfo(0.7, 1000.0) && am2 == NewAm(0.3, 1.0)
      ensures edges == InitialEdges()
    {
      fx := Registry(buffers["impulse"]);
      lfo := NewLfo(0.7, 1000.0);
      am2 := NewAm(0.3, 1.0);
      edges := ModulationEdges();
      new;
      ConnectNodes();
      EmptyChainIsPassthrough();
      DisconnectKeepsModulation(ModulationEdges());
    }

    /** `disconnectNodes()`: cut the input's edges, then each registry node's. */
    method DisconnectNodes()
      requires Valid()
      modifies this
      ensures Valid()
      ensures edges == Disconnected(old(edges))
    {
      edges := set e | e in edges && e.0 != Input;
      var keys := RegistryOrder;
      for i := 0 to |keys|
        invariant edges ==
          set e | e in old(edges) && e.0 != Input && !(e.0.Fx? && e.0.name in keys[..i])
      {
        edges := set e | e in edges && e.0 != Fx(keys[i]);
        assert keys[..i + 1] == keys[..i] + [keys[i]];
      }
      assert keys[..|keys|] == keys;
      forall e | e in edges ensures !Cleared(e.0) {
        if e.0.Fx? {
          KeyIsRegistered(e.0.name);
        }
      }
      DisconnectKeepsModulation(old(edges));
    }

    /** `connectNodes(nodeNames = [])`. */
    method ConnectNodes(names: seq<FxName> := [])
      requires Valid()
      modifies this
      ensures Valid()
      ensures edges == Rewire(old(edges), names)
    {
      DisconnectNodes();
      edges := edges + ChainEdges(names);
    }
  }
}
