/**
 * The modulation and processing nodes of app/fx.js: their constructor
 * arguments, and the fixed internal wiring of the splitter and the stereo
 * chorus. Signal values are not modelled; what is modelled is which port is
 * connected to which, and the parameters every node is built with.
 */
module FxNodes {

  /** `new LFO(frequency, gain, real, imag)`: an oscillator with one Fourier term, through a gain. */
  datatype Lfo = Lfo(frequency: real, gain: real, realCoefficient: real, imagCoefficient: real)

  function NewLfo(frequency: real, gain: real := 1.0, re: real := 1.0, im: real := 0.0): Lfo
  {
    Lfo(frequency, gain, re, im)
  }

  /**
   * `new Warper(lfoFrequency, amount, real, imag)`: a delay line of at most 2 s,
   * starting at 1 ms, whose delay time is driven by a unit-gain LFO scaled by
   * `amount / 1000` (so `amount` is the modulation depth in milliseconds).
   */
  datatype Warper = Warper(lfo: Lfo, depthSeconds: real, maxDelay: real, initialDelay: real)

  function NewWarper(lfoFrequency: real, amount: real, re: real, im: real): Warper
  {
    Warper(NewLfo(lfoFrequency, 1.0, re, im), amount / 1000.0, 2.0, 0.001)
  }

  /** `new StereoChorus(lfoFrequency, amount)`: a 0.5 dry gain and three warpers. */
  datatype StereoChorus = StereoChorus(dryGain: real, warpers: seq<Warper>)

  function NewStereoChorus(lfoFrequency: real, amount: real): StereoChorus
  {
    StereoChorus(0.5, [NewWarper(lfoFrequency, amount, -1.0, 1.0),
                       NewWarper(lfoFrequency, amount, 1.0, 1.0),
                       NewWarper(lfoFrequency, amount, 1.0, -1.0)])
  }

  /** The phase of a warper's LFO, as its coefficient pair. */
  function Phase(w: Warper): (real, real)
  {
    (w.lfo.realCoefficient, w.lfo.imagCoefficient)
  }

  /**
   * The three chorus warpers share one LFO rate, gain and depth, and differ
   * only in phase: their coefficient pairs are (-1,1), (1,1), (1,-1), pairwise
   * distinct.
   */
  lemma ChorusWarpers(lfoFrequency: real, amount: real)
    ensures var ws := NewStereoChorus(lfoFrequency, amount).warpers;
      && |ws| == 3
      && (forall i :: 0 <= i < 3 ==>
            ws[i].lfo.frequency == lfoFrequency && ws[i].lfo.gain == 1.0 &&
            ws[i].depthSeconds == amount / 1000.0)
      && Phase(ws[0]) == (-1.0, 1.0) && Phase(ws[1]) == (1.0, 1.0) && Phase(ws[2]) == (1.0, -1.0)
      && (forall i, j :: 0 <= i < j < 3 ==> Phase(ws[i]) != Phase(ws[j]))
  {
  }

  /** The ports inside a stereo chorus (its splitter's ports included). */
  datatype ChorusPort =
    | ChorusInput | ChorusOutput | DryGain
    | SplitterInput | SplitterOutput | ChannelSplitter | ChannelMerger
    | InputL | InputR | OutputL | OutputR
    | WarperNode(k: nat)

  /** A connection from output `output` of `src` to input `input` of `dst`. */
  datatype Link = Link(src: ChorusPort, output: nat, dst: ChorusPort, input: nat)

  /** `connect(a, b)` between two ports: output 0 to input 0. */
  function Wire(a: ChorusPort, b: ChorusPort): Link
  {
    Link(a, 0, b, 0)
  }

  /** The links that `new Splitter()` makes. */
  function SplitterLinks(): set<Link>
  {
    { Wire(SplitterInput, ChannelSplitter),       // connect(this.input, splitter)
      Link(ChannelSplitter, 0, InputL, 0),        // splitter.connect(this.inputL, 0)
      Link(ChannelSplitter, 1, InputR, 0),        // splitter.connect(this.inputR, 1)
      Link(OutputL, 0, ChannelMerger, 0),         // this.outputL.connect(merger, 0, 0)
      Link(OutputR, 0, ChannelMerger, 1),         // this.outputR.connect(merger, 0, 1)
      Wire(ChannelMerger, SplitterOutput) }       // connect(merger, this.output)
  }

  /** The links that `new StereoChorus(...)` makes, its splitter's included. */
  function ChorusLinks(): set<Link>
  {
    SplitterLinks() +
    { Wire(InputL, WarperNode(1)), Wire(InputL, WarperNode(2)),
      Wire(InputR, WarperNode(2)), Wire(InputR, WarperNode(3)),
      Wire(WarperNode(1), OutputL), Wire(WarperNode(2), OutputL),
      Wire(WarperNode(2), OutputR), Wire(WarperNode(3), OutputR),
      // connect(this.input, gain, splitter, this.output)
      Wire(ChorusInput, DryGain), Wire(DryGain, SplitterInput), Wire(SplitterOutput, ChorusOutput) }
  }

  /** The ports a port sends to. */
  function Targets(links: set<Link>, p: ChorusPort): set<ChorusPort>
  {
    set l | l in links && l.src == p :: l.dst
  }

  /** The ports a port receives from. */
  function Sources(links: set<Link>, p: ChorusPort): set<ChorusPort>
  {
    set l | l in links && l.dst == p :: l.src
  }

  /**
   * The splitter sends channel 0 to the left tap and channel 1 to the right
   * tap, and merges the left output into merger input 0 and the right into 1;
   * nothing else leaves its channel splitter or enters its merger.
   */
  lemma SplitterRouting()
    ensures forall l :: l in SplitterLinks() && l.src == ChannelSplitter <==>
              l == Link(ChannelSplitter, 0, InputL, 0) || l == Link(ChannelSplitter, 1, InputR, 0)
    ensures forall l :: l in SplitterLinks() && l.dst == ChannelMerger <==>
              l == Link(OutputL, 0, ChannelMerger, 0) || l == Link(OutputR, 0, ChannelMerger, 1)
    ensures Targets(SplitterLinks(), SplitterInput) == {ChannelSplitter}
    ensures Sources(SplitterLinks(), SplitterOutput) == {ChannelMerger}
  {
    var ls := SplitterLinks();
    assert Wire(SplitterInput, ChannelSplitter) in ls;
    assert Wire(ChannelMerger, SplitterOutput) in ls;
  }

  /** The left tap feeds warpers 1 and 2. */
  lemma LeftTapTargets()
    ensures Targets(ChorusLinks(), InputL) == {WarperNode(1), WarperNode(2)}
  {
    var ls := ChorusLinks();
    assert Wire(InputL, WarperNode(1)) in ls;
    assert Wire(InputL, WarperNode(2)) in ls;
  }

  /** The right tap feeds warpers 2 and 3. */
  lemma RightTapTargets()
    ensures Targets(ChorusLinks(), InputR) == {WarperNode(2), WarperNode(3)}
  {
    var ls := ChorusLinks();
    assert Wire(InputR, WarperNode(2)) in ls;
    assert Wire(InputR, WarperNode(3)) in ls;
  }

  /** Warpers 1 and 2 feed the left output. */
  lemma LeftOutputSources()
    ensures Sources(ChorusLinks(), OutputL) == {WarperNode(1), WarperNode(2)}
  {
    var ls := ChorusLinks();
    assert Wire(WarperNode(1), OutputL) in ls;
    assert Wire(WarperNode(2), OutputL) in ls;
  }

  /** Warpers 2 and 3 feed the right output. */
  lemma RightOutputSources()
    ensures Sources(ChorusLinks(), OutputR) == {WarperNode(2), WarperNode(3)}
  {
    var ls := ChorusLinks();
    assert Wire(WarperNode(2), OutputR) in ls;
    assert Wire(WarperNode(3), OutputR) in ls;
  }

  /**
   * The chorus cross-feed: the left tap feeds warpers 1 and 2, the right tap
   * warpers 2 and 3; warpers 1 and 2 feed the left output, 2 and 3 the right.
   * Each set is proved by its own lemma above: proving them together in one
   * lemma costs the solver several times as much.
   */
  lemma ChorusCrossFeed()
    ensures Targets(ChorusLinks(), InputL) == {WarperNode(1), WarperNode(2)}
    ensures Targets(ChorusLinks(), InputR) == {WarperNode(2), WarperNode(3)}
    ensures Sources(ChorusLinks(), OutputL) == {WarperNode(1), WarperNode(2)}
    ensures Sources(ChorusLinks(), OutputR) == {WarperNode(2), WarperNode(3)}
  {
    LeftTapTargets();
    RightTapTargets();
    LeftOutputSources();
    RightOutputSources();
  }

  /** Warper 2 is the only warper fed by both channels and feeding both outputs. */
  lemma SharedWarper(k: nat)
    ensures WarperNode(k) in Targets(ChorusLinks(), InputL) * Targets(ChorusLinks(), InputR) <==> k == 2
    ensures WarperNode(k) in Sources(ChorusLinks(), OutputL) * Sources(ChorusLinks(), OutputR) <==> k == 2
  {
    ChorusCrossFeed();
  }

  /** The chorus input feeds only the dry gain. */
  lemma InputTargets()
    ensures Targets(ChorusLinks(), ChorusInput) == {DryGain}
  {
    var ls := ChorusLinks();
    assert Wire(ChorusInput, DryGain) in ls;
  }

  /** The dry gain feeds only the splitter. */
  lemma DryGainTargets()
    ensures Targets(ChorusLinks(), DryGain) == {SplitterInput}
  {
    var ls := ChorusLinks();
    assert Wire(DryGain, SplitterInput) in ls;
  }

  /** Only the splitter feeds the chorus output. */
  lemma OutputSources()
    ensures Sources(ChorusLinks(), ChorusOutput) == {SplitterOutput}
  {
    var ls := ChorusLinks();
    assert Wire(SplitterOutput, ChorusOutput) in ls;
  }

  /**
   * The chorus's outer path: its input goes only to the 0.5 dry gain, the dry
   * gain only to the splitter, and only the splitter reaches the chorus output.
   * As for the cross-feed, each port has its own lemma, for solver cost.
   */
  lemma ChorusOuterPath()
    ensures Targets(ChorusLinks(), ChorusInput) == {DryGain}
    ensures Targets(ChorusLinks(), DryGain) == {SplitterInput}
    ensures Sources(ChorusLinks(), ChorusOutput) == {SplitterOutput}
    ensures forall lfoFrequency, amount :: NewStereoChorus(lfoFrequency, amount).dryGain == 0.5
  {
    InputTargets();
    DryGainTargets();
    OutputSources();
  }

  /** `new Multiplier(mix)`: a mix node whose input drives its own signal gain. */
  datatype Multiplier = Multiplier(mix: real)

  /**
   * `new AM(frequency, amount, centerGain)`: a mix node (wet mix 0.4) whose
   * signal gain has the intrinsic value `centerGain`, added to an oscillator
   * at `frequency` scaled by `amount`.
   */
  datatype Am = Am(frequency: real, amount: real, centerGain: real, mix: real)

  function NewAm(frequency: real, amount: real, centerGain: real := 0.0): Am
  {
    Am(frequency, amount, centerGain, 0.4)
  }

  /** `new Tremolo(frequency, amount)`: an AM with centre gain 1. */
  function NewTremolo(frequency: real, amount: real): Am
  {
    NewAm(frequency, amount, 1.0)
  }

  /** The signal gain of an AM node when its oscillator outputs `m` (in [-1, 1]). */
  function SignalGain(am: Am, m: real): real
  {
    am.centerGain + am.amount * m
  }

  /**
   * The signal gain of an AM node ranges exactly over
   * [centerGain - amount, centerGain + amount].
   */
  lemma GainRange(am: Am, m: real)
    requires am.amount >= 0.0 && -1.0 <= m <= 1.0
    ensures am.centerGain - am.amount <= SignalGain(am, m) <= am.centerGain + am.amount
  {
    assert am.amount * m <= am.amount * 1.0 by {
      assert am.amount * (1.0 - m) >= 0.0;
    }
    assert am.amount * m >= am.amount * -1.0 by {
      assert am.amount * (m + 1.0) >= 0.0;
    }
  }

  /** Every gain in [centerGain - amount, centerGain + amount] is reached. */
  lemma GainReached(am: Am, g: real)
    requires am.amount > 0.0
    requires am.centerGain - am.amount <= g <= am.centerGain + am.amount
    ensures var m := (g - am.centerGain) / am.amount;
      -1.0 <= m <= 1.0 && SignalGain(am, m) == g
  {
    var m := (g - am.centerGain) / am.amount;
    assert am.amount * m == g - am.centerGain;
    assert -am.amount <= am.amount * m <= am.amount;
  }

  /** A tremolo of depth at most 1 never inverts the signal. */
  lemma TremoloIsUnipolar(frequency: real, amount: real, m: real)
    requires 0.0 <= amount <= 1.0 && -1.0 <= m <= 1.0
    ensures SignalGain(NewTremolo(frequency, amount), m) >= 0.0
  {
    GainRange(NewTremolo(frequency, amount), m);
  }

  /** An AM with the default centre gain 0 is bipolar: opposite modulator values give opposite gains. */
  lemma DefaultAmIsBipolar(frequency: real, amount: real, m: real)
    ensures NewAm(frequency, amount).centerGain == 0.0
    ensures SignalGain(NewAm(frequency, amount), -m) == -SignalGain(NewAm(frequency, amount), m)
  {
  }
}
