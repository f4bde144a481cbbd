/**
 * What the core sees of the external `sine` audio library. Nodes, buffers,
 * the sampler and the scheduler are not implemented here: a node is an
 * abstract id, a decoded buffer is identified by the file it came from, and
 * the sampler and the scheduler record the calls made on them.
 */
module Sine {
  import opened Optional

  /** The decoded audio of one file, identified by that file's name. */
  datatype Buffer = Decoded(file: string)

  /**
   * The connections made by `connect(n1, n2, ..., nk)`: the output of each
   * node goes to the input of the next one.
   */
  function Connect<N(==)>(nodes: seq<N>): (edges: set<(N, N)>)
    ensures forall e :: e in edges ==> e.0 in nodes && e.1 in nodes
    ensures |nodes| >= 2 ==> (nodes[0], nodes[1]) in edges
    ensures |nodes| < 2 <==> edges == {}
  {
    if |nodes| < 2 then {} else {(nodes[0], nodes[1])} + Connect(nodes[1..])
  }

  /** An edge of `connect(n1, ..., nk)` joins exactly two neighbours of the list. */
  lemma ConnectMembership<N>(nodes: seq<N>, a: N, b: N)
    ensures (a, b) in Connect(nodes) <==>
            exists i :: 0 <= i < |nodes| - 1 && nodes[i] == a && nodes[i + 1] == b
  {
    if (a, b) in Connect(nodes) {
      ConnectedAreNeighbours(nodes, a, b);
    }
    if exists i :: 0 <= i < |nodes| - 1 && nodes[i] == a && nodes[i + 1] == b {
      var i :| 0 <= i < |nodes| - 1 && nodes[i] == a && nodes[i + 1] == b;
      NeighboursAreConnected(nodes, i);
    }
  }

  lemma {:induction false} ConnectedAreNeighbours<N>(nodes: seq<N>, a: N, b: N)
    requires (a, b) in Connect(nodes)
    ensures exists i :: 0 <= i < |nodes| - 1 && nodes[i] == a && nodes[i + 1] == b
  {
    if (a, b) != (nodes[0], nodes[1]) {
      ConnectedAreNeighbours(nodes[1..], a, b);
      var i :| 0 <= i < |nodes| - 2 && nodes[1..][i] == a && nodes[1..][i + 1] == b;
      assert nodes[i + 1] == a && nodes[i + 2] == b;
    }
  }

  lemma {:induction false} NeighboursAreConnected<N>(nodes: seq<N>, i: nat)
    requires i < |nodes| - 1
    ensures (nodes[i], nodes[i + 1]) in Connect(nodes)
  {
    if i > 0 {
      NeighboursAreConnected(nodes[1..], i - 1);
      assert nodes[1..][i - 1] == nodes[i] && nodes[1..][i] == nodes[i + 1];
    }
  }

  /** `connect(a, b)` makes the single edge from `a` to `b`. */
  lemma ConnectPair<N>(a: N, b: N)
    ensures Connect([a, b]) == {(a, b)}
  {
    assert [a, b][1..] == [b];
  }

  /** One call of `play(key, when, length)` on a keyed sampler. */
  datatype Trigger = Trigger(key: char, when: real, length: Option<real>)

  /**
   * A `SingleBufferSampler`: one buffer and a table from key to start offset
   * in seconds. Only the calls made on it are recorded; resolving a key to a
   * voice is the library's business.
   */
  class SingleBufferSampler {
    const buffer: Buffer
    const offsets: map<char, real>
    var triggers: seq<Trigger>

    constructor (buffer: Buffer, offsets: map<char, real>)
      ensures this.buffer == buffer && this.offsets == offsets && triggers == []
    {
      this.buffer := buffer;
      this.offsets := offsets;
      triggers := [];
    }

    method Play(key: char, when: real, length: Option<real>)
      modifies this
      ensures triggers == old(triggers) + [Trigger(key, when, length)]
    {
      triggers := triggers + [Trigger(key, when, length)];
    }
  }

  /** A loop registered with a scheduler: its length in steps and its events. */
  datatype Loop<E> = Loop(length: nat, events: seq<E>)

  /**
   * A `Scheduler(tempo, callback)`: records the loops added to it and whether
   * its clock runs. Its timing and its calls of the callback are not modelled.
   */
  class Scheduler<E> {
    const tempo: real
    var loops: seq<Loop<E>>
    var running: bool

    constructor (tempo: real)
      ensures this.tempo == tempo && loops == [] && !running
    {
      this.tempo := tempo;
      loops := [];
      running := false;
    }

    method AddLoop(length: nat, events: seq<E>)
      modifies this
      ensures loops == old(loops) + [Loop(length, events)] && running == old(running)
    {
      loops := loops + [Loop(length, events)];
    }

    method Start()
      modifies this
      ensures running && loops == old(loops)
    {
      running := true;
    }

    method Stop()
      modifies this
      ensures !running && loops == old(loops)
    {
      running := false;
    }
  }
}
