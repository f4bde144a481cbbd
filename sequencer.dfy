/**
 * The step-pattern sequencer of app/pattern.js and app/Pattern.js: a pattern
 * string becomes note events, one loop per pattern is registered with a
 * scheduler at tempo 400, and the scheduler callback plays a note
 * only when its pattern id is active. The two files share this class and
 * differ only in their pattern strings and in the id of the first pattern,
 * which are parameters here (see module PatternFiles).
 */
module Sequencer {
  import opened Optional
  import opened Sine

  /** `{ beatOffset, sample, id }`. */
  datatype Note = Note(beatOffset: nat, sample: char, id: int)

  /** A note of a pattern string that is not a rest. */
  predicate Sounding(n: Note)
  {
    n.sample != ' '
  }

  /** `pattern.split("").map((sample, beatOffset) => ({ beatOffset, sample, id }))`. */
  function Indexed(p: string, id: int): seq<Note>
  {
    seq(|p|, i requires 0 <= i < |p| => Note(i, p[i], id))
  }

  /** The samples of a note list, in order. */
  function Samples(notes: seq<Note>): seq<char>
  {
    if notes == [] then [] else [notes[0].sample] + Samples(notes[1..])
  }

  /** A string with its spaces removed: the reference for what a pattern plays. */
  function WithoutRests(s: string): string
  {
    if s == [] then [] else (if s[0] != ' ' then [s[0]] else []) + WithoutRests(s[1..])
  }

  /** Beat offsets that grow strictly along the list. */
  predicate Increasing(notes: seq<Note>)
  {
    forall i, j :: 0 <= i < j < |notes| ==> notes[i].beatOffset < notes[j].beatOffset
  }

  /** `.filter((note) => note.sample !== ' ')`. */
  function KeepSounding(notes: seq<Note>): seq<Note>
  {
    if notes == [] then []
    else (if Sounding(notes[0]) then [notes[0]] else []) + KeepSounding(notes[1..])
  }

  /** The filter keeps a note exactly when it is sounding. */
  lemma {:induction false} KeepSoundingMembers(notes: seq<Note>)
    ensures forall n :: n in KeepSounding(notes) <==> n in notes && Sounding(n)
  {
    if notes != [] {
      KeepSoundingMembers(notes[1..]);
      assert notes == [notes[0]] + notes[1..];
    }
  }

  /** The filter keeps the offsets increasing. */
  lemma {:induction false} KeepSoundingIncreasing(notes: seq<Note>)
    requires Increasing(notes)
    ensures Increasing(KeepSounding(notes))
  {
    if notes != [] {
      var tail := notes[1..];
      var rest := KeepSounding(tail);
      assert Increasing(tail) by {
        forall i, j | 0 <= i < j < |tail| ensures tail[i].beatOffset < tail[j].beatOffset {
          assert tail[i] == notes[i + 1] && tail[j] == notes[j + 1];
        }
      }
      KeepSoundingIncreasing(tail);
      if Sounding(notes[0]) {
        var kept := [notes[0]] + rest;
        assert forall n :: n in rest ==> notes[0].beatOffset < n.beatOffset by {
          KeepSoundingMembers(tail);
          forall n | n in rest ensures notes[0].beatOffset < n.beatOffset {
            var k :| 0 <= k < |tail| && tail[k] == n;
            assert notes[k + 1] == n;
          }
        }
        assert Increasing(kept) by {
          forall i, j | 0 <= i < j < |kept| ensures kept[i].beatOffset < kept[j].beatOffset {
            assert kept[j] == rest[j - 1] && kept[j] in rest;
            if i > 0 {
              assert kept[i] == rest[i - 1];
            }
          }
        }
      }
    }
  }

  /** The filter keeps the samples of its input without the rests. */
  lemma {:induction false} KeepSoundingSamples(notes: seq<Note>)
    ensures Samples(KeepSounding(notes)) == WithoutRests(Samples(notes))
  {
    if notes != [] {
      var rest := KeepSounding(notes[1..]);
      KeepSoundingSamples(notes[1..]);
      assert Samples(notes)[1..] == Samples(notes[1..]);
      if Sounding(notes[0]) {
        assert ([notes[0]] + rest)[1..] == rest;
      } else {
        assert [] + rest == rest;
      }
    }
  }

  /** `mapPattern(pattern, id)`. */
  function MapPattern(p: string, id: int): seq<Note>
  {
    KeepSounding(Indexed(p, id))
  }

  /** Notes whose samples are the characters of `p`, one for one, spell `p`. */
  lemma {:induction false} SamplesSpell(notes: seq<Note>, p: string)
    requires |notes| == |p|
    requires forall i :: 0 <= i < |p| ==> notes[i].sample == p[i]
    ensures Samples(notes) == p
  {
    if p != [] {
      SamplesSpell(notes[1..], p[1..]);
    }
  }

  /**
   * `mapPattern(p, id)` has one note per non-space character of `p`: each
   * note carries `id`, its character and that character's index; every
   * non-space character has its note; the offsets grow strictly (so the notes
   * are in string order), and the samples spell `p` without its spaces.
   */
  lemma MapPatternExact(p: string, id: int)
    ensures forall n :: n in MapPattern(p, id) ==>
              n.id == id && n.beatOffset < |p| && p[n.beatOffset] == n.sample && Sounding(n)
    ensures forall i :: 0 <= i < |p| && p[i] != ' ' ==> Note(i, p[i], id) in MapPattern(p, id)
    ensures Increasing(MapPattern(p, id))
    ensures Samples(MapPattern(p, id)) == WithoutRests(p)
    ensures |MapPattern(p, id)| == |WithoutRests(p)|
  {
    var notes := Indexed(p, id);
    SamplesSpell(notes, p);
    KeepSoundingMembers(notes);
    KeepSoundingIncreasing(notes);
    KeepSoundingSamples(notes);
    forall i | 0 <= i < |p| && p[i] != ' ' ensures Note(i, p[i], id) in MapPattern(p, id) {
      assert notes[i] == Note(i, p[i], id);
    }
    SamplesLength(MapPattern(p, id));
  }

  lemma {:induction false} SamplesLength(notes: seq<Note>)
    ensures |Samples(notes)| == |notes|
  {
    if notes != [] {
      SamplesLength(notes[1..]);
    }
  }

  /** The callback's effect for one note: `if (patternIds.has(note.id)) sampler.play(note.sample, when)`. */
  function Dispatch(ids: set<int>, note: Note, when: real): seq<Trigger>
  {
    if note.id in ids then [Trigger(note.sample, when, None)] else []
  }

  /** The callback's effects for a run of notes, the `k`-th fired at `whens[k]`. */
  function DispatchAll(ids: set<int>, notes: seq<Note>, whens: seq<real>): (plays: seq<Trigger>)
    requires |whens| == |notes|
    ensures |plays| <= |notes|
  {
    if notes == [] then []
    else Dispatch(ids, notes[0], whens[0]) + DispatchAll(ids, notes[1..], whens[1..])
  }

  /**
   * A pattern's notes all carry one id, so the callback plays either the whole
   * pattern, each sample at its own time, or none of it.
   */
  lemma {:induction false} PatternIsAllOrNothing(ids: set<int>, notes: seq<Note>, id: int, whens: seq<real>)
    requires |whens| == |notes|
    requires forall n :: n in notes ==> n.id == id
    ensures DispatchAll(ids, notes, whens) ==
            if id in ids then seq(|notes|, k requires 0 <= k < |notes| => Trigger(notes[k].sample, whens[k], None))
            else []
  {
    if notes != [] {
      PatternIsAllOrNothing(ids, notes[1..], id, whens[1..]);
    }
  }

  /** The loop registered for one pattern: `addLoop(pattern.length, mapPattern(pattern, id))`. */
  function PatternLoop(p: string, id: int): Loop<Note>
  {
    Loop(|p|, MapPattern(p, id))
  }

  /** The loops registered for `patterns` in order, the first with id `firstId`. */
  function Loops(patterns: seq<string>, firstId: int): seq<Loop<Note>>
  {
    seq(|patterns|, i requires 0 <= i < |patterns| => PatternLoop(patterns[i], firstId + i))
  }

  /**
   * Loop `i` is as long as its pattern and all its notes carry id
   * `firstId + i`, so an active id set enables loop `i` exactly when it holds
   * `firstId + i`.
   */
  lemma LoopEnabled(patterns: seq<string>, firstId: int, ids: set<int>, i: nat)
    requires i < |patterns|
    ensures Loops(patterns, firstId)[i].length == |patterns[i]|
    ensures forall n :: n in Loops(patterns, firstId)[i].events ==> n.id == firstId + i
    ensures forall n :: n in Loops(patterns, firstId)[i].events ==> (n.id in ids <==> firstId + i in ids)
  {
    MapPatternExact(patterns[i], firstId + i);
  }

  /** `Pattern`: the loops of its patterns on a scheduler at tempo 400, filtered by `patternIds`. */
  class Pattern {
    const patterns: seq<string>
    const firstId: int
    const sampler: SingleBufferSampler
    const scheduler: Scheduler<Note>
    var patternIds: set<int>

    /**
     * The constructor: a scheduler at tempo 400, one loop per pattern in order
     * (the `forEach`), and `patternIds = new Set([1])`.
     */
    constructor (sampler: SingleBufferSampler, patterns: seq<string>, firstId: int)
      ensures this.sampler == sampler && this.patterns == patterns && this.firstId == firstId
      ensures fresh(scheduler) && scheduler.tempo == 400.0 && !scheduler.running
      ensures scheduler.loops == Loops(patterns, firstId)
      ensures patternIds == {1}
    {
      this.sampler := sampler;
      this.patterns := patterns;
      this.firstId := firstId;
      var s := new Scheduler<Note>(400.0);
      for i := 0 to |patterns|
        invariant fresh(s) && s.tempo == 400.0 && !s.running
        invariant |s.loops| == i
        invariant forall k :: 0 <= k < i ==> s.loops[k] == PatternLoop(patterns[k], firstId + k)
      {
        ghost var before := s.loops;
        s.AddLoop(|patterns[i]|, MapPattern(patterns[i], firstId + i));
        assert forall k :: 0 <= k < i ==> s.loops[k] == before[k];
      }
      scheduler := s;
      patternIds := {1};
    }

    /** The scheduler callback, for `note` due at time `when`. */
    method OnNote(note: Note, when: real)
      modifies sampler
      ensures sampler.triggers == old(sampler.triggers) + Dispatch(patternIds, note, when)
    {
      if note.id in patternIds {
        sampler.Play(note.sample, when, None);
      }
    }

    /** `play()`: start the scheduler; the loops stay as they are. */
    method Play()
      modifies scheduler
      ensures scheduler.running && scheduler.loops == old(scheduler.loops)
    {
      scheduler.Start();
    }

    /** `stop()`: stop the scheduler; the loops stay as they are. */
    method Stop()
      modifies scheduler
      ensures !scheduler.running && scheduler.loops == old(scheduler.loops)
    {
      scheduler.Stop();
    }
  }
}
