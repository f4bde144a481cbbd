/**
 * The two sequencer files: app/pattern.js numbers its patterns from 1 and
 * app/Pattern.js from 0, and their first patterns differ. Both start with the
 * active id set {1}, so each enables a different pattern at start.
 */
module PatternFiles {
  import opened Sine
  import opened Sequencer
  import Menagerie

  /** The patterns of app/pattern.js (ids `i + 1`). */
  const OneBasedPatterns: seq<string> := [
    "Q Q W QQ WQQW QWR R R ER E RERE ",
    "X XZX ZX ZXZC C X ZZXZZXZXZZC C ",
    "SASADASA"]

  /** The patterns of app/Pattern.js (ids `i`). */
  const ZeroBasedPatterns: seq<string> := [
    "Q Q W QQ WQQW W   R R ER E RE  E",
    "X XZX ZX ZXZC C X ZZXZZXZXZZC C ",
    "SASADASA"]

  /** `new Pattern(sampler)` of app/pattern.js. */
  method NewOneBasedPattern(sampler: SingleBufferSampler) returns (p: Pattern)
    ensures fresh(p) && fresh(p.scheduler) && p.sampler == sampler
    ensures p.patterns == OneBasedPatterns && p.firstId == 1
    ensures p.scheduler.loops == Loops(OneBasedPatterns, 1) && !p.scheduler.running
    ensures p.patternIds == {1}
  {
    p := new Pattern(sampler, OneBasedPatterns, 1);
  }

  /** `new Pattern(sampler)` of app/Pattern.js. */
  method NewZeroBasedPattern(sampler: SingleBufferSampler) returns (p: Pattern)
    ensures fresh(p) && fresh(p.scheduler) && p.sampler == sampler
    ensures p.patterns == ZeroBasedPatterns && p.firstId == 0
    ensures p.scheduler.loops == Loops(ZeroBasedPatterns, 0) && !p.scheduler.running
    ensures p.patternIds == {1}
  {
    p := new Pattern(sampler, ZeroBasedPatterns, 0);
  }

  /** Every note of the loop sounds under `ids`. */
  predicate Audible(loop: Loop<Note>, ids: set<int>)
  {
    forall n :: n in loop.events ==> n.id in ids
  }

  /** No note of the loop sounds under `ids`. */
  predicate Muted(loop: Loop<Note>, ids: set<int>)
  {
    forall n :: n in loop.events ==> n.id !in ids
  }

  /** Every pattern starts with a note, and the loops last 32, 32 and 8 steps. */
  lemma PatternsAreNonEmpty(patterns: seq<string>, firstId: int, i: nat)
    requires patterns == OneBasedPatterns || patterns == ZeroBasedPatterns
    requires i < |patterns|
    ensures Loops(patterns, firstId)[i].length == |patterns[i]| == (if i < 2 then 32 else 8)
    ensures Note(0, patterns[i][0], firstId + i) in Loops(patterns, firstId)[i].events
  {
    assert |patterns[i]| == (if i < 2 then 32 else 8) && patterns[i][0] != ' ';
    FirstNoteIsKept(patterns[i], firstId + i);
  }

  /** With ids from 1, the initial set {1} enables the first pattern only. */
  lemma OneBasedEnablesFirst(i: nat)
    requires i < |OneBasedPatterns|
    ensures i == 0 ==> Audible(Loops(OneBasedPatterns, 1)[i], {1})
    ensures i != 0 ==> Muted(Loops(OneBasedPatterns, 1)[i], {1})
  {
    LoopEnabled(OneBasedPatterns, 1, {1}, i);
  }

  /** With ids from 0, the initial set {1} enables the second pattern, "X XZX ...", only. */
  lemma ZeroBasedEnablesSecond(i: nat)
    requires i < |ZeroBasedPatterns|
    ensures i == 1 ==> Audible(Loops(ZeroBasedPatterns, 0)[i], {1})
    ensures i != 1 ==> Muted(Loops(ZeroBasedPatterns, 0)[i], {1})
    ensures ZeroBasedPatterns[1] == "X XZX ZX ZXZC C X ZZXZZXZXZZC C "
  {
    LoopEnabled(ZeroBasedPatterns, 0, {1}, i);
  }

  /** The characters that a pattern string plays, each a key of a sampler's offset table. */
  predicate PlaysKeysOf(p: string, offsets: map<char, real>)
  {
    forall k :: 0 <= k < |p| && p[k] != ' ' ==> p[k] in offsets
  }

  /** The four distinct pattern strings play only keys of the notinlove table. */
  lemma PatternStringsPlayPads()
    ensures PlaysKeysOf(OneBasedPatterns[0], Menagerie.NotInLoveOffsets)
    ensures PlaysKeysOf(ZeroBasedPatterns[0], Menagerie.NotInLoveOffsets)
    ensures OneBasedPatterns[1..] == ZeroBasedPatterns[1..]
    ensures PlaysKeysOf(OneBasedPatterns[1], Menagerie.NotInLoveOffsets)
    ensures PlaysKeysOf(OneBasedPatterns[2], Menagerie.NotInLoveOffsets)
  {
  }

  /** Every sample the patterns of either file play has an offset in the notinlove table. */
  lemma PatternSamplesHaveOffsets(patterns: seq<string>, firstId: int, i: nat)
    requires patterns == OneBasedPatterns || patterns == ZeroBasedPatterns
    requires i < |patterns|
    ensures forall n :: n in Loops(patterns, firstId)[i].events ==> n.sample in Menagerie.NotInLoveOffsets
  {
    assert PlaysKeysOf(patterns[i], Menagerie.NotInLoveOffsets) by {
      PatternStringsPlayPads();
      if i > 0 {
        assert patterns[i] == OneBasedPatterns[1..][i - 1];
      }
    }
    PlayedSamplesAreKeys(patterns[i], firstId + i, Menagerie.NotInLoveOffsets);
  }

  /** A pattern that plays only keys of a table makes notes whose samples are keys of it. */
  lemma PlayedSamplesAreKeys(p: string, id: int, offsets: map<char, real>)
    requires PlaysKeysOf(p, offsets)
    ensures forall n :: n in MapPattern(p, id) ==> n.sample in offsets
  {
    MapPatternExact(p, id);
  }

  /** A pattern that starts with a note keeps that note first. */
  lemma FirstNoteIsKept(p: string, id: int)
    requires |p| > 0 && p[0] != ' '
    ensures Note(0, p[0], id) in MapPattern(p, id)
  {
    MapPatternExact(p, id);
  }
}
