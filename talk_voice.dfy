/**
 * `VoiceUtility.SmoothAdd` of the talk engine: appends one unit's samples
 * to the running buffer, packing units as tightly as the zero crossings
 * allow, and records the unit's timing, start and fixed anchors.
 */
module TalkVoice {
  import opened Arith
  import opened ZeroCross

  /** Below this many samples in the buffer or the fragment, units are joined without a crossfade. */
  const MinLength: nat := 2000
  /** Head samples kept before the start anchor when the fragment is pre-trimmed. */
  const SideLength: int := 1500
  /** Tail samples kept after the fixed anchor. */
  const SideLength2: int := 500

  /** The samples dropped from the fragment's head: all but 1500 before the start anchor. */
  function HeadTrim(start: int): int {
    Max(start - SideLength, 0)
  }

  /** The samples dropped from the fragment's tail: all but 500 after the fixed anchor. */
  function TailTrim(a: seq<real>, fix: int): int {
    Max(|a| - fix - SideLength2, 0)
  }

  /** The fragment prefix the unblended paths keep: `Take(|a| - TailTrim)`, never negative. */
  function Kept(a: seq<real>, fix: int): (n: nat)
    ensures n <= |a|
    ensures n == Max(0, Min(|a|, fix + SideLength2))
  {
    Max(0, |a| - TailTrim(a, fix))
  }

  /** Whether the call takes the crossfade path: both sides are long enough and not both silent. */
  predicate Blended(w: seq<real>, a: seq<real>) {
    |w| >= MinLength && |a| >= MinLength && !Silent(w, a)
  }

  /** The pre-trimmed fragment of the crossfade path. */
  function Trimmed(a: seq<real>, start: int, fix: int): seq<real>
    requires 0 <= HeadTrim(start) && HeadTrim(start) + TailTrim(a, fix) <= |a|
  {
    a[HeadTrim(start)..|a| - TailTrim(a, fix)]
  }

  /**
   * What the crossfade path needs so that no index falls outside a list:
   * the pre-trim leaves a fragment of at least 2001 samples (a negative
   * array length throws), the buffer has at least 2001 samples for the
   * tail scan, and the overlap fits in both the cut buffer and the cut
   * fragment.
   */
  predicate CanJoin(w: seq<real>, a: seq<real>, start: int, fix: int) {
    Blended(w, a) ==>
      && HeadTrim(start) + TailTrim(a, fix) <= |a|
      && |w| >= MinLength + 1
      && |a| - HeadTrim(start) - TailTrim(a, fix) >= MinLength + 1
      && HeadOverlap(Trimmed(a, start, fix), MinLength) <= |w| - TailCut(w, MinLength)
      && HeadOverlap(Trimmed(a, start, fix), MinLength) <= |Trimmed(a, start, fix)| - HeadCut(Trimmed(a, start, fix), MinLength)
  }

  /** `fixedList.LastOrDefault()`. */
  function LastOrZero(s: seq<int>): int {
    if |s| == 0 then 0 else s[|s| - 1]
  }

  /**
   * The result of one `SmoothAdd`: `w` is the buffer, `a` the fragment,
   * `timing`, `start` and `fix` its anchors in fragment samples, and
   * `lastFixed` the last recorded fixed anchor.
   */
  function Join(w: seq<real>, a: seq<real>, timing: int, start: int, fix: int, lastFixed: int): Joined
    requires CanJoin(w, a, start, fix)
  {
    if !Blended(w, a) then
      Joined(w + a[..Kept(a, fix)], |w| + timing, |w| + start, |w| + fix)
    else
      var r1 := HeadTrim(start);
      var a0 := Trimmed(a, start, fix);
      var n := |w| - TailCut(w, MinLength);
      var hcut := HeadCut(a0, MinLength);
      var ov := HeadOverlap(a0, MinLength);
      Joined(SpliceWave(w, TailCut(w, MinLength), a0, hcut, ov),
             n + Max(timing - r1 - ov - hcut, 0),
             Max(n + (start - r1) - ov - hcut, lastFixed),
             n + Max(fix - r1 - ov - hcut, 0))
  }

  /**
   * Without a crossfade (a short buffer or fragment, or two silent
   * probes) the buffer is extended by the fragment prefix of length
   * `min(|a|, fix + 500)` (none when that is negative), and the anchors
   * are the fragment's shifted by the old buffer length.
   */
  lemma JoinUnblended(w: seq<real>, a: seq<real>, timing: int, start: int, fix: int, lastFixed: int)
    requires !Blended(w, a)
    ensures var j := Join(w, a, timing, start, fix, lastFixed);
      && j.wave[..|w|] == w
      && j.wave[|w|..] == a[..Max(0, Min(|a|, fix + 500))]
      && j.timing == |w| + timing && j.start == |w| + start && j.fixed == |w| + fix
  {
    var j := Join(w, a, timing, start, fix, lastFixed);
    assert j.wave == w + a[..Kept(a, fix)];
  }

  /**
   * The crossfade path, sample by sample: the buffer is cut at a crossing
   * (`cut` samples, fewer than 2000), its last `ov` samples become the
   * crossfade with the head of the cut fragment `a1`, nothing before them
   * changes, and the rest of `a1` follows.
   */
  lemma JoinBlendedWave(w: seq<real>, a: seq<real>, timing: int, start: int, fix: int, lastFixed: int)
    requires Blended(w, a) && CanJoin(w, a, start, fix)
    ensures var a0 := Trimmed(a, start, fix);
      Spliced(w, |w| - TailCut(w, MinLength), a0[HeadCut(a0, MinLength)..], HeadOverlap(a0, MinLength),
              Join(w, a, timing, start, fix, lastFixed).wave)
  {
    var a0 := Trimmed(a, start, fix);
    var r := Join(w, a, timing, start, fix, lastFixed).wave;
    assert r == SpliceWave(w, TailCut(w, MinLength), a0, HeadCut(a0, MinLength), HeadOverlap(a0, MinLength));
    SpliceWaveParts(w, TailCut(w, MinLength), a0, HeadCut(a0, MinLength), HeadOverlap(a0, MinLength));
  }

  /**
   * The crossfade path's anchors: the timing and the fixed anchors are
   * never before the end of the cut buffer, and the start anchor never
   * before the previous fixed anchor.
   */
  lemma JoinBlendedAnchors(w: seq<real>, a: seq<real>, timing: int, start: int, fix: int, lastFixed: int)
    requires Blended(w, a) && CanJoin(w, a, start, fix)
    ensures var j := Join(w, a, timing, start, fix, lastFixed);
      var end := |w| - TailCut(w, MinLength);
      j.timing >= end && j.fixed >= end && j.start >= lastFixed
  {
  }

  /** Every call grows the buffer by at most the fragment's length. */
  lemma JoinLength(w: seq<real>, a: seq<real>, timing: int, start: int, fix: int, lastFixed: int)
    requires CanJoin(w, a, start, fix)
    ensures |Join(w, a, timing, start, fix, lastFixed).wave| <= |w| + |a|
  {
    if Blended(w, a) {
      JoinBlendedWave(w, a, timing, start, fix, lastFixed);
    }
  }

  /**
   * `VoiceUtility.SmoothAdd` (talk): appends fragment `addWaveIn` to the
   * buffer and one entry to each anchor list.
   */
  method SmoothAdd(b: Buffers, addWaveIn: seq<real>, timing: int, start: int, fix: int)
    requires CanJoin(b.wave, addWaveIn, start, fix)
    modifies b
    ensures var j := Join(old(b.wave), addWaveIn, timing, start, fix, LastOrZero(old(b.fixeds)));
      && b.wave == j.wave
      && b.timings == old(b.timings) + [j.timing]
      && b.starts == old(b.starts) + [j.start]
      && b.fixeds == old(b.fixeds) + [j.fixed]
  {
    var count := |b.wave|;
    var noVoice := false;
    if count >= MinLength && |addWaveIn| >= MinLength {
      noVoice := ProbeSilence(b.wave, addWaveIn);
    }
    if count < MinLength || |addWaveIn| < MinLength || noVoice {
      AppendPlain(b, addWaveIn, timing, start, fix);
    } else {
      AppendBlended(b, addWaveIn, timing, start, fix);
    }
  }

  /** The path without a crossfade: the fragment, cut 500 samples after its fixed anchor, is appended as it is. */
  method AppendPlain(b: Buffers, addWaveIn: seq<real>, timing: int, start: int, fix: int)
    requires !Blended(b.wave, addWaveIn)
    modifies b
    ensures var j := Join(old(b.wave), addWaveIn, timing, start, fix, LastOrZero(old(b.fixeds)));
      && b.wave == j.wave
      && b.timings == old(b.timings) + [j.timing]
      && b.starts == old(b.starts) + [j.start]
      && b.fixeds == old(b.fixeds) + [j.fixed]
  {
    var count := |b.wave|;
    b.Record(count + timing, count + start, count + fix);
    var remove2 := Max(|addWaveIn| - fix - SideLength2, 0);
    b.wave := b.wave + addWaveIn[..Max(0, |addWaveIn| - remove2)];
  }

  /**
   * The crossfade path: pre-trims the fragment to 1500 samples before its
   * start and 500 after its fixed anchor, cuts the buffer's tail and the
   * fragment's head at crossings, crossfades and appends.
   */
  method AppendBlended(b: Buffers, addWaveIn: seq<real>, timing: int, start: int, fix: int)
    requires Blended(b.wave, addWaveIn) && CanJoin(b.wave, addWaveIn, start, fix)
    modifies b
    ensures var j := Join(old(b.wave), addWaveIn, timing, start, fix, LastOrZero(old(b.fixeds)));
      && b.wave == j.wave
      && b.timings == old(b.timings) + [j.timing]
      && b.starts == old(b.starts) + [j.start]
      && b.fixeds == old(b.fixeds) + [j.fixed]
  {
    var tailCut, addWave, removeNum, overlap, timing', start', fixed' :=
      PlanBlend(b.wave, addWaveIn, timing, start, fix, LastOrZero(b.fixeds));
    b.Splice(addWave, tailCut, removeNum, overlap);
    b.Record(timing', start', fixed');
  }

  /**
   * The arithmetic of the crossfade path: the pre-trimmed fragment, both
   * cuts, the overlap and the three anchors, as `Join` has them.
   */
  method PlanBlend(w: seq<real>, addWaveIn: seq<real>, timing: int, start: int, fix: int, lastFixed: int)
    returns (tailCut: nat, addWave: seq<real>, removeNum: nat, overlap: nat, timing': int, start': int, fixed': int)
    requires Blended(w, addWaveIn) && CanJoin(w, addWaveIn, start, fix)
    ensures tailCut <= |w| && overlap <= |w| - tailCut && removeNum + overlap <= |addWave|
    ensures var j := Join(w, addWaveIn, timing, start, fix, lastFixed);
      && j.wave == SpliceWave(w, tailCut, addWave, removeNum, overlap)
      && j.timing == timing' && j.start == start' && j.fixed == fixed'
  {
    var remove1 := HeadTrim(start);
    addWave := Trimmed(addWaveIn, start, fix);
    var tcut := FindTailCut(w, MinLength);
    var hcut, ov := FindHeadCut(addWave, MinLength);
    tailCut, removeNum, overlap := tcut, hcut, ov;
    var n := |w| - tailCut;
    timing' := n + Max(timing - remove1 - overlap - removeNum, 0);
    start' := Max(n + (start - remove1) - overlap - removeNum, lastFixed);
    fixed' := n + Max(fix - remove1 - overlap - removeNum, 0);
  }
}
