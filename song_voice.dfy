/**
 * `VoiceUtility.SmoothAdd` of the song engine: appends one note's samples
 * to the running buffer, joined at zero crossings and crossfaded, and
 * records the note's timing, start and fixed anchors. Unlike the talk
 * engine it does not pre-trim the fragment, appends the whole fragment
 * when it does not crossfade, and has no guard for a scan window without
 * two crossings.
 */
module SongVoice {
  import opened Arith
  import opened ZeroCross

  /** Below this many samples in the buffer or the fragment, notes are joined without a crossfade. */
  const MinLength: nat := 3000

  /** Whether the call takes the crossfade path: both sides are long enough and not both silent. */
  predicate Blended(w: seq<real>, a: seq<real>) {
    |w| >= MinLength && |a| >= MinLength && !Silent(w, a)
  }

  /**
   * What the crossfade path needs so that it neither indexes outside a
   * list nor takes the maximum of an empty list: 3001 samples on each
   * side for the scans, two crossings in each scan window, and an overlap
   * that fits in both the cut buffer and the cut fragment.
   */
  predicate CanJoin(w: seq<real>, a: seq<real>) {
    Blended(w, a) ==>
      && |w| >= MinLength + 1
      && |a| >= MinLength + 1
      && |Marks(TailFlags(w, MinLength))| >= 2
      && |Marks(HeadFlags(a, MinLength))| >= 2
      && HeadOverlap(a, MinLength) <= |w| - TailCut(w, MinLength)
      && HeadOverlap(a, MinLength) <= |a| - HeadCut(a, MinLength)
  }

  /**
   * The result of one `SmoothAdd`: `w` is the buffer, `a` the fragment,
   * and `timing`, `start` and `fix` its anchors in fragment samples.
   */
  function Join(w: seq<real>, a: seq<real>, timing: int, start: int, fix: int): Joined
    requires CanJoin(w, a)
  {
    if !Blended(w, a) then
      Joined(w + a, |w| + timing, |w| + start, |w| + fix)
    else
      var n := |w| - TailCut(w, MinLength);
      var hcut := HeadCut(a, MinLength);
      var ov := HeadOverlap(a, MinLength);
      Joined(SpliceWave(w, TailCut(w, MinLength), a, hcut, ov),
             n + Max(timing - ov - hcut, 0),
             n + Max(start - ov - hcut, 0),
             n + Max(fix - ov - hcut, 0))
  }

  /**
   * Without a crossfade (a short buffer or fragment, or two silent
   * probes) the whole fragment is appended unchanged and the anchors are
   * the fragment's shifted by the old buffer length.
   */
  lemma JoinUnblended(w: seq<real>, a: seq<real>, timing: int, start: int, fix: int)
    requires !Blended(w, a)
    ensures var j := Join(w, a, timing, start, fix);
      && j.wave[..|w|] == w
      && j.wave[|w|..] == a
      && j.timing == |w| + timing && j.start == |w| + start && j.fixed == |w| + fix
  {
    var j := Join(w, a, timing, start, fix);
    assert j.wave == w + a;
  }

  /**
   * On the crossfade path both scans find a cut: the buffer loses between
   * 1 and 2999 samples and ends on a sample that is not negative whose
   * removed successor is; the fragment loses between 1 and 2999 head
   * samples and starts on a negative sample after one that is not.
   */
  lemma JoinBlendedCuts(w: seq<real>, a: seq<real>)
    requires Blended(w, a) && CanJoin(w, a)
    ensures var tcut := TailCut(w, MinLength);
      1 <= tcut < MinLength && FallsAt(w, |w| - tcut)
    ensures var hcut := HeadCut(a, MinLength);
      1 <= hcut < MinLength && FallsAt(a, hcut)
  {
    TailCutNone(w, MinLength);
    HeadCutNone(a, MinLength);
  }

  /**
   * The crossfade path, sample by sample: the buffer is cut at a crossing,
   * its last `ov` samples become the crossfade with the head of the cut
   * fragment, nothing before them changes, and the rest of the cut
   * fragment follows.
   */
  lemma JoinBlendedWave(w: seq<real>, a: seq<real>, timing: int, start: int, fix: int)
    requires Blended(w, a) && CanJoin(w, a)
    ensures Spliced(w, |w| - TailCut(w, MinLength), a[HeadCut(a, MinLength)..], HeadOverlap(a, MinLength),
                    Join(w, a, timing, start, fix).wave)
  {
    var r := Join(w, a, timing, start, fix).wave;
    assert r == SpliceWave(w, TailCut(w, MinLength), a, HeadCut(a, MinLength), HeadOverlap(a, MinLength));
    SpliceWaveParts(w, TailCut(w, MinLength), a, HeadCut(a, MinLength), HeadOverlap(a, MinLength));
  }

  /**
   * The crossfade path's anchors are never before the end of the cut
   * buffer, and each is the fragment's anchor moved back by the samples
   * the head cut and the overlap took, when that stays inside the
   * appended part.
   */
  lemma JoinBlendedAnchors(w: seq<real>, a: seq<real>, timing: int, start: int, fix: int)
    requires Blended(w, a) && CanJoin(w, a)
    ensures var j := Join(w, a, timing, start, fix);
      var end := |w| - TailCut(w, MinLength);
      var shift := HeadCut(a, MinLength) + HeadOverlap(a, MinLength);
      && j.timing >= end && j.start >= end && j.fixed >= end
      && (timing >= shift ==> j.timing == end + timing - shift)
      && (start >= shift ==> j.start == end + start - shift)
      && (fix >= shift ==> j.fixed == end + fix - shift)
  {
  }

  /** Every call grows the buffer by at most the fragment's length. */
  lemma JoinLength(w: seq<real>, a: seq<real>, timing: int, start: int, fix: int)
    requires CanJoin(w, a)
    ensures |Join(w, a, timing, start, fix).wave| <= |w| + |a|
  {
    if Blended(w, a) {
      JoinBlendedWave(w, a, timing, start, fix);
    }
  }

  /**
   * `VoiceUtility.SmoothAdd` (song): appends fragment `addWave` to the
   * buffer and one entry to each anchor list.
   */
  method SmoothAdd(b: Buffers, addWave: seq<real>, timing: int, start: int, fix: int)
    requires CanJoin(b.wave, addWave)
    modifies b
    ensures var j := Join(old(b.wave), addWave, timing, start, fix);
      && b.wave == j.wave
      && b.timings == old(b.timings) + [j.timing]
      && b.starts == old(b.starts) + [j.start]
      && b.fixeds == old(b.fixeds) + [j.fixed]
  {
    var count := |b.wave|;
    if count < MinLength || |addWave| < MinLength {
      AppendPlain(b, addWave, timing, start, fix);
      return;
    }
    var noVoice := ProbeSilence(b.wave, addWave);
    if noVoice {
      AppendPlain(b, addWave, timing, start, fix);
      return;
    }
    AppendBlended(b, addWave, timing, start, fix);
  }

  /** The paths without a crossfade: the whole fragment is appended as it is. */
  method AppendPlain(b: Buffers, addWave: seq<real>, timing: int, start: int, fix: int)
    requires !Blended(b.wave, addWave)
    modifies b
    ensures var j := Join(old(b.wave), addWave, timing, start, fix);
      && b.wave == j.wave
      && b.timings == old(b.timings) + [j.timing]
      && b.starts == old(b.starts) + [j.start]
      && b.fixeds == old(b.fixeds) + [j.fixed]
  {
    var count := |b.wave|;
    b.Record(count + timing, count + start, count + fix);
    b.wave := b.wave + addWave;
  }

  /** The crossfade path: cuts the buffer's tail and the fragment's head at crossings, crossfades and appends. */
  method AppendBlended(b: Buffers, addWave: seq<real>, timing: int, start: int, fix: int)
    requires Blended(b.wave, addWave) && CanJoin(b.wave, addWave)
    modifies b
    ensures var j := Join(old(b.wave), addWave, timing, start, fix);
      && b.wave == j.wave
      && b.timings == old(b.timings) + [j.timing]
      && b.starts == old(b.starts) + [j.start]
      && b.fixeds == old(b.fixeds) + [j.fixed]
  {
    var tailCut, removeNum, overlap, timing', start', fixed' := PlanBlend(b.wave, addWave, timing, start, fix);
    b.Splice(addWave, tailCut, removeNum, overlap);
    b.Record(timing', start', fixed');
  }

  /**
   * The arithmetic of the crossfade path: both cuts, the overlap and the
   * three anchors, as `Join` has them.
   */
  method PlanBlend(w: seq<real>, addWave: seq<real>, timing: int, start: int, fix: int)
    returns (tailCut: nat, removeNum: nat, overlap: nat, timing': int, start': int, fixed': int)
    requires Blended(w, addWave) && CanJoin(w, addWave)
    ensures tailCut <= |w| && overlap <= |w| - tailCut && removeNum + overlap <= |addWave|
    ensures var j := Join(w, addWave, timing, start, fix);
      && j.wave == SpliceWave(w, tailCut, addWave, removeNum, overlap)
      && j.timing == timing' && j.start == start' && j.fixed == fixed'
  {
    var tcut := StrictTailCut(w);
    var hcut, ov := StrictHeadCut(addWave);
    tailCut, removeNum, overlap := tcut, hcut, ov;
    var n := |w| - tailCut;
    timing' := n + Max(timing - overlap - removeNum, 0);
    start' := n + Max(start - overlap - removeNum, 0);
    fixed' := n + Max(fix - overlap - removeNum, 0);
  }

  /** The tail block of the song `SmoothAdd`: like the talk engine's, but `Max()` is taken unguarded. */
  method StrictTailCut(w: seq<real>) returns (cut: int)
    requires |w| >= MinLength + 1 && |Marks(TailFlags(w, MinLength))| >= 2
    ensures cut == TailCut(w, MinLength)
  {
    var marks := ScanTail(w, MinLength);
    var gaps := ComputeGaps(marks);
    var limit := ComputeLimit(gaps);
    cut := FindCut(marks, gaps, limit);
  }

  /** The head block of the song `SmoothAdd`: the cut and the overlap, with `Max()` taken unguarded. */
  method StrictHeadCut(a: seq<real>) returns (cut: int, overlap: int)
    requires |a| >= MinLength + 1 && |Marks(HeadFlags(a, MinLength))| >= 2
    ensures cut == HeadCut(a, MinLength) && overlap == HeadOverlap(a, MinLength)
  {
    var marks := ScanHead(a, MinLength);
    var gaps := ComputeGaps(marks);
    var limit := ComputeLimit(gaps);
    cut := FindCut(marks, gaps, limit);
    overlap := FindOverlap(marks, gaps, limit);
  }
}
