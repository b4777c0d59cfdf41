/**
 * The zero-crossing search both concatenators share: the crossings in
 * a window at the end of the running buffer or at the head of a new
 * fragment, the distances between them, the cut and the overlap chosen
 * from the first and the last long distance, and the linear blend.
 * Also the four lists a concatenator appends to.
 */
module ZeroCross {
  import opened Arith
  import opened Wrappers

  /** The share of the longest crossing distance a distance must exceed to count as long. */
  const SaveRate: real := 0.7
  /** The length of the probe windows of the silence test, in samples. */
  const ProbeLength: nat := 100
  /** The level at or below which a sample counts as silent. */
  const SilenceLevel: real := 0.001

  /**
   * The falling crossings near the end of `w`: flag `i` says that the
   * sample `i + 1` places from the end is negative and the one before it
   * is not.
   */
  function TailFlags(w: seq<real>, window: nat): (f: seq<bool>)
    requires |w| >= window + 1
    ensures |f| == window
  {
    seq(window, i requires 0 <= i < window => w[|w| - i - 2] >= 0.0 && w[|w| - i - 1] < 0.0)
  }

  /** The falling crossings at the head of `a`: flag `i` says that `a[i]` is not negative and `a[i + 1]` is. */
  function HeadFlags(a: seq<real>, window: nat): (f: seq<bool>)
    requires |a| >= window + 1
    ensures |f| == window
  {
    seq(window, i requires 0 <= i < window => a[i] >= 0.0 && a[i + 1] < 0.0)
  }

  /** Mark `m` stands for a raised flag. */
  predicate RaisedAt(flags: seq<bool>, m: int) {
    1 <= m <= |flags| && flags[m - 1]
  }

  /** The marks `i + 1` of the raised flags `i`, `i < n`, in increasing order. */
  function MarksUpTo(flags: seq<bool>, n: nat): (r: seq<int>)
    requires n <= |flags|
    ensures forall k :: 0 <= k < |r| ==> RaisedAt(flags, r[k]) && r[k] <= n
  {
    if n == 0 then []
    else
      var rest := MarksUpTo(flags, n - 1);
      if flags[n - 1] then rest + [n] else rest
  }

  /** The marks of all raised flags. */
  function Marks(flags: seq<bool>): seq<int> {
    MarksUpTo(flags, |flags|)
  }

  /** The marks increase. */
  lemma {:induction false} MarksIncreasing(flags: seq<bool>, n: nat)
    requires n <= |flags|
    ensures Increasing(MarksUpTo(flags, n))
  {
    if n > 0 {
      MarksIncreasing(flags, n - 1);
    }
  }

  /** Every raised flag below `n` has its mark: the scan misses no crossing of the window. */
  lemma {:induction false} MarksComplete(flags: seq<bool>, n: nat, m: int)
    requires n <= |flags| && 1 <= m <= n && flags[m - 1]
    ensures m in MarksUpTo(flags, n)
  {
    if m < n {
      MarksComplete(flags, n - 1, m);
    }
  }

  /** The distances between consecutive marks. */
  function Gaps(marks: seq<int>): (g: seq<int>)
    ensures |g| == if |marks| == 0 then 0 else |marks| - 1
    ensures forall i :: 0 <= i < |g| ==> g[i] == marks[i + 1] - marks[i]
  {
    if |marks| == 0 then [] else seq(|marks| - 1, i requires 0 <= i < |marks| - 1 => marks[i + 1] - marks[i])
  }

  /** Between strictly increasing marks every distance is at least 1. */
  lemma GapsPositive(marks: seq<int>)
    requires Increasing(marks)
    ensures forall i :: 0 <= i < |Gaps(marks)| ==> Gaps(marks)[i] >= 1
  {
    var g := Gaps(marks);
    forall i | 0 <= i < |g| ensures g[i] >= 1 {
      assert g[i] == marks[i + 1] - marks[i];
    }
  }

  function Sum(s: seq<int>): int {
    if |s| == 0 then 0 else Sum(s[..|s| - 1]) + s[|s| - 1]
  }

  /** The distances add up to the span from the first mark to the last. */
  lemma {:induction false} GapsTelescope(marks: seq<int>)
    requires |marks| >= 1
    ensures Sum(Gaps(marks)) == marks[|marks| - 1] - marks[0]
  {
    if |marks| > 1 {
      var front := marks[..|marks| - 1];
      GapsTelescope(front);
      var g, h := Gaps(marks), Gaps(front);
      assert |g| == |marks| - 1 && |h| == |g| - 1;
      forall i | 0 <= i < |h| ensures g[i] == h[i] {
        assert front[i] == marks[i] && front[i + 1] == marks[i + 1];
      }
      assert g[..|g| - 1] == h;
      assert Sum(g) == Sum(h) + g[|g| - 1];
      assert front[|front| - 1] == marks[|marks| - 2] && front[0] == marks[0];
    }
  }

  /** Strictly increasing marks. */
  predicate Increasing(marks: seq<int>) {
    forall k, l :: 0 <= k < l < |marks| ==> marks[k] < marks[l]
  }

  /** The largest of the first `n` elements of `s`. */
  function MaxUpTo(s: seq<int>, n: nat): (m: int)
    requires 0 < n <= |s|
    ensures m in s
    ensures forall i :: 0 <= i < n ==> s[i] <= m
  {
    if n == 1 then s[0]
    else
      var rest := MaxUpTo(s, n - 1);
      if s[n - 1] > rest then s[n - 1] else rest
  }

  /** `Max()` of a non-empty list. */
  function MaxOf(s: seq<int>): (m: int)
    requires |s| > 0
    ensures m in s
    ensures forall i :: 0 <= i < |s| ==> s[i] <= m
  {
    MaxUpTo(s, |s|)
  }

  /** The length a distance must exceed: 70% of the longest distance, or 0 without distances. */
  function Limit(gaps: seq<int>): real {
    if |gaps| > 0 then MaxOf(gaps) as real * SaveRate else 0.0
  }

  /** The index of the first distance longer than `limit`, from index `i` on. */
  function FirstLongFrom(gaps: seq<int>, limit: real, i: nat): (r: Option<nat>)
    requires i <= |gaps|
    ensures r.Some? ==> i <= r.value < |gaps| && gaps[r.value] as real > limit
    ensures r.Some? ==> forall k :: i <= k < r.value ==> gaps[k] as real <= limit
    ensures r.None? <==> forall k :: i <= k < |gaps| ==> gaps[k] as real <= limit
    decreases |gaps| - i
  {
    if i == |gaps| then None
    else if gaps[i] as real > limit then Some(i)
    else FirstLongFrom(gaps, limit, i + 1)
  }

  /** The index of the first distance longer than `limit`. */
  function FirstLong(gaps: seq<int>, limit: real): Option<nat> {
    FirstLongFrom(gaps, limit, 0)
  }

  /** The index of the last distance longer than `limit`, below index `n`. */
  function LastLongBelow(gaps: seq<int>, limit: real, n: nat): (r: Option<nat>)
    requires n <= |gaps|
    ensures r.Some? ==> r.value < n && gaps[r.value] as real > limit
    ensures r.Some? ==> forall k :: r.value < k < n ==> gaps[k] as real <= limit
    ensures r.None? <==> forall k :: 0 <= k < n ==> gaps[k] as real <= limit
  {
    if n == 0 then None
    else if gaps[n - 1] as real > limit then Some(n - 1)
    else LastLongBelow(gaps, limit, n - 1)
  }

  /** The index of the last distance longer than `limit`. */
  function LastLong(gaps: seq<int>, limit: real): Option<nat> {
    LastLongBelow(gaps, limit, |gaps|)
  }

  /** The samples to cut: the mark that starts the first long distance, or 0. */
  function Cut(marks: seq<int>): int {
    var gaps := Gaps(marks);
    match FirstLong(gaps, Limit(gaps))
    case None => 0
    case Some(i) => marks[i]
  }

  /** The samples to overlap: the mark that ends the last long distance, or 0. */
  function Overlap(marks: seq<int>): int {
    var gaps := Gaps(marks);
    match LastLong(gaps, Limit(gaps))
    case None => 0
    case Some(i) => marks[i + 1]
  }

  /**
   * When every distance is at least 1, the longest one exceeds 70% of
   * itself: a first and a last long distance exist, the first no later
   * than the last.
   */
  lemma LongGapsExist(gaps: seq<int>)
    requires |gaps| > 0
    requires forall i :: 0 <= i < |gaps| ==> gaps[i] >= 1
    ensures FirstLong(gaps, Limit(gaps)).Some? && LastLong(gaps, Limit(gaps)).Some?
    ensures FirstLong(gaps, Limit(gaps)).value <= LastLong(gaps, Limit(gaps)).value
  {
    var top := MaxOf(gaps);
    var k :| 0 <= k < |gaps| && gaps[k] == top;
    assert top >= 1;
    assert gaps[k] as real > Limit(gaps);
  }

  /** With two increasing marks or more, the cut is mark `i` and the overlap mark `j + 1`, for some `i <= j`. */
  lemma CutOverlapIndices(marks: seq<int>) returns (i: nat, j: nat)
    requires Increasing(marks) && |marks| >= 2
    ensures i <= j < |marks| - 1
    ensures Cut(marks) == marks[i] && Overlap(marks) == marks[j + 1]
  {
    var gaps := Gaps(marks);
    GapsPositive(marks);
    LongGapsExist(gaps);
    i := FirstLong(gaps, Limit(gaps)).value;
    j := LastLong(gaps, Limit(gaps)).value;
  }

  /**
   * The cut and the overlap of a window's marks: both are 0 with fewer
   * than two crossings; otherwise the cut is a mark, at least 1 and below
   * the last mark (so below the window length), and the overlap is a
   * later mark, at most the window length; both sit on a crossing.
   */
  lemma CutAndOverlap(flags: seq<bool>)
    ensures var marks := Marks(flags);
      |marks| < 2 ==> Cut(marks) == 0 && Overlap(marks) == 0
    ensures var marks := Marks(flags);
      |marks| >= 2 ==>
        && 1 <= Cut(marks) < Overlap(marks) <= |flags|
        && Cut(marks) < marks[|marks| - 1]
        && RaisedAt(flags, Cut(marks)) && RaisedAt(flags, Overlap(marks))
  {
    var marks := Marks(flags);
    if |marks| >= 2 {
      CutAndOverlapMany(flags);
    }
  }

  /** The second half of `CutAndOverlap`, for two crossings or more. */
  lemma CutAndOverlapMany(flags: seq<bool>)
    requires |Marks(flags)| >= 2
    ensures var marks := Marks(flags);
        && 1 <= Cut(marks) < Overlap(marks) <= |flags|
        && Cut(marks) < marks[|marks| - 1]
        && RaisedAt(flags, Cut(marks)) && RaisedAt(flags, Overlap(marks))
  {
    var marks := Marks(flags);
    MarksIncreasing(flags, |flags|);
    {
      var i, j := CutOverlapIndices(marks);
      assert marks[i] < marks[j + 1];
      assert marks[i] < marks[|marks| - 1];
    }
  }

  /** One crossfaded sample: `x` weighted by `1 - i/ov` plus `y` weighted by `i/ov`. */
  function Mix(x: real, y: real, i: nat, ov: nat): real
    requires ov > 0
  {
    x * (1.0 - i as real / ov as real) + y * (i as real / ov as real)
  }

  /** The crossfade: the last `ov` samples of `w` fade out while the first `ov` of `a` fade in. */
  function Blend(w: seq<real>, a: seq<real>, ov: nat): (r: seq<real>)
    requires ov <= |w| && ov <= |a|
    ensures |r| == |w|
  {
    seq(|w|, j requires 0 <= j < |w| =>
      if j < |w| - ov then w[j] else Mix(w[j], a[j - (|w| - ov)], j - (|w| - ov), ov))
  }

  /**
   * `r` is `w` cut to its first `end` samples and joined to `a` with an
   * overlap of `ov`: the samples before the overlap are `w`'s, the `ov`
   * overlapping ones mix `w` into `a`, and the rest of `a` follows.
   */
  predicate Spliced(w: seq<real>, end: nat, a: seq<real>, ov: nat, r: seq<real>)
    requires ov <= end <= |w| && ov <= |a|
  {
    && |r| == end + |a| - ov
    && r[..end - ov] == w[..end - ov]
    && (forall i :: 0 <= i < ov ==> r[end - ov + i] == Mix(w[end - ov + i], a[i], i, ov))
    && r[end..] == a[ov..]
  }

  /**
   * The buffer `w` without its last `tcut` samples, crossfaded over `ov`
   * samples into fragment `a` without its first `hcut`, followed by the
   * rest of that fragment.
   */
  function SpliceWave(w: seq<real>, tcut: nat, a: seq<real>, hcut: nat, ov: nat): seq<real>
    requires tcut <= |w| && ov <= |w| - tcut && hcut + ov <= |a|
  {
    Blend(w[..|w| - tcut], a[hcut..], ov) + a[hcut + ov..]
  }

  /** A splice keeps the buffer before the overlap, mixes the overlap and then continues with the fragment. */
  lemma SpliceWaveParts(w: seq<real>, tcut: nat, a: seq<real>, hcut: nat, ov: nat)
    requires tcut <= |w| && ov <= |w| - tcut && hcut + ov <= |a|
    ensures Spliced(w, |w| - tcut, a[hcut..], ov, SpliceWave(w, tcut, a, hcut, ov))
  {
    var end := |w| - tcut;
    var w1 := w[..end];
    var a1 := a[hcut..];
    var b := Blend(w1, a1, ov);
    var r := SpliceWave(w, tcut, a, hcut, ov);
    assert r == b + a[hcut + ov..];
    assert r[..end] == b;
    assert a[hcut + ov..] == a1[ov..];
    assert r[end..] == a1[ov..];
    forall i | 0 <= i < end - ov ensures r[i] == w[i] {
      assert r[i] == b[i] == w1[i];
    }
    forall i | 0 <= i < ov ensures r[end - ov + i] == Mix(w[end - ov + i], a1[i], i, ov) {
      assert r[end - ov + i] == b[end - ov + i];
      assert w1[end - ov + i] == w[end - ov + i];
    }
  }

  /** Both probe windows, the end of `w` and the head of `a`, are silent. */
  predicate Silent(w: seq<real>, a: seq<real>)
    requires |w| >= ProbeLength && |a| >= ProbeLength
  {
    forall i :: 0 <= i < ProbeLength ==> QuietAt(w, a, i)
  }

  /** Offset `i` of both probe windows is silent. */
  predicate QuietAt(w: seq<real>, a: seq<real>, i: nat)
    requires i < |w| && i < |a|
  {
    AbsReal(w[|w| - i - 1]) <= SilenceLevel && AbsReal(a[i]) <= SilenceLevel
  }

  // ---------------------------------------------------------------------
  // The loops of SmoothAdd
  // ---------------------------------------------------------------------

  /** The probe loop: stops at the first audible sample of either window. */
  method ProbeSilence(w: seq<real>, a: seq<real>) returns (noVoice: bool)
    requires |w| >= ProbeLength && |a| >= ProbeLength
    ensures noVoice == Silent(w, a)
  {
    noVoice := true;
    var i := 0;
    while i < ProbeLength
      invariant 0 <= i <= ProbeLength
      invariant forall k :: 0 <= k < i ==> QuietAt(w, a, k)
    {
      if AbsReal(w[|w| - i - 1]) > SilenceLevel || AbsReal(a[i]) > SilenceLevel {
        assert !QuietAt(w, a, i);
        noVoice := false;
        return;
      }
      i := i + 1;
    }
  }

  /** The scan of the buffer's tail: the marks of the falling crossings in the last `window + 1` samples. */
  method ScanTail(w: seq<real>, window: nat) returns (marks: seq<int>)
    requires |w| >= window + 1
    ensures marks == Marks(TailFlags(w, window))
  {
    marks := [];
    var i := 0;
    while i < window
      invariant 0 <= i <= window
      invariant marks == MarksUpTo(TailFlags(w, window), i)
    {
      if w[|w| - i - 2] >= 0.0 && w[|w| - i - 1] < 0.0 {
        marks := marks + [i + 1];
      }
      i := i + 1;
    }
  }

  /** The scan of the fragment's head: the marks of the falling crossings in its first `window + 1` samples. */
  method ScanHead(a: seq<real>, window: nat) returns (marks: seq<int>)
    requires |a| >= window + 1
    ensures marks == Marks(HeadFlags(a, window))
  {
    marks := [];
    var i := 0;
    while i < window
      invariant 0 <= i <= window
      invariant marks == MarksUpTo(HeadFlags(a, window), i)
    {
      if a[i] >= 0.0 && a[i + 1] < 0.0 {
        marks := marks + [i + 1];
      }
      i := i + 1;
    }
  }

  /** The distance loop: `sub[i] = list[i + 1] - list[i]`. */
  method ComputeGaps(marks: seq<int>) returns (gaps: seq<int>)
    ensures gaps == Gaps(marks)
  {
    gaps := [];
    var i := 0;
    while i < |marks| - 1
      invariant 0 <= i <= if |marks| == 0 then 0 else |marks| - 1
      invariant gaps == Gaps(marks)[..i]
    {
      gaps := gaps + [marks[i + 1] - marks[i]];
      i := i + 1;
    }
  }

  /** The forward loop that picks the cut: the mark at the first distance above `limit`, or 0. */
  method FindCut(marks: seq<int>, gaps: seq<int>, limit: real) returns (removeNum: int)
    requires gaps == Gaps(marks)
    ensures removeNum == match FirstLong(gaps, limit) case None => 0 case Some(i) => marks[i]
  {
    removeNum := 0;
    var i := 0;
    while i < |gaps|
      invariant 0 <= i <= |gaps|
      invariant forall k :: 0 <= k < i ==> gaps[k] as real <= limit
    {
      if gaps[i] as real > limit {
        removeNum := marks[i];
        return;
      }
      i := i + 1;
    }
  }

  /** The backward loop that picks the overlap: the mark after the last distance above `limit`, or 0. */
  method FindOverlap(marks: seq<int>, gaps: seq<int>, limit: real) returns (overlap: int)
    requires gaps == Gaps(marks)
    ensures overlap == match LastLong(gaps, limit) case None => 0 case Some(i) => marks[i + 1]
  {
    overlap := 0;
    var i := |gaps| - 1;
    while i >= 0
      invariant -1 <= i < |gaps|
      invariant forall k :: i < k < |gaps| ==> gaps[k] as real <= limit
    {
      if gaps[i] as real > limit {
        overlap := marks[i + 1];
        return;
      }
      i := i - 1;
    }
  }

  /** Samples `i - 1` and `i` of `s` make a falling zero crossing: the first is not negative, the second is. */
  predicate FallsAt(s: seq<real>, i: int) {
    1 <= i < |s| && s[i - 1] >= 0.0 && s[i] < 0.0
  }

  /** A raised tail flag is a falling crossing `c` samples before the end. */
  lemma TailFlagsAt(w: seq<real>, window: nat)
    requires |w| >= window + 1
    ensures forall c :: RaisedAt(TailFlags(w, window), c) ==> FallsAt(w, |w| - c)
  {
    forall c | RaisedAt(TailFlags(w, window), c) ensures FallsAt(w, |w| - c) {
      assert TailFlags(w, window)[c - 1];
    }
  }

  /** A raised head flag is a falling crossing just before sample `c`. */
  lemma HeadFlagsAt(a: seq<real>, window: nat)
    requires |a| >= window + 1
    ensures forall c :: RaisedAt(HeadFlags(a, window), c) ==> FallsAt(a, c)
  {
    forall c | RaisedAt(HeadFlags(a, window), c) ensures FallsAt(a, c) {
      assert HeadFlags(a, window)[c - 1];
    }
  }

  /**
   * The samples the tail scan of a buffer cuts off: none, or fewer than
   * `window`, leaving the buffer ending at a crossing (its new last
   * sample is not negative and the first removed one is).
   */
  function TailCut(w: seq<real>, window: nat): (c: int)
    requires |w| >= window + 1
    ensures c == 0 || (1 <= c < window && FallsAt(w, |w| - c))
  {
    var flags := TailFlags(w, window);
    CutAndOverlap(flags);
    TailFlagsAt(w, window);
    Cut(Marks(flags))
  }

  /**
   * The samples the head scan of a fragment cuts off: none, or fewer
   * than `window`, leaving the fragment starting at a crossing (its new
   * first sample is negative and the last removed one is not).
   */
  function HeadCut(a: seq<real>, window: nat): (c: int)
    requires |a| >= window + 1
    ensures c == 0 || (1 <= c < window && FallsAt(a, c))
  {
    var flags := HeadFlags(a, window);
    CutAndOverlap(flags);
    HeadFlagsAt(a, window);
    Cut(Marks(flags))
  }

  /**
   * The samples the head scan of a fragment overlaps with the buffer:
   * either nothing is cut and nothing overlaps, or the overlap ends past
   * the cut, within the window.
   */
  function HeadOverlap(a: seq<real>, window: nat): (o: int)
    requires |a| >= window + 1
    ensures (HeadCut(a, window) == 0 && o == 0) || 1 <= HeadCut(a, window) < o <= window
  {
    CutAndOverlap(HeadFlags(a, window));
    Overlap(Marks(HeadFlags(a, window)))
  }

  /** The tail scan cuts nothing exactly when its window holds fewer than two crossings. */
  lemma TailCutNone(w: seq<real>, window: nat)
    requires |w| >= window + 1
    ensures TailCut(w, window) == 0 <==> |Marks(TailFlags(w, window))| < 2
  {
    CutAndOverlap(TailFlags(w, window));
  }

  /** The head scan cuts nothing exactly when its window holds fewer than two crossings. */
  lemma HeadCutNone(a: seq<real>, window: nat)
    requires |a| >= window + 1
    ensures HeadCut(a, window) == 0 <==> |Marks(HeadFlags(a, window))| < 2
  {
    CutAndOverlap(HeadFlags(a, window));
  }

  /** The loop limit `maxLength * saveRate`, with `Max()` taken only of a non-empty list. */
  method ComputeLimit(gaps: seq<int>) returns (limit: real)
    requires |gaps| > 0
    ensures limit == Limit(gaps)
  {
    var maxLength := MaxOf(gaps);
    limit := maxLength as real * SaveRate;
  }

  /**
   * The tail block of `SmoothAdd`: scans the buffer's last `window + 1`
   * samples and picks the cut. Without two crossings the source's
   * `Max()` has no distances to look at, and the cut is 0.
   */
  method FindTailCut(w: seq<real>, window: nat) returns (cut: int)
    requires |w| >= window + 1
    ensures cut == TailCut(w, window)
  {
    var marks := ScanTail(w, window);
    var gaps := ComputeGaps(marks);
    var limit := 0.0;
    if |gaps| > 0 {
      limit := ComputeLimit(gaps);
    }
    assert limit == Limit(gaps);
    cut := FindCut(marks, gaps, limit);
  }

  /**
   * The head block of `SmoothAdd`: scans the fragment's first
   * `window + 1` samples and picks the cut and the overlap.
   */
  method FindHeadCut(a: seq<real>, window: nat) returns (cut: int, overlap: int)
    requires |a| >= window + 1
    ensures cut == HeadCut(a, window) && overlap == HeadOverlap(a, window)
  {
    var marks := ScanHead(a, window);
    var gaps := ComputeGaps(marks);
    var limit := 0.0;
    if |gaps| > 0 {
      limit := ComputeLimit(gaps);
    }
    assert limit == Limit(gaps);
    cut := FindCut(marks, gaps, limit);
    overlap := FindOverlap(marks, gaps, limit);
  }

  /** What one call of a concatenator produces: the new buffer and the three anchors it records. */
  datatype Joined = Joined(wave: seq<real>, timing: int, start: int, fixed: int)

  /** The running buffer and the three anchor lists a concatenator appends to. */
  class Buffers {
    var wave: seq<real>
    var timings: seq<int>
    var starts: seq<int>
    var fixeds: seq<int>

    /** Empty buffers. */
    constructor ()
      ensures wave == [] && timings == [] && starts == [] && fixeds == []
    {
      wave := [];
      timings := [];
      starts := [];
      fixeds := [];
    }

    /** Appends one entry to each anchor list. */
    method Record(timing: int, start: int, fixed: int)
      modifies this`timings, this`starts, this`fixeds
      ensures timings == old(timings) + [timing]
      ensures starts == old(starts) + [start]
      ensures fixeds == old(fixeds) + [fixed]
    {
      timings := timings + [timing];
      starts := starts + [start];
      fixeds := fixeds + [fixed];
    }

    /** The blend loop: rewrites the last `ov` buffer samples in place. */
    method Crossfade(a: seq<real>, ov: nat)
      requires ov <= |wave| && ov <= |a|
      modifies this`wave
      ensures wave == Blend(old(wave), a, ov)
    {
      ghost var w := wave;
      var n := |wave|;
      var i := 0;
      while i < ov
        invariant 0 <= i <= ov && |wave| == n
        invariant forall j :: 0 <= j < n - ov ==> wave[j] == w[j]
        invariant forall j :: n - ov <= j < n - ov + i ==> wave[j] == Mix(w[j], a[j - (n - ov)], j - (n - ov), ov)
        invariant forall j :: n - ov + i <= j < n ==> wave[j] == w[j]
      {
        wave := wave[n - ov + i := Mix(wave[n - ov + i], a[i], i, ov)];
        i := i + 1;
      }
    }

    /**
     * Cuts `tcut` samples off the buffer's end and `hcut` off the head of
     * fragment `a`, crossfades the first `ov` samples of the cut fragment
     * into the buffer's last `ov`, and appends the rest of the fragment.
     */
    method Splice(a: seq<real>, tcut: nat, hcut: nat, ov: nat)
      requires tcut <= |wave| && ov <= |wave| - tcut && hcut + ov <= |a|
      modifies this`wave
      ensures wave == SpliceWave(old(wave), tcut, a, hcut, ov)
    {
      ghost var w1 := wave[..|wave| - tcut];
      if tcut > 0 {
        wave := wave[..|wave| - tcut];
      }
      assert wave == w1;
      var addWave := a;
      if hcut > 0 {
        addWave := addWave[hcut..];
      }
      Crossfade(addWave, ov);
      if ov > 0 {
        addWave := addWave[ov..];
      }
      assert addWave == a[hcut + ov..];
      wave := wave + addWave;
    }
  }
}
