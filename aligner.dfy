/**
 * The timeline aligner both engines run in `Play` once the units are
 * concatenated: every unit has three anchors in the concatenated wave
 * (timing, start, fixed) and three target positions in the output
 * ("edits"), all in samples. The start edit of each unit and the fixed
 * edit of the unit before it are pulled apart or together where they
 * conflict, the first start edit is kept non-negative and the last fixed
 * edit is kept 500 samples before the end.
 */
module Aligner {
  import opened Arith
  import opened Text

  /**
   * The conflict rule of each engine: the song engine rewrites a pair
   * whose gap is under 1000 samples, the talk engine one whose gap is
   * under 300 samples or whose unit alias has no `"- "` in it.
   */
  datatype Rule = SongRule | TalkRule(aliases: seq<string>)

  /** What each engine's `middle ± x` adds: 500 in the song engine, nothing in the talk engine. */
  function Half(rule: Rule): int {
    if rule.SongRule? then 500 else 0
  }

  /** The edit lists of `n` units (and, for the talk rule, `n` aliases). */
  predicate Shaped(rule: Rule, t: seq<int>, s: seq<int>, f: seq<int>) {
    && |t| > 0 && |s| == |t| && |f| == |t|
    && (rule.TalkRule? ==> |rule.aliases| == |t|)
  }

  /** Whether unit `i`'s start edit conflicts with unit `i - 1`'s fixed edit. */
  predicate Conflict(rule: Rule, s: seq<int>, f: seq<int>, i: nat)
    requires 1 <= i < |s| && |f| == |s|
    requires rule.TalkRule? ==> |rule.aliases| == |s|
  {
    match rule
    case SongRule => s[i] - f[i - 1] < 1000
    case TalkRule(aliases) => !Contains(aliases[i], "- ") || s[i] - f[i - 1] < 300
  }

  /** `d1 + d2`: the distance from timing `i - 1` to its fixed edit plus from start edit `i` to timing `i`. */
  function Divisor(t: seq<int>, s: seq<int>, f: seq<int>, i: nat): int
    requires 1 <= i < |t| && |s| == |t| && |f| == |t|
  {
    (f[i - 1] - t[i - 1]) + (t[i] - s[i])
  }

  /**
   * Every conflicting pair has a non-zero divisor: otherwise the integer
   * division of the midpoint rule throws.
   */
  predicate Divisible(rule: Rule, t: seq<int>, s: seq<int>, f: seq<int>)
    requires Shaped(rule, t, s, f)
  {
    forall i :: 1 <= i < |t| && Conflict(rule, s, f, i) ==> Divisor(t, s, f, i) != 0
  }

  /**
   * The meeting point of a conflicting pair: the timing interval between
   * the two units split in the ratio `d1 : d2`, truncated as C# `int`
   * division does.
   */
  function Middle(t: seq<int>, s: seq<int>, f: seq<int>, i: nat): int
    requires 1 <= i < |t| && |s| == |t| && |f| == |t|
    requires Divisor(t, s, f, i) != 0
  {
    t[i - 1] + TruncDiv((t[i] - t[i - 1]) * (f[i - 1] - t[i - 1]), Divisor(t, s, f, i))
  }

  /** Start edit `i` after the aligner. */
  function AlignedStart(rule: Rule, t: seq<int>, s: seq<int>, f: seq<int>, i: nat): int
    requires Shaped(rule, t, s, f) && Divisible(rule, t, s, f) && i < |t|
  {
    if i == 0 then Max(s[0], 0)
    else if Conflict(rule, s, f, i) then Middle(t, s, f, i) + Half(rule)
    else s[i]
  }

  /** Fixed edit `i` after the conflict loop, before the final clamp. */
  function LoopFixed(rule: Rule, t: seq<int>, s: seq<int>, f: seq<int>, i: nat): int
    requires Shaped(rule, t, s, f) && Divisible(rule, t, s, f) && i < |t|
  {
    if i + 1 < |t| && Conflict(rule, s, f, i + 1) then Middle(t, s, f, i + 1) - Half(rule)
    else f[i]
  }

  /** Fixed edit `i` after the aligner. */
  function AlignedFixed(rule: Rule, t: seq<int>, s: seq<int>, f: seq<int>, endEdit: int, i: nat): int
    requires Shaped(rule, t, s, f) && Divisible(rule, t, s, f) && i < |t|
  {
    if i == |t| - 1 then Min(LoopFixed(rule, t, s, f, i), endEdit - 500) else LoopFixed(rule, t, s, f, i)
  }

  /**
   * The aligner of `Play`: clamps the first start edit, walks the pairs
   * left to right rewriting each conflicting one at its meeting point,
   * then clamps the last fixed edit to `endEdit - 500`. Pair `i` is only
   * touched at step `i`, so each test sees the values the lists were
   * built with.
   */
  method Align(rule: Rule, t: seq<int>, s: seq<int>, f: seq<int>, endEdit: int)
    returns (starts: seq<int>, fixeds: seq<int>)
    requires Shaped(rule, t, s, f) && Divisible(rule, t, s, f)
    ensures |starts| == |t| && |fixeds| == |t|
    ensures forall i :: 0 <= i < |t| ==> starts[i] == AlignedStart(rule, t, s, f, i)
    ensures forall i :: 0 <= i < |t| ==> fixeds[i] == AlignedFixed(rule, t, s, f, endEdit, i)
    ensures starts[0] >= 0 && fixeds[|t| - 1] <= endEdit - 500
    ensures rule.SongRule? ==> forall i :: 1 <= i < |t| ==> starts[i] - fixeds[i - 1] >= 1000
    ensures rule.TalkRule? ==> forall i :: 1 <= i < |t| ==>
      starts[i] == fixeds[i - 1] || (Contains(rule.aliases[i], "- ") && starts[i] - fixeds[i - 1] >= 300)
  {
    var n := |t|;
    starts := s[0 := Max(s[0], 0)];
    fixeds := f;
    var i := 1;
    while i < n
      invariant 1 <= i <= n && |starts| == n && |fixeds| == n
      invariant forall k :: 0 <= k < i ==> starts[k] == AlignedStart(rule, t, s, f, k)
      invariant forall k :: i <= k < n ==> starts[k] == s[k]
      invariant forall k :: 0 <= k < i - 1 ==> fixeds[k] == LoopFixed(rule, t, s, f, k)
      invariant forall k :: i - 1 <= k < n ==> fixeds[k] == f[k]
    {
      var conflict := match rule
        case SongRule => starts[i] - fixeds[i - 1] < 1000
        case TalkRule(aliases) => !Contains(aliases[i], "- ") || starts[i] - fixeds[i - 1] < 300;
      assert conflict == Conflict(rule, s, f, i);
      if conflict {
        var dt := t[i] - t[i - 1];
        var d1 := fixeds[i - 1] - t[i - 1];
        var d2 := t[i] - starts[i];
        var dt1 := TruncDiv(dt * d1, d1 + d2);
        var middle := t[i - 1] + dt1;
        starts := starts[i := middle + Half(rule)];
        fixeds := fixeds[i - 1 := middle - Half(rule)];
      }
      i := i + 1;
    }
    fixeds := fixeds[n - 1 := Min(fixeds[n - 1], endEdit - 500)];
    forall i | 1 <= i < n
      ensures rule.SongRule? ==> starts[i] - fixeds[i - 1] >= 1000
      ensures rule.TalkRule? ==>
        starts[i] == fixeds[i - 1] || (Contains(rule.aliases[i], "- ") && starts[i] - fixeds[i - 1] >= 300)
    {
      if rule.SongRule? {
        SongGap(t, s, f, endEdit, i);
      } else {
        TalkGap(rule.aliases, t, s, f, endEdit, i);
      }
    }
  }

  /** The boundary clamps: the first start edit is not negative, the last fixed edit ends 500 samples early. */
  lemma AlignedBounds(rule: Rule, t: seq<int>, s: seq<int>, f: seq<int>, endEdit: int)
    requires Shaped(rule, t, s, f) && Divisible(rule, t, s, f)
    ensures AlignedStart(rule, t, s, f, 0) >= 0 && AlignedStart(rule, t, s, f, 0) >= s[0]
    ensures AlignedFixed(rule, t, s, f, endEdit, |t| - 1) <= endEdit - 500
    ensures AlignedFixed(rule, t, s, f, endEdit, |t| - 1) <= f[|t| - 1]
  {
  }

  /**
   * The song engine's guard gap: after the aligner every start edit is at
   * least 1000 samples after the previous unit's fixed edit. A rewritten
   * pair is exactly 1000 apart; an untouched pair already was; the final
   * clamp only lowers the last fixed edit, which no start edit follows.
   */
  lemma SongGap(t: seq<int>, s: seq<int>, f: seq<int>, endEdit: int, i: nat)
    requires Shaped(SongRule, t, s, f) && Divisible(SongRule, t, s, f)
    requires 1 <= i < |t|
    ensures AlignedStart(SongRule, t, s, f, i) - AlignedFixed(SongRule, t, s, f, endEdit, i - 1) >= 1000
    ensures Conflict(SongRule, s, f, i) ==>
      AlignedStart(SongRule, t, s, f, i) - AlignedFixed(SongRule, t, s, f, endEdit, i - 1) == 1000
  {
  }

  /**
   * The talk engine's pairs after the aligner: each start edit meets the
   * previous fixed edit exactly, unless its alias holds `"- "` and the
   * two were already at least 300 samples apart.
   */
  lemma TalkGap(aliases: seq<string>, t: seq<int>, s: seq<int>, f: seq<int>, endEdit: int, i: nat)
    requires Shaped(TalkRule(aliases), t, s, f) && Divisible(TalkRule(aliases), t, s, f)
    requires 1 <= i < |t|
    ensures var start := AlignedStart(TalkRule(aliases), t, s, f, i);
      var fixed := AlignedFixed(TalkRule(aliases), t, s, f, endEdit, i - 1);
      start == fixed || (Contains(aliases[i], "- ") && start - fixed >= 300)
  {
  }

  /**
   * Exactly the conflicting pairs move: a conflicting pair is rewritten
   * to `middle + x` and `middle - x`, any other pair keeps its edits
   * (apart from the two boundary clamps).
   */
  lemma AlignedPairs(rule: Rule, t: seq<int>, s: seq<int>, f: seq<int>, endEdit: int, i: nat)
    requires Shaped(rule, t, s, f) && Divisible(rule, t, s, f)
    requires 1 <= i < |t|
    ensures Conflict(rule, s, f, i) ==>
      && AlignedStart(rule, t, s, f, i) == Middle(t, s, f, i) + Half(rule)
      && AlignedFixed(rule, t, s, f, endEdit, i - 1) == Middle(t, s, f, i) - Half(rule)
    ensures !Conflict(rule, s, f, i) ==>
      && AlignedStart(rule, t, s, f, i) == s[i]
      && AlignedFixed(rule, t, s, f, endEdit, i - 1) == f[i - 1]
  {
  }

  /**
   * When the fixed edit of unit `i - 1` lies after its timing and the
   * start edit of unit `i` before its own, and the timings are in order,
   * the meeting point lies between the two timings.
   */
  lemma MiddleBetween(t: seq<int>, s: seq<int>, f: seq<int>, i: nat)
    requires 1 <= i < |t| && |s| == |t| && |f| == |t|
    requires t[i - 1] <= t[i] && f[i - 1] >= t[i - 1] && s[i] <= t[i]
    requires Divisor(t, s, f, i) != 0
    ensures t[i - 1] <= Middle(t, s, f, i) <= t[i]
  {
    var dt := t[i] - t[i - 1];
    var d1 := f[i - 1] - t[i - 1];
    var d := Divisor(t, s, f, i);
    var q := TruncDiv(dt * d1, d);
    assert d > 0 && d1 <= d;
    assert dt * d1 >= 0 by { MulNonNeg(dt, d1); }
    assert dt * d1 <= dt * d by { MulMono(dt, d1, d); }
    QuotientBounds(dt * d1, d, dt);
  }

  lemma MulNonNeg(a: int, b: int)
    requires a >= 0 && b >= 0
    ensures a * b >= 0
  {
  }

  lemma MulMono(a: int, b: int, c: int)
    requires a >= 0 && b <= c
    ensures a * b <= a * c
  {
    assert a * c - a * b == a * (c - b);
    MulNonNeg(a, c - b);
  }

  /** A truncated quotient `a / d` of `0 <= a <= m * d` lies in `[0, m]`. */
  lemma QuotientBounds(a: int, d: int, m: int)
    requires d > 0 && 0 <= a <= m * d
    ensures 0 <= TruncDiv(a, d) <= m
  {
    var q := TruncDiv(a, d);
    var rem := a - q * d;
    assert 0 <= rem < d;
    if q > m {
      assert q * d >= (m + 1) * d by { MulMono(d, m + 1, q); }
    }
  }

  /** The edits of one unit: its timing edit, and its start and fixed edits at a velocity-scaled distance. */
  datatype Edits = Edits(timing: int, start: int, fixed: int)

  /**
   * Unit `i`'s edits as `Play` builds them: the target time rounded to a
   * sample, and the anchor distances of the concatenated wave scaled by
   * the unit's velocity and truncated, on either side of it.
   */
  function UnitEdits(timeSec: real, fs: int, timing: int, start: int, fix: int, velocity: real): Edits {
    var te := Round(timeSec * fs as real);
    Edits(te, te - TruncToInt((timing - start) as real * velocity), te + TruncToInt((fix - timing) as real * velocity))
  }

  /**
   * With a non-negative velocity and anchors in the order start, timing,
   * fixed, the edits keep that order.
   */
  lemma UnitEditsOrdered(timeSec: real, fs: int, timing: int, start: int, fix: int, velocity: real)
    requires velocity >= 0.0 && start <= timing <= fix
    ensures var e := UnitEdits(timeSec, fs, timing, start, fix, velocity);
      e.start <= e.timing <= e.fixed
  {
    assert (timing - start) as real * velocity >= 0.0 by { RealMulNonNeg((timing - start) as real, velocity); }
    assert (fix - timing) as real * velocity >= 0.0 by { RealMulNonNeg((fix - timing) as real, velocity); }
  }

  lemma RealMulNonNeg(a: real, b: real)
    requires a >= 0.0 && b >= 0.0
    ensures a * b >= 0.0
  {
  }

  /** The loop of `Play` that builds the three edit lists, one entry per unit. */
  method BuildEdits(timeSec: seq<real>, fs: int, timings: seq<int>, starts: seq<int>, fixeds: seq<int>,
                    velocities: seq<real>)
    returns (te: seq<int>, se: seq<int>, fe: seq<int>)
    requires |timeSec| == |timings| && |starts| == |timings| && |fixeds| == |timings| && |velocities| == |timings|
    ensures |te| == |timings| && |se| == |timings| && |fe| == |timings|
    ensures forall i :: 0 <= i < |timings| ==>
      Edits(te[i], se[i], fe[i]) == UnitEdits(timeSec[i], fs, timings[i], starts[i], fixeds[i], velocities[i])
  {
    te, se, fe := [], [], [];
    var i := 0;
    while i < |timings|
      invariant 0 <= i <= |timings| && |te| == i && |se| == i && |fe| == i
      invariant forall k :: 0 <= k < i ==>
        Edits(te[k], se[k], fe[k]) == UnitEdits(timeSec[k], fs, timings[k], starts[k], fixeds[k], velocities[k])
    {
      var timingEdit := Round(timeSec[i] * fs as real);
      te := te + [timingEdit];
      se := se + [timingEdit - TruncToInt((timings[i] - starts[i]) as real * velocities[i])];
      fe := fe + [timingEdit + TruncToInt((fixeds[i] - timings[i]) as real * velocities[i])];
      i := i + 1;
    }
  }
}
