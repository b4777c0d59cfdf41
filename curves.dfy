/**
 * The control-curve passes of both engines' `Play`. The analysis yields
 * one control point per 5 ms frame; a sample index `x` falls in frame
 * `x * 200 / fs`. The passes modelled here ramp the volume and the pitch
 * from unit to unit and smooth the analysed pitch over a window. The
 * control points' fields are kept as separate arrays: the analysed pitch
 * `PitOrg`, the edited pitch `PitEdit` and the volume.
 */
module Curves {
  import opened Arith
  import opened Wrappers

  /** The frame a sample index falls in (`x * 200 / fs` in C# `int` arithmetic). */
  function Frame(x: int, fs: int): int
    requires fs != 0
  {
    TruncDiv(x * 200, fs)
  }

  /** The frames of a list of sample anchors. */
  function Frames(xs: seq<int>, fs: int): (r: seq<int>)
    requires fs != 0
    ensures |r| == |xs|
  {
    seq(|xs|, k requires 0 <= k < |xs| => Frame(xs[k], fs))
  }

  /** The pitch ramp's start frames: each unit's midpoint between its start and timing anchors. */
  function MidFrames(starts: seq<int>, timings: seq<int>, fs: int): (r: seq<int>)
    requires fs != 0 && |starts| == |timings|
    ensures |r| == |starts|
  {
    seq(|starts|, k requires 0 <= k < |starts| => Frame(TruncDiv(starts[k] + timings[k], 2), fs))
  }

  /**
   * A ramp's unit lists: `sf[i]` and `tf[i]` are unit `i`'s ramp start and
   * end frames and `vals[i]` its value; unit 0 only supplies the first
   * value.
   */
  predicate Units(sf: seq<int>, tf: seq<int>, vals: seq<real>) {
    |vals| >= 1 && |sf| == |vals| && |tf| == |vals|
  }

  /** The ramp's `position` before unit `k`: it only moves forward, to each start and each end frame. */
  function Pos(sf: seq<int>, tf: seq<int>, vals: seq<real>, k: nat): int
    requires Units(sf, tf, vals) && 1 <= k <= |vals|
  {
    if k == 1 then 0 else Max(Max(Pos(sf, tf, vals, k - 1), sf[k - 1]), tf[k - 1])
  }

  /**
   * The value a frame gets from a unit whose ramp runs from frame `start`
   * to frame `timing`: the previous unit's value before the start, then a
   * linear blend from the previous value to the unit's own.
   */
  function FrameValue(start: int, timing: int, prev: real, next: real, p: int): real
    requires p < start || p < timing
  {
    if p < start then prev
    else
      var rate := (p - start) as real / (timing - start) as real;
      next * rate + prev * (1.0 - rate)
  }

  /** The value of frame `j` written while the ramp handled units `1 .. i - 1`. */
  function PrefixValue(sf: seq<int>, tf: seq<int>, vals: seq<real>, j: nat, i: nat): real
    requires Units(sf, tf, vals) && 1 <= i <= |vals| && j < Pos(sf, tf, vals, i)
    decreases i
  {
    if j >= Pos(sf, tf, vals, i - 1) then FrameValue(sf[i - 1], tf[i - 1], vals[i - 2], vals[i - 1], j)
    else PrefixValue(sf, tf, vals, j, i - 1)
  }

  /** The ramp's value at frame `j`: the frames after the last position hold the last unit's value. */
  function CurveAt(sf: seq<int>, tf: seq<int>, vals: seq<real>, j: nat): real
    requires Units(sf, tf, vals)
  {
    if j < Pos(sf, tf, vals, |vals|) then PrefixValue(sf, tf, vals, j, |vals|) else vals[|vals| - 1]
  }

  /** Whether every start and end frame lies within a curve of `len` frames (otherwise the ramp indexes past it). */
  predicate Fits(sf: seq<int>, tf: seq<int>, vals: seq<real>, len: nat)
    requires Units(sf, tf, vals)
  {
    forall k :: 1 <= k < |vals| ==> sf[k] <= len && tf[k] <= len
  }

  lemma {:induction false} PosBounds(sf: seq<int>, tf: seq<int>, vals: seq<real>, len: nat, k: nat)
    requires Units(sf, tf, vals) && Fits(sf, tf, vals, len) && 1 <= k <= |vals|
    ensures 0 <= Pos(sf, tf, vals, k) <= len
  {
    if k > 1 {
      PosBounds(sf, tf, vals, len, k - 1);
    }
  }

  /** The ramp position never moves back. */
  lemma {:induction false} PosMonotone(sf: seq<int>, tf: seq<int>, vals: seq<real>, i: nat, k: nat)
    requires Units(sf, tf, vals) && 1 <= i <= k <= |vals|
    ensures Pos(sf, tf, vals, i) <= Pos(sf, tf, vals, k)
    decreases k
  {
    if i < k {
      PosMonotone(sf, tf, vals, i, k - 1);
    }
  }

  /** Frames that were written before unit `i` keep their value. */
  lemma {:induction false} PrefixStable(sf: seq<int>, tf: seq<int>, vals: seq<real>, j: nat, i: nat, k: nat)
    requires Units(sf, tf, vals) && 1 <= i <= k <= |vals| && j < Pos(sf, tf, vals, i)
    ensures j < Pos(sf, tf, vals, k)
    ensures PrefixValue(sf, tf, vals, j, k) == PrefixValue(sf, tf, vals, j, i)
    decreases k
  {
    PosMonotone(sf, tf, vals, i, k);
    if i < k {
      PrefixStable(sf, tf, vals, j, i, k - 1);
      PosMonotone(sf, tf, vals, i, k - 1);
    }
  }

  /**
   * The curve unit by unit: the frames between the position before unit
   * `i` and the one after it hold the previous unit's value up to the
   * unit's start frame, then a blend `vals[i] * rate + vals[i - 1] * (1 - rate)`
   * with `rate` in [0, 1) rising linearly towards its end frame; the
   * frames after the last unit hold the last value.
   */
  lemma CurveSegments(sf: seq<int>, tf: seq<int>, vals: seq<real>, i: nat, j: nat)
    requires Units(sf, tf, vals) && 1 <= i < |vals|
    requires Pos(sf, tf, vals, i) <= j < Pos(sf, tf, vals, i + 1)
    ensures j < sf[i] ==> CurveAt(sf, tf, vals, j) == vals[i - 1]
    ensures j >= sf[i] ==>
      var rate := (j - sf[i]) as real / (tf[i] - sf[i]) as real;
      && 0.0 <= rate < 1.0
      && CurveAt(sf, tf, vals, j) == vals[i] * rate + vals[i - 1] * (1.0 - rate)
  {
    PrefixStable(sf, tf, vals, j, i + 1, |vals|);
    if j >= sf[i] {
      RateBounds(j - sf[i], tf[i] - sf[i]);
    }
  }

  /** After the last unit the curve holds the last unit's value. */
  lemma CurveTail(sf: seq<int>, tf: seq<int>, vals: seq<real>, j: nat)
    requires Units(sf, tf, vals) && j >= Pos(sf, tf, vals, |vals|)
    ensures CurveAt(sf, tf, vals, j) == vals[|vals| - 1]
  {
  }

  lemma RateBounds(a: int, b: int)
    requires 0 <= a < b
    ensures 0.0 <= a as real / b as real < 1.0
  {
    var q := a as real / b as real;
    assert q * b as real == a as real;
  }

  /** Whether every value lies in [lo, hi]. */
  predicate InRange(vals: seq<real>, lo: real, hi: real) {
    forall k :: 0 <= k < |vals| ==> lo <= vals[k] <= hi
  }

  /** A frame's value is a convex combination of the two unit values, so it stays between them. */
  lemma FrameValueBetween(start: int, timing: int, prev: real, next: real, p: int, lo: real, hi: real)
    requires p < start || p < timing
    requires lo <= prev <= hi && lo <= next <= hi
    ensures lo <= FrameValue(start, timing, prev, next, p) <= hi
  {
    if p >= start {
      var rate := (p - start) as real / (timing - start) as real;
      RateBounds(p - start, timing - start);
      assert next * rate + prev * (1.0 - rate) == prev + (next - prev) * rate;
      if next >= prev {
        assert 0.0 <= (next - prev) * rate <= next - prev by { Scale(next - prev, rate); }
      } else {
        assert 0.0 <= (prev - next) * rate <= prev - next by { Scale(prev - next, rate); }
      }
    }
  }

  lemma Scale(d: real, rate: real)
    requires d >= 0.0 && 0.0 <= rate <= 1.0
    ensures 0.0 <= d * rate <= d
  {
  }

  lemma {:induction false} PrefixBetween(sf: seq<int>, tf: seq<int>, vals: seq<real>, j: nat, i: nat, lo: real, hi: real)
    requires Units(sf, tf, vals) && 1 <= i <= |vals| && j < Pos(sf, tf, vals, i) && InRange(vals, lo, hi)
    ensures lo <= PrefixValue(sf, tf, vals, j, i) <= hi
    decreases i
  {
    if j >= Pos(sf, tf, vals, i - 1) {
      FrameValueBetween(sf[i - 1], tf[i - 1], vals[i - 2], vals[i - 1], j, lo, hi);
    } else {
      PrefixBetween(sf, tf, vals, j, i - 1, lo, hi);
    }
  }

  /** The ramped curve never leaves the range of the unit values. */
  lemma CurveBetween(sf: seq<int>, tf: seq<int>, vals: seq<real>, j: nat, lo: real, hi: real)
    requires Units(sf, tf, vals) && InRange(vals, lo, hi)
    ensures lo <= CurveAt(sf, tf, vals, j) <= hi
  {
    if j < Pos(sf, tf, vals, |vals|) {
      PrefixBetween(sf, tf, vals, j, |vals|, lo, hi);
    }
  }

  /**
   * The volume pass: unit `i`'s volume ramps in from its start frame to
   * its timing frame, and the last volume holds to the end of the curve.
   */
  method ApplyVolume(volume: array<real>, startList: seq<int>, timingList: seq<int>, volumeList: seq<real>, fs: int)
    requires fs != 0 && Units(Frames(startList, fs), Frames(timingList, fs), volumeList)
    requires Fits(Frames(startList, fs), Frames(timingList, fs), volumeList, volume.Length)
    modifies volume
    ensures forall j :: 0 <= j < volume.Length ==>
      volume[j] == CurveAt(Frames(startList, fs), Frames(timingList, fs), volumeList, j)
  {
    ghost var sf, tf := Frames(startList, fs), Frames(timingList, fs);
    var v := volumeList[0];
    var position := 0;
    var i := 1;
    while i < |volumeList|
      invariant 1 <= i <= |volumeList| && v == volumeList[i - 1]
      invariant position == Pos(sf, tf, volumeList, i) && 0 <= position <= volume.Length
      invariant forall j :: 0 <= j < position ==> volume[j] == PrefixValue(sf, tf, volumeList, j, i)
    {
      PosBounds(sf, tf, volumeList, volume.Length, i + 1);
      var start := Frame(startList[i], fs);
      var timing := Frame(timingList[i], fs);
      position := RampVolume(volume, position, start, timing, v, volumeList[i]);
      v := volumeList[i];
      i := i + 1;
    }
    while position < volume.Length
      invariant Pos(sf, tf, volumeList, i) <= position <= volume.Length
      invariant forall j :: 0 <= j < Pos(sf, tf, volumeList, i) ==> volume[j] == PrefixValue(sf, tf, volumeList, j, i)
      invariant forall j :: Pos(sf, tf, volumeList, i) <= j < position ==> volume[j] == v
    {
      volume[position] := v;
      position := position + 1;
    }
  }

  /** One unit of the volume pass: holds `prev` up to `start`, then ramps to `next` up to `timing`. */
  method RampVolume(a: array<real>, from: int, start: int, timing: int, prev: real, next: real) returns (to: int)
    requires 0 <= from && Max(Max(from, start), timing) <= a.Length
    modifies a
    ensures to == Max(Max(from, start), timing)
    ensures forall j :: from <= j < to ==> a[j] == FrameValue(start, timing, prev, next, j)
    ensures forall j :: 0 <= j < a.Length && !(from <= j < to) ==> a[j] == old(a[j])
  {
    to := from;
    while to < start
      invariant from <= to <= Max(from, start)
      invariant forall j :: from <= j < to ==> a[j] == FrameValue(start, timing, prev, next, j)
      invariant forall j :: 0 <= j < a.Length && !(from <= j < to) ==> a[j] == old(a[j])
    {
      a[to] := prev;
      to := to + 1;
    }
    while to < timing
      invariant Max(from, start) <= to <= Max(Max(from, start), timing)
      invariant forall j :: from <= j < to ==> a[j] == FrameValue(start, timing, prev, next, j)
      invariant forall j :: 0 <= j < a.Length && !(from <= j < to) ==> a[j] == old(a[j])
    {
      var rate := (to - start) as real / (timing - start) as real;
      a[to] := next * rate + prev * (1.0 - rate);
      to := to + 1;
    }
  }

  /**
   * The pitch pass: like the volume pass, with each unit's ramp starting
   * midway between its start and timing anchors, and every frame's edited
   * pitch shifted by the ramp's value in semitones.
   */
  method ApplyPitch(pitEdit: array<int>, startList: seq<int>, timingList: seq<int>, pitchList: seq<real>, fs: int)
    requires fs != 0 && |startList| == |timingList|
    requires Units(MidFrames(startList, timingList, fs), Frames(timingList, fs), pitchList)
    requires Fits(MidFrames(startList, timingList, fs), Frames(timingList, fs), pitchList, pitEdit.Length)
    modifies pitEdit
    ensures forall j :: 0 <= j < pitEdit.Length ==>
      pitEdit[j] == PitchShift(old(pitEdit[j]), CurveAt(MidFrames(startList, timingList, fs), Frames(timingList, fs), pitchList, j))
  {
    ghost var sf, tf := MidFrames(startList, timingList, fs), Frames(timingList, fs);
    ghost var orig := pitEdit[..];
    var position, p := PitchUnits(pitEdit, startList, timingList, pitchList, fs);
    ghost var before := pitEdit[..];
    var end := HoldPitch(pitEdit, position, pitEdit.Length, p);
    PitchTail(before, pitEdit[..], orig, sf, tf, pitchList, position);
  }

  /** The unit loop of the pitch pass, up to the last unit's end frame. */
  method PitchUnits(pitEdit: array<int>, startList: seq<int>, timingList: seq<int>, pitchList: seq<real>, fs: int)
    returns (position: int, p: real)
    requires fs != 0 && |startList| == |timingList|
    requires Units(MidFrames(startList, timingList, fs), Frames(timingList, fs), pitchList)
    requires Fits(MidFrames(startList, timingList, fs), Frames(timingList, fs), pitchList, pitEdit.Length)
    modifies pitEdit
    ensures p == pitchList[|pitchList| - 1]
    ensures PitchDone(pitEdit[..], old(pitEdit[..]), MidFrames(startList, timingList, fs), Frames(timingList, fs),
                      pitchList, |pitchList|, position)
  {
    ghost var sf, tf := MidFrames(startList, timingList, fs), Frames(timingList, fs);
    ghost var orig := pitEdit[..];
    p := pitchList[0];
    position := 0;
    var i := 1;
    while i < |pitchList|
      invariant 1 <= i <= |pitchList| && p == pitchList[i - 1] && |orig| == pitEdit.Length
      invariant PitchDone(pitEdit[..], orig, sf, tf, pitchList, i, position)
    {
      var start := Frame(TruncDiv(startList[i] + timingList[i], 2), fs);
      var timing := Frame(timingList[i], fs);
      position := PitchUnit(pitEdit, orig, sf, tf, pitchList, i, position, start, timing);
      p := pitchList[i];
      i := i + 1;
    }
  }

  /** One step of the unit loop of the pitch pass: unit `i`'s ramp. */
  method PitchUnit(pitEdit: array<int>, ghost orig: seq<int>, ghost sf: seq<int>, ghost tf: seq<int>, vals: seq<real>,
                   i: nat, position: int, start: int, timing: int) returns (to: int)
    requires Units(sf, tf, vals) && Fits(sf, tf, vals, pitEdit.Length) && 1 <= i < |vals|
    requires start == sf[i] && timing == tf[i]
    requires PitchDone(pitEdit[..], orig, sf, tf, vals, i, position)
    modifies pitEdit
    ensures PitchDone(pitEdit[..], orig, sf, tf, vals, i + 1, to)
  {
    PosBounds(sf, tf, vals, pitEdit.Length, i + 1);
    ghost var before := pitEdit[..];
    to := RampPitch(pitEdit, position, start, timing, vals[i - 1], vals[i]);
    PitchStep(before, pitEdit[..], orig, sf, tf, vals, i, position, to);
  }

  /**
   * The pitch pass after units `1 .. i - 1`: the frames before the
   * position hold the original pitch shifted by the ramp, the others the
   * original pitch.
   */
  ghost predicate PitchDone(a: seq<int>, orig: seq<int>, sf: seq<int>, tf: seq<int>, vals: seq<real>, i: nat, position: int)
    requires Units(sf, tf, vals) && 1 <= i <= |vals|
  {
    && |a| == |orig| && position == Pos(sf, tf, vals, i) && 0 <= position <= |a|
    && (forall j :: 0 <= j < position ==> a[j] == PitchShift(orig[j], PrefixValue(sf, tf, vals, j, i)))
    && (forall j :: position <= j < |a| ==> a[j] == orig[j])
  }

  lemma PitchStep(before: seq<int>, after: seq<int>, orig: seq<int>, sf: seq<int>, tf: seq<int>, vals: seq<real>,
                  i: nat, from: int, to: int)
    requires Units(sf, tf, vals) && 1 <= i < |vals| && PitchDone(before, orig, sf, tf, vals, i, from)
    requires to == Max(Max(from, sf[i]), tf[i]) && to <= |after| && |after| == |before|
    requires forall j :: from <= j < to ==> after[j] == PitchShift(before[j], FrameValue(sf[i], tf[i], vals[i - 1], vals[i], j))
    requires forall j :: 0 <= j < |after| && !(from <= j < to) ==> after[j] == before[j]
    ensures PitchDone(after, orig, sf, tf, vals, i + 1, to)
  {
    assert Pos(sf, tf, vals, i + 1) == to;
    forall j | 0 <= j < to
      ensures after[j] == PitchShift(orig[j], PrefixValue(sf, tf, vals, j, i + 1))
    {
      if j < from {
        assert PrefixValue(sf, tf, vals, j, i + 1) == PrefixValue(sf, tf, vals, j, i);
      }
    }
  }

  lemma PitchTail(before: seq<int>, after: seq<int>, orig: seq<int>, sf: seq<int>, tf: seq<int>, vals: seq<real>, from: int)
    requires Units(sf, tf, vals) && PitchDone(before, orig, sf, tf, vals, |vals|, from) && |after| == |before|
    requires forall j :: from <= j < |after| ==> after[j] == PitchShift(before[j], vals[|vals| - 1])
    requires forall j :: 0 <= j < |after| && !(from <= j < |after|) ==> after[j] == before[j]
    ensures forall j :: 0 <= j < |after| ==> after[j] == PitchShift(orig[j], CurveAt(sf, tf, vals, j))
  {
  }

  /** One unit of the pitch pass: shifts by `prev` up to `start`, then by the ramp to `next` up to `timing`. */
  method RampPitch(a: array<int>, from: int, start: int, timing: int, prev: real, next: real) returns (to: int)
    requires 0 <= from && Max(Max(from, start), timing) <= a.Length
    modifies a
    ensures to == Max(Max(from, start), timing)
    ensures forall j :: from <= j < to ==> a[j] == PitchShift(old(a[j]), FrameValue(start, timing, prev, next, j))
    ensures forall j :: 0 <= j < a.Length && !(from <= j < to) ==> a[j] == old(a[j])
  {
    var mid := HoldPitch(a, from, start, prev);
    to := BlendPitch(a, mid, start, timing, prev, next);
  }

  /** The first loop of a pitch-pass unit: shifts by `prev` up to the ramp start. */
  method HoldPitch(a: array<int>, from: int, start: int, prev: real) returns (to: int)
    requires 0 <= from && Max(from, start) <= a.Length
    modifies a
    ensures to == Max(from, start)
    ensures forall j :: from <= j < to ==> a[j] == PitchShift(old(a[j]), prev)
    ensures forall j :: 0 <= j < a.Length && !(from <= j < to) ==> a[j] == old(a[j])
  {
    to := from;
    while to < start
      invariant from <= to <= Max(from, start)
      invariant forall j :: from <= j < to ==> a[j] == PitchShift(old(a[j]), prev)
      invariant forall j :: 0 <= j < a.Length && !(from <= j < to) ==> a[j] == old(a[j])
    {
      a[to] := PitchShift(a[to], prev);
      to := to + 1;
    }
  }

  /** The second loop of a pitch-pass unit: shifts by the ramp from `prev` to `next` up to its end. */
  method BlendPitch(a: array<int>, from: int, start: int, timing: int, prev: real, next: real) returns (to: int)
    requires start <= from && 0 <= from && Max(from, timing) <= a.Length
    modifies a
    ensures to == Max(from, timing)
    ensures forall j :: from <= j < to ==> a[j] == PitchShift(old(a[j]), FrameValue(start, timing, prev, next, j))
    ensures forall j :: 0 <= j < a.Length && !(from <= j < to) ==> a[j] == old(a[j])
  {
    to := from;
    while to < timing
      invariant from <= to <= Max(from, timing)
      invariant forall j :: from <= j < to ==> a[j] == PitchShift(old(a[j]), FrameValue(start, timing, prev, next, j))
      invariant forall j :: 0 <= j < a.Length && !(from <= j < to) ==> a[j] == old(a[j])
    {
      var rate := (to - start) as real / (timing - start) as real;
      assert FrameValue(start, timing, prev, next, to) == next * rate + prev * (1.0 - rate);
      a[to] := PitchShift(a[to], next * rate + prev * (1.0 - rate));
      to := to + 1;
    }
  }

  /**
   * `PitchShift`: a frame whose pitch is under 10 (unvoiced) is left
   * alone; any other is moved by `keyShift` semitones, in cents rounded
   * to an integer.
   */
  function PitchShift(pitOrg: int, keyShift: real): int {
    if pitOrg < 10 then pitOrg else pitOrg + Round(keyShift * 100.0)
  }

  /** An unvoiced frame keeps its pitch; a voiced one moves by the shift in cents, off by at most half a cent. */
  lemma PitchShiftBounds(pitOrg: int, keyShift: real)
    ensures pitOrg < 10 ==> PitchShift(pitOrg, keyShift) == pitOrg
    ensures pitOrg >= 10 ==> var d := PitchShift(pitOrg, keyShift) - pitOrg;
      d as real - 0.5 <= keyShift * 100.0 <= d as real + 0.5
  {
  }

  /** `Math.Round` is the only integer within a half of `x` that breaks ties to even. */
  lemma RoundUnique(x: real, r: int)
    requires r as real - 0.5 <= x <= r as real + 0.5
    requires x == r as real + 0.5 ==> r % 2 == 0
    requires x == r as real - 0.5 ==> r % 2 == 0
    ensures Round(x) == r
  {
  }

  /** Rounding ties to even is symmetric about zero. */
  lemma RoundNegate(x: real)
    ensures Round(-x) == -Round(x)
  {
    var r := Round(x);
    assert (-r) % 2 == 0 <==> r % 2 == 0;
    RoundUnique(-x, -r);
  }

  /**
   * Shifting a voiced frame up and then down by the same amount restores
   * it, as long as the shifted pitch stays voiced.
   */
  lemma PitchShiftInverse(p: int, k: real)
    requires p >= 10 && PitchShift(p, k) >= 10
    ensures PitchShift(PitchShift(p, k), -k) == p
  {
    assert -k * 100.0 == -(k * 100.0);
    RoundNegate(k * 100.0);
  }

  /** Shifting by nothing changes nothing. */
  lemma PitchShiftZero(p: int)
    ensures PitchShift(p, 0.0) == p
  {
    RoundUnique(0.0, 0);
  }

  /** `Math.Ceiling` on a double, as an integer. */
  function Ceil(x: real): (r: int)
    ensures x <= r as real < x + 1.0
  {
    -((-x).Floor)
  }

  /**
   * `Interpolation`: the value read off a sampled curve at a fractional
   * index, clamped to the first and last value outside the curve and
   * interpolated linearly between the two neighbouring samples inside it.
   */
  function Interpolation(values: seq<real>, index: real): (r: real)
    requires |values| > 0
    ensures index <= 0.0 ==> r == values[0]
    ensures 0.0 < index && index >= (|values| - 1) as real ==> r == values[|values| - 1]
    ensures 0.0 < index < (|values| - 1) as real ==>
      var i1 := index.Floor;
      var i2 := Ceil(index);
      0 <= i1 <= i2 < |values| && i2 <= i1 + 1
      && (i1 == i2 ==> r == values[i1])
      && Min2(values[i1], values[i2]) <= r <= Max2(values[i1], values[i2])
  {
    if index <= 0.0 then values[0]
    else if index >= (|values| - 1) as real then values[|values| - 1]
    else
      var i1 := index.Floor;
      var i2 := Ceil(index);
      if i1 == i2 then values[i1]
      else
        var rate := index - i1 as real;
        assert 0.0 < rate < 1.0;
        InterpolationBetween(values[i1], values[i2], rate);
        values[i2] * rate + values[i1] * (1.0 - rate)
  }

  function Min2(a: real, b: real): real { if a < b then a else b }

  function Max2(a: real, b: real): real { if a < b then b else a }

  lemma InterpolationBetween(a: real, b: real, rate: real)
    requires 0.0 <= rate <= 1.0
    ensures Min2(a, b) <= b * rate + a * (1.0 - rate) <= Max2(a, b)
  {
    assert b * rate + a * (1.0 - rate) == a + (b - a) * rate;
    if b >= a {
      Scale(b - a, rate);
    } else {
      Scale(a - b, rate);
    }
  }

  /** Analysed pitches above this count as voiced in the smoothing pass. */
  const VoicedPitch: int := 2000

  /** The sum of the voiced pitches in frames `[lo, hi)`. */
  function VoicedSum(org: seq<int>, lo: nat, hi: nat): int
    requires lo <= hi <= |org|
    decreases hi - lo
  {
    if hi == lo then 0 else VoicedSum(org, lo, hi - 1) + (if org[hi - 1] > VoicedPitch then org[hi - 1] else 0)
  }

  /** The number of voiced frames in `[lo, hi)`. */
  function VoicedCount(org: seq<int>, lo: nat, hi: nat): (n: nat)
    requires lo <= hi <= |org|
    ensures n <= hi - lo
    decreases hi - lo
  {
    if hi == lo then 0 else VoicedCount(org, lo, hi - 1) + (if org[hi - 1] > VoicedPitch then 1 else 0)
  }

  /**
   * Frame `i`'s edited pitch after the smoothing pass with half-window
   * `l`: a voiced frame at least `l` frames from either end takes the
   * truncated mean of the voiced frames in `[i - l, i + l)`, when there
   * are at least two of them; every other frame keeps `edit`.
   */
  function SmoothedAt(org: seq<int>, edit: int, l: nat, i: nat): int
    requires i < |org|
  {
    if l <= i && i + l < |org| && org[i] > VoicedPitch && VoicedCount(org, i - l, i + l) > 1
    then TruncDiv(VoicedSum(org, i - l, i + l), VoicedCount(org, i - l, i + l))
    else edit
  }

  /**
   * The smoothing pass (half-window 10 in the song engine, 30 in the talk
   * engine): reads the analysed pitch, which it never changes, and writes
   * the edited pitch.
   */
  method Smooth(pitOrg: array<int>, pitEdit: array<int>, l: nat)
    requires pitOrg != pitEdit && pitOrg.Length == pitEdit.Length
    modifies pitEdit
    ensures forall i :: 0 <= i < pitEdit.Length ==> pitEdit[i] == SmoothedAt(pitOrg[..], old(pitEdit[i]), l, i)
  {
    var i := l;
    while i < pitOrg.Length - l
      invariant l <= i
      invariant forall k :: 0 <= k < pitEdit.Length && (k < i || k >= pitOrg.Length - l) ==>
        pitEdit[k] == SmoothedAt(pitOrg[..], old(pitEdit[k]), l, k)
      invariant forall k :: i <= k < pitEdit.Length ==> pitEdit[k] == old(pitEdit[k])
    {
      if pitOrg[i] > VoicedPitch {
        var pitch, num := WindowSums(pitOrg, i - l, i + l);
        if num > 1 {
          pitEdit[i] := TruncDiv(pitch, num);
        }
      }
      i := i + 1;
    }
  }

  /** The inner loop of the smoothing pass: the sum and count of the voiced frames in `[lo, hi)`. */
  method WindowSums(org: array<int>, lo: nat, hi: nat) returns (pitch: int, num: int)
    requires lo <= hi <= org.Length
    ensures pitch == VoicedSum(org[..], lo, hi) && num == VoicedCount(org[..], lo, hi)
  {
    pitch, num := 0, 0;
    var j := lo;
    while j < hi
      invariant lo <= j <= hi
      invariant pitch == VoicedSum(org[..], lo, j) && num == VoicedCount(org[..], lo, j)
    {
      if org[j] > VoicedPitch {
        pitch := pitch + org[j];
        num := num + 1;
      }
      j := j + 1;
    }
  }

  lemma {:induction false} VoicedSumBounds(org: seq<int>, lo: nat, hi: nat, low: int, high: int)
    requires lo <= hi <= |org|
    requires forall j :: lo <= j < hi && org[j] > VoicedPitch ==> low <= org[j] <= high
    ensures low * VoicedCount(org, lo, hi) <= VoicedSum(org, lo, hi) <= high * VoicedCount(org, lo, hi)
    ensures (VoicedPitch + 1) * VoicedCount(org, lo, hi) <= VoicedSum(org, lo, hi)
    decreases hi - lo
  {
    if hi > lo {
      VoicedSumBounds(org, lo, hi - 1, low, high);
      var c := VoicedCount(org, lo, hi - 1);
      if org[hi - 1] > VoicedPitch {
        assert low * (c + 1) == low * c + low;
        assert high * (c + 1) == high * c + high;
        assert (VoicedPitch + 1) * (c + 1) == (VoicedPitch + 1) * c + (VoicedPitch + 1);
      }
    }
  }

  /**
   * A smoothed frame takes a voiced value that lies within the range of
   * the voiced frames of its window.
   */
  lemma SmoothedBetween(org: seq<int>, edit: int, l: nat, i: nat, low: int, high: int)
    requires l <= i && i + l <= |org| && i < |org|
    requires forall j :: i - l <= j < i + l && org[j] > VoicedPitch ==> low <= org[j] <= high
    ensures var v := SmoothedAt(org, edit, l, i);
      v == edit || (VoicedPitch < v && low <= v <= high)
  {
    if i + l < |org| && org[i] > VoicedPitch && VoicedCount(org, i - l, i + l) > 1 {
      var n := VoicedCount(org, i - l, i + l);
      var sum := VoicedSum(org, i - l, i + l);
      VoicedSumBounds(org, i - l, i + l, low, high);
      QuotientBetween(sum, n, low);
      QuotientBetween(sum, n, VoicedPitch + 1);
      QuotientBelow(sum, n, high);
      assert TruncDiv(sum, n) == sum / n;
    }
  }

  lemma QuotientBetween(a: int, n: int, low: int)
    requires n > 0 && low * n <= a
    ensures low <= a / n
  {
    var q := a / n;
    assert low * n < (q + 1) * n by {
      assert (q + 1) * n == q * n + n;
    }
    MulCancel(low, q + 1, n);
  }

  lemma QuotientBelow(a: int, n: int, high: int)
    requires n > 0 && a <= high * n
    ensures a / n <= high
  {
    var q := a / n;
    assert q * n < (high + 1) * n by {
      assert (high + 1) * n == high * n + n;
    }
    MulCancel(q, high + 1, n);
  }

  lemma MulCancel(x: int, y: int, n: int)
    requires n > 0 && x * n < y * n
    ensures x < y
  {
    if x >= y {
      MonoMul(y, x, n);
    }
  }

  lemma MonoMul(a: int, b: int, n: int)
    requires a <= b && n >= 0
    ensures a * n <= b * n
  {
    assert b * n - a * n == (b - a) * n;
  }

  // ---------------------------------------------------------------------
  // The kero blend of the song engine
  // ---------------------------------------------------------------------

  /** The base key of the kero blend: the library's `BaseKey` setting, or 5900. */
  function BaseKey(setting: Option<int>): int {
    if setting.Some? then setting.value else 5900
  }

  /**
   * One frame of the kero blend: a voiced pitch moves the fraction `rate`
   * of the way to the base key and is rounded; a pitch below 10 is kept.
   * The result never leaves the range between the pitch and the base key,
   * a rate of 0 keeps the pitch and a rate of 1 gives the base key.
   */
  function KeroValue(p: int, rate: real, baseKey: int): (r: int)
    requires 0.0 <= rate <= 1.0
    ensures p < 10 ==> r == p
    ensures p >= 10 ==> Min(p, baseKey) <= r <= Max(p, baseKey)
    ensures p >= 10 && rate == 0.0 ==> r == p
    ensures p >= 10 && rate == 1.0 ==> r == baseKey
  {
    if p < 10 then p
    else
      BlendBetween(p, baseKey, rate);
      Round(KeroMix(p, rate, baseKey))
  }

  /** `(1 - rate) * p + rate * q`. */
  function KeroMix(p: int, rate: real, q: int): real {
    (1.0 - rate) * p as real + rate * q as real
  }

  /** The blend of two integers lies between them. */
  lemma BlendBetween(p: int, q: int, rate: real)
    requires 0.0 <= rate <= 1.0
    ensures Min(p, q) as real <= KeroMix(p, rate, q) <= Max(p, q) as real
  {
    var v := KeroMix(p, rate, q);
    assert v == p as real + rate * (q - p) as real;
    if p <= q {
      Scale((q - p) as real, rate);
    } else {
      Scale((p - q) as real, rate);
    }
  }

  /**
   * The kero pass: with a `kero` setting, every control point's edited
   * pitch is blended towards the base key at the setting clamped to
   * [0, 1]; without one nothing changes.
   */
  method KeroBlend(pitEdit: array<int>, kero: Option<real>, baseKeySetting: Option<int>)
    modifies pitEdit
    ensures kero.None? ==> pitEdit[..] == old(pitEdit[..])
    ensures kero.Some? ==> forall i :: 0 <= i < pitEdit.Length ==>
      pitEdit[i] == KeroValue(old(pitEdit[i]), ClampReal(kero.value, 0.0, 1.0), BaseKey(baseKeySetting))
  {
    var baseKey := BaseKey(baseKeySetting);
    if kero.None? {
      return;
    }
    var rate := ClampReal(kero.value, 0.0, 1.0);
    var i := 0;
    while i < pitEdit.Length
      invariant 0 <= i <= pitEdit.Length
      invariant forall j :: 0 <= j < i ==> pitEdit[j] == KeroValue(old(pitEdit[j]), rate, baseKey)
      invariant forall j :: i <= j < pitEdit.Length ==> pitEdit[j] == old(pitEdit[j])
    {
      var p := pitEdit[i];
      if p >= 10 {
        pitEdit[i] := Round(KeroMix(p, rate, baseKey));
      }
      i := i + 1;
    }
  }
}
