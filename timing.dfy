/**
 * The timing set-up of both engines' `Play`: the speed factor, the wait
 * before the first unit, the target time of each unit, and the silent
 * buffers returned for a script without sound. Times are in seconds as
 * doubles, modelled as reals. `MoraUtility.GetMoraSpan_ms`, which the
 * talk engine consults, is not part of this model and is a parameter.
 */
module Timing {
  import opened Arith
  import opened Text
  import opened Wrappers
  import opened Script
  import opened Sequencer

  /** The speed factor: the voice's speed times the master speed, clamped to [0.1, 10]. */
  function SpeedValue(voice: real, master: real): (r: real)
    ensures 0.1 <= r <= 10.0
    ensures 0.1 <= voice * master <= 10.0 ==> r == voice * master
  {
    ClampReal(voice * master, 0.1, 10.0)
  }

  /** Whether the script's first section exists and has a pause. */
  predicate FirstPaused(sections: seq<Section>) {
    |sections| > 0 && sections[0].pause.kind != NoPause
  }

  /**
   * The wait before the first unit, in seconds: the `prePause` setting in
   * milliseconds when it is positive, else 0.2 s, raised to the first
   * section's pause when that is longer.
   */
  function PrePause(setting: Option<int>, sections: seq<Section>): (r: real)
    ensures var base := if setting.Some? && setting.value > 0 then setting.value as real / 1000.0 else 0.2;
      && r >= base
      && (FirstPaused(sections) ==> r >= sections[0].pause.spanMs as real / 1000.0)
      && (r == base || (FirstPaused(sections) && r == sections[0].pause.spanMs as real / 1000.0))
  {
    var p := if setting.Some? && setting.value > 0 then setting.value as real / 1000.0 else 0.2;
    if FirstPaused(sections) && sections[0].pause.spanMs as real > p * 1000.0 then sections[0].pause.spanMs as real / 1000.0
    else p
  }

  /**
   * How a mora moves the target time on: the song engine gives each mora
   * a beat length (`60 / (Speed * speed)`), the talk engine a length from
   * the mora's span and the next unit's span.
   */
  datatype Pace = SongPace | TalkPace(span: string -> int)

  /** How far unit `k` moves the target time on. */
  function Advance(pace: Pace, units: seq<Unit>, k: nat, speed: real): real
    requires k < |units| && speed > 0.0
  {
    match units[k].source
    case OfEnd(e) => e.pause.spanMs as real / 1000.0 / speed
    case OfSection(s) => s.pause.spanMs as real / 1000.0 / speed
    case OfMora(m) =>
      assert units[k].source.OfMora?;
      MoraAdvance(pace, units, k, m.speed * speed)
  }

  /**
   * A mora unit's advance, `rate` being its speed times the speed factor.
   * A rate of 0 stands for the infinite speed of a zero-length note, which
   * advances by nothing.
   */
  function MoraAdvance(pace: Pace, units: seq<Unit>, k: nat, rate: real): real
    requires k < |units|
  {
    if rate == 0.0 then 0.0 else
    match pace
    case SongPace => 60.0 / rate
    case TalkPace(span) =>
      if k + 1 < |units| then 0.85 * (span(units[k].alias) + span(units[k + 1].alias) + 200) as real / 3.0 / 1000.0 / rate
      else 0.85 * (span(units[k].alias) + 200) as real / 2.0 / 1000.0 / rate
  }

  /** The running target time before unit `k`. */
  function Acc(pace: Pace, units: seq<Unit>, speed: real, start: real, k: nat): real
    requires k <= |units| && speed > 0.0
  {
    if k == 0 then start else Acc(pace, units, speed, start, k - 1) + Advance(pace, units, k - 1, speed)
  }

  /** Whether unit `k` is the end breath of a sentence without an end pause. */
  predicate ClippedEnd(units: seq<Unit>, k: nat)
    requires k < |units|
  {
    units[k].source.OfEnd? && units[k].source.end.pause.spanMs == 0
  }

  /** Unit `k`'s target time: the running time before it, 20 ms earlier for an end breath without a pause. */
  function TargetTime(pace: Pace, units: seq<Unit>, speed: real, start: real, k: nat): real
    requires k < |units| && speed > 0.0
  {
    Acc(pace, units, speed, start, k) - (if ClippedEnd(units, k) then 0.02 else 0.0)
  }

  /**
   * The accumulator of `Play`: starts at the pre-pause divided by the
   * speed factor, records each unit's time and then moves it on. Moras
   * are told apart by position (the talk engine's `IndexOf` finds the
   * unit itself, every mora being a distinct object).
   */
  method Accumulate(pace: Pace, units: seq<Unit>, speed: real, prePause: real)
    returns (times: seq<real>, timingEdit: real)
    requires speed > 0.0
    ensures |times| == |units|
    ensures forall k :: 0 <= k < |units| ==> times[k] == TargetTime(pace, units, speed, prePause / speed, k)
    ensures timingEdit == Acc(pace, units, speed, prePause / speed, |units|)
  {
    ghost var start := prePause / speed;
    timingEdit := prePause / speed;
    times := [];
    var i := 0;
    while i < |units|
      invariant 0 <= i <= |units| && |times| == i
      invariant forall k :: 0 <= k < i ==> times[k] == TargetTime(pace, units, speed, start, k)
      invariant timingEdit == Acc(pace, units, speed, start, i)
    {
      times := times + [timingEdit];
      if ClippedEnd(units, i) {
        times := times[i := times[i] - 0.02];
      }
      timingEdit := timingEdit + Advance(pace, units, i, speed);
      i := i + 1;
    }
  }

  /** Unit `k` moves the time forward: its pause or span and its speed are not negative. */
  predicate UnitForward(pace: Pace, units: seq<Unit>, k: nat)
    requires k < |units|
  {
    match units[k].source
    case OfEnd(e) => e.pause.spanMs >= 0
    case OfSection(s) => s.pause.spanMs >= 0
    case OfMora(m) =>
      && m.speed >= 0.0
      && (pace.TalkPace? ==> pace.span(units[k].alias) >= 0)
      && (pace.TalkPace? && k + 1 < |units| ==> pace.span(units[k + 1].alias) >= 0)
  }

  /** Every unit moves the time forward. */
  predicate Forward(pace: Pace, units: seq<Unit>) {
    forall k :: 0 <= k < |units| ==> UnitForward(pace, units, k)
  }

  lemma AdvanceForward(pace: Pace, units: seq<Unit>, k: nat, speed: real)
    requires k < |units| && speed > 0.0 && Forward(pace, units)
    ensures Advance(pace, units, k, speed) >= 0.0
  {
    assert UnitForward(pace, units, k);
    match units[k].source
    case OfEnd(e) =>
      DivNonNeg(e.pause.spanMs as real / 1000.0, speed);
    case OfSection(s) =>
      DivNonNeg(s.pause.spanMs as real / 1000.0, speed);
    case OfMora(m) =>
      var rate := m.speed * speed;
      if m.speed == 0.0 {
        assert rate == 0.0;
      } else {
        PositiveProduct(m.speed, speed);
        match pace
        case SongPace =>
          DivNonNeg(60.0, rate);
        case TalkPace(span) =>
          if k + 1 < |units| {
            DivNonNeg(0.85 * (span(units[k].alias) + span(units[k + 1].alias) + 200) as real / 3.0 / 1000.0, rate);
          } else {
            DivNonNeg(0.85 * (span(units[k].alias) + 200) as real / 2.0 / 1000.0, rate);
          }
      }
  }

  lemma DivNonNeg(a: real, b: real)
    requires a >= 0.0 && b > 0.0
    ensures a / b >= 0.0
  {
  }

  lemma PositiveProduct(a: real, b: real)
    requires a > 0.0 && b > 0.0
    ensures a * b > 0.0
  {
  }

  /** The running time never goes back. */
  lemma {:induction false} AccMonotone(pace: Pace, units: seq<Unit>, speed: real, start: real, i: nat, k: nat)
    requires i <= k <= |units| && speed > 0.0 && Forward(pace, units)
    ensures Acc(pace, units, speed, start, i) <= Acc(pace, units, speed, start, k)
    decreases k
  {
    if i < k {
      AccMonotone(pace, units, speed, start, i, k - 1);
      AdvanceForward(pace, units, k - 1, speed);
    }
  }

  /**
   * The target times are in order, except that an end breath without a
   * pause may be moved back by up to 20 ms.
   */
  lemma TargetsOrdered(pace: Pace, units: seq<Unit>, speed: real, start: real, i: nat, k: nat)
    requires i <= k < |units| && speed > 0.0 && Forward(pace, units)
    requires !ClippedEnd(units, k)
    ensures TargetTime(pace, units, speed, start, i) <= TargetTime(pace, units, speed, start, k)
    ensures TargetTime(pace, units, speed, start, 0) >= start - 0.02
  {
    AccMonotone(pace, units, speed, start, i, k);
  }

  /**
   * A song mora whose speed is `60 / len`, as the score converter writes
   * it, advances the time by the note's length divided by the speed
   * factor.
   */
  lemma NoteAdvance(units: seq<Unit>, k: nat, speed: real, len: real)
    requires k < |units| && speed > 0.0 && len > 0.0
    requires units[k].source.OfMora? && units[k].source.mora.speed == 60.0 / len
    ensures Advance(SongPace, units, k, speed) == len / speed
  {
    var m := units[k].source.mora;
    assert m.speed * speed == 60.0 * speed / len;
    assert 60.0 / (60.0 * speed / len) == len / speed;
  }

  /**
   * A mora of speed 0, the score converter's zero-length note, whose
   * speed is infinite in the source, does not move the time on.
   */
  lemma ZeroSpeedAdvance(pace: Pace, units: seq<Unit>, k: nat, speed: real)
    requires k < |units| && speed > 0.0
    requires units[k].source.OfMora? && units[k].source.mora.speed == 0.0
    ensures Advance(pace, units, k, speed) == 0.0
  {
  }

  /** The sum of the pause spans of the sections whose pause is not `None`. */
  function PausedSpans(sections: seq<Section>): int {
    if |sections| == 0 then 0
    else
      var s := sections[|sections| - 1];
      PausedSpans(sections[..|sections| - 1]) + (if s.pause.kind != NoPause then s.pause.spanMs else 0)
  }

  /** The sum of all the sections' pause spans. */
  function AllSpans(sections: seq<Section>): int {
    if |sections| == 0 then 0 else AllSpans(sections[..|sections| - 1]) + sections[|sections| - 1].pause.spanMs
  }

  /** The span of the end pause when its type is not `None`, and 0 otherwise. */
  function EndPaused(script: TalkScript): int {
    if script.endSection.pause.kind != NoPause then script.endSection.pause.spanMs else 0
  }

  /**
   * The length of the buffer `new double[n]` allocates, or `None` where a
   * negative `n` makes that allocation throw.
   */
  function BufferLength(n: int): (r: Option<nat>)
    ensures r.None? <==> n < 0
    ensures r.Some? ==> r.value == n
  {
    if n < 0 then None else Some(n)
  }

  /**
   * The silent buffer a script without moras plays for: the pauses that
   * are not `None`, the end pause included, in samples; `None` where the
   * count is negative and the allocation throws.
   */
  method ZeroMoraSilence(script: TalkScript, fs: int) returns (length: Option<nat>)
    ensures length == BufferLength(TruncDiv(fs * (PausedSpans(script.sections) + EndPaused(script)), 1000))
  {
    var pauseTime := 0;
    var i := 0;
    while i < |script.sections|
      invariant 0 <= i <= |script.sections|
      invariant pauseTime == PausedSpans(script.sections[..i])
    {
      assert script.sections[..i + 1][..i] == script.sections[..i];
      if script.sections[i].pause.kind != NoPause {
        pauseTime := pauseTime + script.sections[i].pause.spanMs;
      }
      i := i + 1;
    }
    assert script.sections[..i] == script.sections;
    if script.endSection.pause.kind != NoPause {
      pauseTime := pauseTime + script.endSection.pause.spanMs;
    }
    length := BufferLength(TruncDiv(fs * pauseTime, 1000));
  }

  /**
   * The silent buffer returned when every unit's wave is empty: all the
   * pause spans, whatever their type, the end pause included, in samples;
   * `None` where the count is negative and the allocation throws.
   */
  method EmptyWaveSilence(script: TalkScript, fs: int) returns (length: Option<nat>)
    ensures length == BufferLength(TruncDiv((AllSpans(script.sections) + script.endSection.pause.spanMs) * fs, 1000))
  {
    var pauseMs := 0;
    var i := 0;
    while i < |script.sections|
      invariant 0 <= i <= |script.sections|
      invariant pauseMs == AllSpans(script.sections[..i])
    {
      assert script.sections[..i + 1][..i] == script.sections[..i];
      pauseMs := pauseMs + script.sections[i].pause.spanMs;
      i := i + 1;
    }
    assert script.sections[..i] == script.sections;
    pauseMs := pauseMs + script.endSection.pause.spanMs;
    length := BufferLength(TruncDiv(pauseMs * fs, 1000));
  }

  /** Whether every pause of type `None` has a zero span. */
  predicate NonePausesEmpty(sections: seq<Section>) {
    forall k :: 0 <= k < |sections| ==> sections[k].pause.kind == NoPause ==> sections[k].pause.spanMs == 0
  }

  /** Whether no pause span is negative. */
  predicate SpansNonNegative(sections: seq<Section>) {
    forall k :: 0 <= k < |sections| ==> sections[k].pause.spanMs >= 0
  }

  /**
   * The two silent buffers count the same pauses apart from those of type
   * `None`: they agree when those are empty, and otherwise the
   * empty-wave one is at least as long.
   */
  lemma {:induction false} SpansCompare(sections: seq<Section>)
    ensures NonePausesEmpty(sections) ==> PausedSpans(sections) == AllSpans(sections)
    ensures SpansNonNegative(sections) ==> 0 <= PausedSpans(sections) <= AllSpans(sections)
  {
    if |sections| > 0 {
      SpansCompare(sections[..|sections| - 1]);
      assert NonePausesEmpty(sections) ==> NonePausesEmpty(sections[..|sections| - 1]);
      assert SpansNonNegative(sections) ==> SpansNonNegative(sections[..|sections| - 1]);
    }
  }

  /**
   * With a non-negative rate and no negative pause span, neither silent
   * buffer throws, and the one without moras is no longer than the
   * empty-wave one.
   */
  lemma SilenceAllocates(script: TalkScript, fs: int)
    requires fs >= 0 && SpansNonNegative(script.sections) && script.endSection.pause.spanMs >= 0
    ensures var zero := BufferLength(TruncDiv(fs * (PausedSpans(script.sections) + EndPaused(script)), 1000));
      var empty := BufferLength(TruncDiv((AllSpans(script.sections) + script.endSection.pause.spanMs) * fs, 1000));
      zero.Some? && empty.Some? && zero.value <= empty.value
  {
    SpansCompare(script.sections);
    var a := PausedSpans(script.sections) + EndPaused(script);
    var b := AllSpans(script.sections) + script.endSection.pause.spanMs;
    assert 0 <= a <= b;
    MulMonoNat(fs, a, b);
    TruncDivMono(fs * a, b * fs);
  }

  /** Multiplying by a non-negative rate keeps non-negative totals in order. */
  lemma MulMonoNat(fs: int, a: int, b: int)
    requires fs >= 0 && 0 <= a <= b
    ensures 0 <= fs * a <= b * fs
  {
  }

  /** Truncating division by 1000 keeps non-negative numbers non-negative and in order. */
  lemma TruncDivMono(x: int, y: int)
    requires 0 <= x <= y
    ensures 0 <= TruncDiv(x, 1000) <= TruncDiv(y, 1000)
  {
  }

  /** The small-kana aliases whose volume is damped. */
  predicate SmallVowel(alias: string) {
    Contains(alias, " ァ") || Contains(alias, " ィ") || Contains(alias, " ゥ") || Contains(alias, " ェ") || Contains(alias, " ォ")
  }

  /**
   * A unit's volume: its own volume times the volume factor, and 0.7 of
   * that for a small kana. The damping never amplifies a volume or flips
   * its sign, and it changes the volume exactly for a small kana.
   */
  function UnitVolume(alias: string, volume: real, volumeValue: real): (r: real)
    ensures volume * volumeValue >= 0.0 ==> 0.0 <= r <= volume * volumeValue
    ensures r == volume * volumeValue <==> !SmallVowel(alias) || volume * volumeValue == 0.0
  {
    if SmallVowel(alias) then volume * 0.7 * volumeValue else volume * volumeValue
  }

  /** Of two units with the same volume, the small kana gets 0.7 of the other's. */
  lemma SmallKanaDamped(small: string, plain: string, volume: real, volumeValue: real)
    requires SmallVowel(small) && !SmallVowel(plain)
    ensures UnitVolume(small, volume, volumeValue) == 0.7 * UnitVolume(plain, volume, volumeValue)
  {
  }
}
