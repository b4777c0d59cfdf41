/**
 * The talk engine's mora attributes and accent values, assigned in `Play`
 * before sequencing: each mora takes its section's volume, pitch,
 * emphasis and speed, and an accent value from the shape of its accent
 * group (the section), its position and the group's position in the
 * script. Moras are told apart by position: `IndexOf`, `First` and `Last`
 * compare objects, and every mora is a distinct object.
 */
module Accent {
  import opened Wrappers
  import opened Script

  /** Whether every mora of the group has the first mora's accent flag. */
  predicate Uniform(moras: seq<Mora>) {
    forall k :: 0 <= k < |moras| ==> moras[k].accent == moras[0].accent
  }

  /** `Moras.FirstOrDefault()?.Accent`: the first mora's flag, or null for an empty group. */
  function FirstAccent(moras: seq<Mora>): Option<bool> {
    if |moras| == 0 then None else Some(moras[0].accent)
  }

  /** The lifted `!` on a nullable flag. */
  function LiftedNot(b: Option<bool>): Option<bool> {
    match b
    case None => None
    case Some(v) => Some(!v)
  }

  /** The "hl" test as written: the first flag is true and its negation is true. */
  predicate HighLow(moras: seq<Mora>) {
    FirstAccent(moras) == Some(true) && LiftedNot(FirstAccent(moras)) == Some(true)
  }

  /** The "lh" test as written: the negated first flag is true and the first flag is true. */
  predicate LowHigh(moras: seq<Mora>) {
    LiftedNot(FirstAccent(moras)) == Some(true) && FirstAccent(moras) == Some(true)
  }

  /** The number of unaccented moras (`Count(m => !m.Accent)`). */
  function Unaccented(moras: seq<Mora>): (n: nat)
    ensures n <= |moras|
  {
    if |moras| == 0 then 0
    else Unaccented(moras[..|moras| - 1]) + (if moras[|moras| - 1].accent then 0 else 1)
  }

  /** The first accented mora's index, when there is one. */
  function FirstAccented(moras: seq<Mora>, from: nat): (r: Option<nat>)
    requires from <= |moras|
    ensures r.Some? ==> from <= r.value < |moras| && moras[r.value].accent
    ensures r.Some? ==> forall k :: from <= k < r.value ==> !moras[k].accent
    ensures r.None? <==> forall k :: from <= k < |moras| ==> !moras[k].accent
    decreases |moras| - from
  {
    if from == |moras| then None
    else if moras[from].accent then Some(from)
    else FirstAccented(moras, from + 1)
  }

  /** The unaccented moras of a group are at least those before `n` that are unaccented, plus any after. */
  lemma {:induction false} UnaccentedCovers(moras: seq<Mora>, n: nat, i: nat)
    requires n <= |moras| && i < |moras| && !moras[i].accent && n <= i
    requires forall k :: 0 <= k < n ==> !moras[k].accent
    ensures Unaccented(moras) >= n + 1
  {
    if i + 1 < |moras| {
      UnaccentedCovers(moras[..|moras| - 1], n, i);
    } else {
      UnaccentedPrefix(moras[..|moras| - 1], n);
    }
  }

  /** A prefix of `n` unaccented moras counts `n`. */
  lemma {:induction false} UnaccentedPrefix(moras: seq<Mora>, n: nat)
    requires n <= |moras|
    requires forall k :: 0 <= k < n ==> !moras[k].accent
    ensures Unaccented(moras) >= n
  {
    if |moras| > 0 {
      if n == |moras| {
        UnaccentedPrefix(moras[..|moras| - 1], n - 1);
      } else {
        UnaccentedPrefix(moras[..|moras| - 1], n);
      }
    }
  }

  /** `a / b` on doubles where `b` is a count that is positive wherever the engine divides by it. */
  function Ratio(a: real, b: nat): real {
    if b == 0 then 0.0 else a / b as real
  }

  /** The "hl" formula: +2 when accented, else a fall from 2 to -2 over the group's unaccented count. */
  function HighLowTerm(moras: seq<Mora>, i: nat): real {
    if i < |moras| && moras[i].accent then 2.0
    else -2.0 + Ratio(4.0 * (|moras| - i - 1) as real, Unaccented(moras))
  }

  /** The "lh" formula: nothing when accented, else a rise from -2 over the group's unaccented count. */
  function LowHighTerm(moras: seq<Mora>, i: nat): real {
    if i < |moras| && moras[i].accent then 0.0
    else -2.0 + Ratio(2.0 * i as real, Unaccented(moras))
  }

  /**
   * The "lhl" formula: +2 when accented; an unaccented mora before the
   * first accented one (index `h`) rises from -2, one after it falls
   * back towards -2.
   */
  function LowHighLowTerm(moras: seq<Mora>, i: nat): real
    requires i < |moras| && !Uniform(moras)
  {
    if moras[i].accent then 2.0
    else
      LhlDenominators(moras, i);
      var h := FirstAccented(moras, 0).value;
      if i < h then -2.0 + 4.0 * i as real / h as real
      else -2.0 + 4.0 * (|moras| - i - 1) as real / (Unaccented(moras) - h) as real
  }

  /**
   * The pattern term of mora `i`: nothing for a flat group, otherwise the
   * formula the tests pick: "hl", "lh", or else "lhl". The "hl" and "lh"
   * tests never hold (see `HighLowLowHighNever`), so every group that is
   * not flat takes "lhl".
   */
  function PatternTerm(moras: seq<Mora>, i: nat): real
    requires i < |moras|
  {
    if Uniform(moras) then 0.0
    else if HighLow(moras) then HighLowTerm(moras, i)
    else if LowHigh(moras) then LowHighTerm(moras, i)
    else LowHighLowTerm(moras, i)
  }

  /** The base value: 0.5 at either end of the group, else 1.5, lowered by 1 in a later section without pause. */
  function BaseAccent(n: nat, i: nat, isSecond: bool): real {
    if i == 0 || i == n - 1 then 0.5 else 1.5 + (if isSecond then -1.0 else 0.0)
  }

  /** The accent value `SetAccent` stores for mora `i` of a group. */
  function AccentValue(moras: seq<Mora>, i: nat, isSecond: bool): real
    requires i < |moras|
  {
    var n := |moras|;
    BaseAccent(n, i, isSecond)
      + PatternTerm(moras, i)
      + (if i == 0 && n > 1 && moras[0].accent && moras[1].accent then -1.0 else 0.0)
      + (if n >= 5 then i as real / n as real else 0.0)
  }

  /** The "hl" and "lh" tests are self-contradictory: they hold for no group. */
  lemma HighLowLowHighNever(moras: seq<Mora>)
    ensures !HighLow(moras) && !LowHigh(moras)
  {
    if |moras| > 0 {
      assert FirstAccent(moras) == Some(moras[0].accent);
    }
  }

  /**
   * Whenever the "lhl" formula runs on an unaccented mora of a group
   * that is not flat, an accented mora exists (so `First(m => m.Accent)`
   * does not throw) and the denominator the formula divides by is
   * positive.
   */
  lemma LhlDenominators(moras: seq<Mora>, i: nat)
    requires i < |moras| && !Uniform(moras) && !moras[i].accent
    ensures FirstAccented(moras, 0).Some?
    ensures var h := FirstAccented(moras, 0).value;
      (i < h ==> h > 0) && (i >= h ==> i > h && Unaccented(moras) - h > 0)
  {
    var k :| 0 <= k < |moras| && moras[k].accent != moras[0].accent;
    assert moras[k].accent || moras[0].accent;
    var h := FirstAccented(moras, 0).value;
    if i >= h {
      UnaccentedCovers(moras, h, i);
    }
  }

  /** A flat group takes no pattern term; in any other group the term is the "lhl" one. */
  lemma PatternIsLowHighLow(moras: seq<Mora>, i: nat)
    requires i < |moras|
    ensures Uniform(moras) ==> PatternTerm(moras, i) == 0.0
    ensures !Uniform(moras) ==> PatternTerm(moras, i) == LowHighLowTerm(moras, i)
  {
    HighLowLowHighNever(moras);
  }

  /**
   * In an accent group that is not flat an accented mora gets +2, and an
   * unaccented one before the first accented mora gets a value in [-2, 2).
   */
  lemma LowHighLowRange(moras: seq<Mora>, i: nat)
    requires i < |moras| && !Uniform(moras)
    ensures moras[i].accent ==> LowHighLowTerm(moras, i) == 2.0
    ensures !moras[i].accent && i < FirstAccented(moras, 0).value ==> -2.0 <= LowHighLowTerm(moras, i) < 2.0
  {
    if !moras[i].accent {
      LhlDenominators(moras, i);
      var h := FirstAccented(moras, 0).value;
      if i < h {
        RiseBounds(i, h);
      }
    }
  }

  /** The rise `-2 + 4i/h` before position `h` stays in [-2, 2). */
  lemma RiseBounds(i: nat, h: nat)
    requires i < h
    ensures -2.0 <= -2.0 + 4.0 * i as real / h as real < 2.0
  {
    var q := i as real / h as real;
    assert q * h as real == i as real;
    assert 4.0 * i as real / h as real == 4.0 * q;
  }

  /** Mora `i` of the section after the attribute copy and `SetAccent`. */
  function PreparedMora(s: Section, i: nat, isSecond: bool): Mora
    requires i < |s.moras|
  {
    s.moras[i].(volume := s.volume, pitch := s.pitch,
                speed := s.speed * (if i == |s.moras| - 1 then 0.98 else 1.0),
                emphasis := s.emphasis,
                accentValue := AccentValue(s.moras, i, isSecond))
  }

  /** Whether section `k` of the script is a later section joined without a pause. */
  predicate IsSecondSection(sections: seq<Section>, k: nat)
    requires k < |sections|
  {
    k != 0 && sections[k].pause.kind == NoPause
  }

  /** The mora loop of one section: copies the section's attributes into each mora and sets its accent. */
  method PrepareSection(s: Section, isSecond: bool) returns (r: Section)
    ensures r.(moras := s.moras) == s
    ensures |r.moras| == |s.moras|
    ensures forall i :: 0 <= i < |s.moras| ==> r.moras[i] == PreparedMora(s, i, isSecond)
  {
    var moras := s.moras;
    var i := 0;
    while i < |moras|
      invariant 0 <= i <= |moras| && |moras| == |s.moras|
      invariant forall k :: 0 <= k < i ==> moras[k] == PreparedMora(s, k, isSecond)
      invariant forall k :: i <= k < |moras| ==> moras[k] == s.moras[k]
    {
      moras := moras[i := PreparedMora(s, i, isSecond)];
      i := i + 1;
    }
    r := s.(moras := moras);
  }

  /** Whether the question ending can be applied: `Sections.Last().Moras.Last()` exists. */
  predicate QuestionSafe(script: TalkScript) {
    script.endSection.endSymbol == "？" ==>
      |script.sections| > 0 && |script.sections[|script.sections| - 1].moras| > 0
  }

  /**
   * The talk engine's preparation of the whole script: every section's
   * moras prepared, then, for a question, the end section's accent set to
   * 10 and the last mora's raised by 2.
   */
  method PrepareScript(script: TalkScript) returns (r: TalkScript)
    requires QuestionSafe(script)
    ensures |r.sections| == |script.sections|
    ensures r.originalText == script.originalText && r.engineName == script.engineName
    ensures forall k :: 0 <= k < |script.sections| ==>
      var s := script.sections[k];
      && r.sections[k].(moras := s.moras) == s
      && |r.sections[k].moras| == |s.moras|
      && (forall i :: 0 <= i < |s.moras| ==>
           r.sections[k].moras[i] == Adjusted(script, k, i, PreparedMora(s, i, IsSecondSection(script.sections, k))))
    ensures r.endSection == if script.endSection.endSymbol == "？" then script.endSection.(accentValue := 10.0)
                            else script.endSection
  {
    var sections := script.sections;
    var k := 0;
    while k < |sections|
      invariant 0 <= k <= |sections| && |sections| == |script.sections|
      invariant forall j :: k <= j < |sections| ==> sections[j] == script.sections[j]
      invariant forall j :: 0 <= j < k ==> Prepared(script, sections[j], j)
    {
      var s := PrepareSection(sections[k], IsSecondSection(script.sections, k));
      sections := sections[k := s];
      k := k + 1;
    }
    var endSection := script.endSection;
    if endSection.endSymbol == "？" {
      endSection := endSection.(accentValue := 10.0);
      var last := sections[|sections| - 1];
      var m := last.moras[|last.moras| - 1];
      last := last.(moras := last.moras[|last.moras| - 1 := m.(accentValue := m.accentValue + 2.0)]);
      sections := sections[|sections| - 1 := last];
    }
    r := script.(sections := sections, endSection := endSection);
  }

  /** Whether `r` is section `k` of the script after its mora loop. */
  predicate Prepared(script: TalkScript, r: Section, k: nat)
    requires k < |script.sections|
  {
    var s := script.sections[k];
    && r.(moras := s.moras) == s
    && |r.moras| == |s.moras|
    && forall i :: 0 <= i < |s.moras| ==> r.moras[i] == PreparedMora(s, i, IsSecondSection(script.sections, k))
  }

  /** The question ending's extra +2 on the script's very last mora. */
  function Adjusted(script: TalkScript, k: nat, i: nat, m: Mora): Mora
    requires k < |script.sections|
  {
    if script.endSection.endSymbol == "？" && k == |script.sections| - 1 && i == |script.sections[k].moras| - 1
    then m.(accentValue := m.accentValue + 2.0)
    else m
  }
}
