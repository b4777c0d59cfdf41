/**
 * The unit sequencer both engines run at the top of `Play`: it turns the
 * script into the list of unit aliases to fetch, `"<vowel> <kana>"` for
 * each mora and `"<vowel> R"` for a breath or pause, keeping the previous
 * character as context. `vowel` is `MoraUtility.GetVowel`, which is not
 * part of this model and is taken as a parameter.
 */
module Sequencer {
  import opened Script

  /** What a unit stands for: a mora, the pause before a section, or the end pause. */
  datatype Source = OfMora(mora: Mora) | OfSection(section: Section) | OfEnd(end: EndSection)

  /** One entry of `moraList`: the alias to fetch and the script element it was made for. */
  datatype Unit = Unit(alias: string, source: Source)

  /** The context after a mora: cleared by `ッ`, kept by `ー`, otherwise the mora's character. */
  function ContextAfter(last: string, character: string): string {
    if character == "ッ" then "" else if character == "ー" then last else character
  }

  /** The unit for one mora, after context `last`. */
  function MoraUnit(last: string, m: Mora, vowel: string -> string): Unit {
    Unit(vowel(last) + " " + m.character, OfMora(m))
  }

  /** The units of a run of moras entered with context `last`, and the context after them. */
  function MorasUnits(last: string, moras: seq<Mora>, vowel: string -> string): (string, seq<Unit>)
  {
    if |moras| == 0 then (last, [])
    else
      var (ctx, units) := MorasUnits(last, moras[..|moras| - 1], vowel);
      var m := moras[|moras| - 1];
      (ContextAfter(ctx, m.character), units + [MoraUnit(ctx, m, vowel)])
  }

  /**
   * The pause unit in front of a section: only after a voiced context and
   * only when the section has a pause; it clears the context.
   */
  function PauseUnit(last: string, s: Section, vowel: string -> string): (string, seq<Unit>) {
    if last != "" && s.pause.kind != NoPause then ("", [Unit(vowel(last) + " R", OfSection(s))])
    else (last, [])
  }

  /** The units of one section entered with context `last`, and the context after it. */
  function SectionUnits(last: string, s: Section, vowel: string -> string): (string, seq<Unit>) {
    var (ctx, pre) := PauseUnit(last, s, vowel);
    var (ctx', moras) := MorasUnits(ctx, s.moras, vowel);
    (ctx', pre + moras)
  }

  /** The units of a run of sections, starting without context, and the context after them. */
  function SectionsUnits(sections: seq<Section>, vowel: string -> string): (string, seq<Unit>)
  {
    if |sections| == 0 then ("", [])
    else
      var (ctx, units) := SectionsUnits(sections[..|sections| - 1], vowel);
      var (ctx', more) := SectionUnits(ctx, sections[|sections| - 1], vowel);
      (ctx', units + more)
  }

  /** The trailing breath unit for the end section, after a voiced context. */
  function EndUnit(last: string, e: EndSection, vowel: string -> string): seq<Unit> {
    if last != "" then [Unit(vowel(last) + " R", OfEnd(e))] else []
  }

  /** The whole `moraList` of a script. */
  function Units(script: TalkScript, vowel: string -> string): seq<Unit> {
    var (ctx, units) := SectionsUnits(script.sections, vowel);
    units + EndUnit(ctx, script.endSection, vowel)
  }

  /** The sequencing loops of `Play`: one pass over the sections and their moras. */
  method Sequence(script: TalkScript, vowel: string -> string) returns (moraList: seq<Unit>)
    ensures moraList == Units(script, vowel)
  {
    var sections := script.sections;
    moraList := [];
    var lastChar := "";
    var i := 0;
    while i < |sections|
      invariant 0 <= i <= |sections|
      invariant (lastChar, moraList) == SectionsUnits(sections[..i], vowel)
    {
      var section := sections[i];
      var pre := [];
      if lastChar != "" {
        if section.pause.kind != NoPause {
          pre := [Unit(vowel(lastChar) + " R", OfSection(section))];
          lastChar := "";
        }
      }
      var units;
      lastChar, units := SequenceMoras(lastChar, section.moras, vowel);
      moraList := moraList + (pre + units);
      assert sections[..i + 1][..i] == sections[..i];
      i := i + 1;
    }
    assert sections[..i] == sections;
    if lastChar != "" {
      moraList := moraList + [Unit(vowel(lastChar) + " R", OfEnd(script.endSection))];
    }
  }

  /** The inner loop of the sequencer: the units of one section's moras. */
  method SequenceMoras(last: string, moras: seq<Mora>, vowel: string -> string) returns (lastChar: string, units: seq<Unit>)
    ensures (lastChar, units) == MorasUnits(last, moras, vowel)
  {
    lastChar, units := last, [];
    var j := 0;
    while j < |moras|
      invariant 0 <= j <= |moras|
      invariant (lastChar, units) == MorasUnits(last, moras[..j], vowel)
    {
      assert moras[..j + 1][..j] == moras[..j];
      units := units + [MoraUnit(lastChar, moras[j], vowel)];
      lastChar := ContextAfter(lastChar, moras[j].character);
      j := j + 1;
    }
    assert moras[..j] == moras;
  }

  /** Whether a unit is a pause or breath unit rather than a mora unit. */
  predicate IsPause(u: Unit) {
    !u.source.OfMora?
  }

  /** The moras the units were made for, in order. */
  function MorasOf(units: seq<Unit>): seq<Mora> {
    if |units| == 0 then []
    else MorasOf(units[..|units| - 1]) + (if units[|units| - 1].source.OfMora? then [units[|units| - 1].source.mora] else [])
  }

  lemma MorasOfAppend(a: seq<Unit>, b: seq<Unit>)
    ensures MorasOf(a + b) == MorasOf(a) + MorasOf(b)
  {
    if |b| > 0 {
      assert (a + b)[..|a + b| - 1] == a + b[..|b| - 1];
      MorasOfAppend(a, b[..|b| - 1]);
    } else {
      assert a + b == a;
    }
  }

  lemma {:induction false} MorasUnitsMoras(last: string, moras: seq<Mora>, vowel: string -> string)
    ensures MorasOf(MorasUnits(last, moras, vowel).1) == moras
  {
    if |moras| > 0 {
      var (ctx, units) := MorasUnits(last, moras[..|moras| - 1], vowel);
      MorasUnitsMoras(last, moras[..|moras| - 1], vowel);
      MorasOfAppend(units, [MoraUnit(ctx, moras[|moras| - 1], vowel)]);
      assert moras == moras[..|moras| - 1] + [moras[|moras| - 1]];
    }
  }

  lemma {:induction false} SectionsUnitsMoras(sections: seq<Section>, vowel: string -> string)
    ensures MorasOf(SectionsUnits(sections, vowel).1) == AllMoras(sections)
  {
    if |sections| > 0 {
      var init := sections[..|sections| - 1];
      var s := sections[|sections| - 1];
      var (ctx, units) := SectionsUnits(init, vowel);
      SectionsUnitsMoras(init, vowel);
      var (ctx0, pre) := PauseUnit(ctx, s, vowel);
      MorasUnitsMoras(ctx0, s.moras, vowel);
      var more := SectionUnits(ctx, s, vowel).1;
      MorasOfAppend(pre, MorasUnits(ctx0, s.moras, vowel).1);
      assert MorasOf(pre) == [] by {
        if |pre| > 0 {
          assert pre[..0] == [];
        }
      }
      MorasOfAppend(units, more);
    }
  }

  /**
   * Every mora of the script yields exactly one mora unit, in reading
   * order: the mora units of `moraList` are the script's moras.
   */
  lemma UnitsMoras(script: TalkScript, vowel: string -> string)
    ensures MorasOf(Units(script, vowel)) == AllMoras(script.sections)
    ensures |MorasOf(Units(script, vowel))| == MoraCount(script.sections)
  {
    var (ctx, units) := SectionsUnits(script.sections, vowel);
    SectionsUnitsMoras(script.sections, vowel);
    var e := EndUnit(ctx, script.endSection, vowel);
    MorasOfAppend(units, e);
    assert MorasOf(e) == [] by {
      if |e| > 0 {
        assert e[..0] == [];
      }
    }
  }

  /**
   * A voiced context always comes from the last unit: a mora unit whose
   * character is not `ッ`.
   */
  predicate Voiced(ctx: string, units: seq<Unit>) {
    ctx != "" ==> |units| > 0 && units[|units| - 1].source.OfMora? && units[|units| - 1].source.mora.character != "ッ"
  }

  /** Every pause unit follows a mora unit whose character is not `ッ`. */
  predicate PausesFollowVoice(units: seq<Unit>) {
    forall k :: 0 <= k < |units| && IsPause(units[k]) ==>
      k > 0 && units[k - 1].source.OfMora? && units[k - 1].source.mora.character != "ッ"
  }

  lemma {:induction false} MorasUnitsVoiced(last: string, prefix: seq<Unit>, moras: seq<Mora>, vowel: string -> string)
    requires Voiced(last, prefix) && PausesFollowVoice(prefix)
    ensures var (ctx, units) := MorasUnits(last, moras, vowel);
      Voiced(ctx, prefix + units) && PausesFollowVoice(prefix + units)
  {
    if |moras| > 0 {
      var (ctx, units) := MorasUnits(last, moras[..|moras| - 1], vowel);
      MorasUnitsVoiced(last, prefix, moras[..|moras| - 1], vowel);
      var m := moras[|moras| - 1];
      var all := prefix + units + [MoraUnit(ctx, m, vowel)];
      assert prefix + (units + [MoraUnit(ctx, m, vowel)]) == all;
      assert forall k :: 0 <= k < |all| - 1 ==> all[k] == (prefix + units)[k];
    } else {
      assert prefix + [] == prefix;
    }
  }

  lemma {:induction false} SectionsUnitsVoiced(sections: seq<Section>, vowel: string -> string)
    ensures Voiced(SectionsUnits(sections, vowel).0, SectionsUnits(sections, vowel).1)
    ensures PausesFollowVoice(SectionsUnits(sections, vowel).1)
  {
    if |sections| > 0 {
      var init := sections[..|sections| - 1];
      var s := sections[|sections| - 1];
      var ctx := SectionsUnits(init, vowel).0;
      var units := SectionsUnits(init, vowel).1;
      SectionsUnitsVoiced(init, vowel);
      var ctx0 := PauseUnit(ctx, s, vowel).0;
      var pre := PauseUnit(ctx, s, vowel).1;
      PauseUnitVoiced(ctx, units, s, vowel);
      MorasUnitsVoiced(ctx0, units + pre, s.moras, vowel);
      assert units + pre + MorasUnits(ctx0, s.moras, vowel).1 == units + SectionUnits(ctx, s, vowel).1;
    }
  }

  lemma PauseUnitVoiced(ctx: string, units: seq<Unit>, s: Section, vowel: string -> string)
    requires Voiced(ctx, units) && PausesFollowVoice(units)
    ensures Voiced(PauseUnit(ctx, s, vowel).0, units + PauseUnit(ctx, s, vowel).1)
    ensures PausesFollowVoice(units + PauseUnit(ctx, s, vowel).1)
  {
    var all := units + PauseUnit(ctx, s, vowel).1;
    if ctx != "" && s.pause.kind != NoPause {
      assert forall k :: 0 <= k < |units| ==> all[k] == units[k];
    } else {
      assert all == units;
    }
  }

  /**
   * Pause units are never first and never follow another pause unit or a
   * `ッ`: the unit before each of them is a voiced mora unit.
   */
  lemma UnitsPausesFollowVoice(script: TalkScript, vowel: string -> string)
    ensures PausesFollowVoice(Units(script, vowel))
  {
    var (ctx, units) := SectionsUnits(script.sections, vowel);
    SectionsUnitsVoiced(script.sections, vowel);
    var all := units + EndUnit(ctx, script.endSection, vowel);
    assert forall k :: 0 <= k < |units| ==> all[k] == units[k];
  }
}
