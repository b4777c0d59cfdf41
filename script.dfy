/**
 * The talk script the engines render: sections (accent phrases) of moras,
 * each section preceded by a pause, and an end section carrying the final
 * pause and the sentence's end symbol. These are the host SDK's
 * `TalkScript`, `Section`, `EndSection`, `Mora` and `Pause` as plain
 * values; a mora's accent value, kept by the SDK as an additional value,
 * is a plain field here.
 */
module Script {

  datatype PauseType = NoPause | Short | Long | Manual

  datatype Pause = Pause(kind: PauseType, spanMs: int)

  datatype Mora = Mora(character: string, accent: bool, volume: real, pitch: real, speed: real,
                       emphasis: real, accentValue: real)

  datatype Section = Section(moras: seq<Mora>, pause: Pause, volume: real, pitch: real, speed: real,
                             emphasis: real, accentValue: real)

  datatype EndSection = EndSection(pause: Pause, endSymbol: string, accentValue: real)

  datatype TalkScript = TalkScript(originalText: string, engineName: string, sections: seq<Section>,
                                   endSection: EndSection)

  /** The number of moras over all sections (`TalkScript.MoraCount`). */
  function MoraCount(sections: seq<Section>): nat {
    if |sections| == 0 then 0
    else MoraCount(sections[..|sections| - 1]) + |sections[|sections| - 1].moras|
  }

  /** All moras of the sections, in reading order. */
  function AllMoras(sections: seq<Section>): (r: seq<Mora>)
    ensures |r| == MoraCount(sections)
  {
    if |sections| == 0 then []
    else AllMoras(sections[..|sections| - 1]) + sections[|sections| - 1].moras
  }
}
