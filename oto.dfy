/**
 * One record of a voice bank's `oto.ini`: which recording a unit lives in,
 * its alias, and its timing fields in milliseconds; how a record line is
 * parsed; and how the unit's sample window is cut out of its recording.
 */
module Oto {
  import opened Wrappers
  import opened Arith
  import opened Text

  /**
   * A parsed record. `rightOffset` is sign-dependent: positive is the
   * trailing blank in ms, zero or negative is minus the usable length in ms.
   * `fs` is the sample rate of the recording, read when the record is built.
   */
  datatype Oto = Oto(
    wavPath: string,
    alias: string,
    leftOffset: real,
    fixed: real,
    rightOffset: real,
    preceding: real,
    overlap: real,
    fs: int)

  /** A WAV file as the unit database reads it: its sample rate and the first channel of each frame. */
  datatype Recording = Recording(sampleRate: int, frames: seq<real>)

  /**
   * What record parsing needs from its surroundings: the files that exist
   * (with their contents), `Path.Combine`, the hiragana-to-katakana
   * converter and `double.TryParse`.
   */
  datatype Host = Host(
    files: map<string, Recording>,
    combine: (string, string) -> string,
    toKatakana: string -> string,
    parseDouble: string -> Option<real>)

  /** `Overlap_Sample`: the overlap in samples, rounded. */
  function OverlapSample(o: Oto): (r: int)
    ensures r as real - 0.5 <= o.fs as real * o.overlap / 1000.0 <= r as real + 0.5
  {
    Round(o.fs as real * o.overlap / 1000.0)
  }

  /** `Preceding_Sample`: the preceding-utterance anchor in samples, rounded. */
  function PrecedingSample(o: Oto): (r: int)
    ensures r as real - 0.5 <= o.fs as real * o.preceding / 1000.0 <= r as real + 0.5
  {
    Round(o.fs as real * o.preceding / 1000.0)
  }

  /** `Fixed_Sample`: the end of the fixed (consonant) range in samples, rounded. */
  function FixedSample(o: Oto): (r: int)
    ensures r as real - 0.5 <= o.fs as real * o.fixed / 1000.0 <= r as real + 0.5
  {
    Round(o.fs as real * o.fixed / 1000.0)
  }

  /** All fields a record line needs, with the checks `CreateOto` makes, in its order. */
  predicate WellFormedLine(line: string, directory: string, host: Host) {
    var texts := Split(line, ',');
    && |texts| >= 6
    && |Split(texts[0], '=')| == 2
    && host.combine(directory, Split(texts[0], '=')[0]) in host.files
    && !IsBlank(host.toKatakana(Split(texts[0], '=')[1]))
    && (forall k :: 1 <= k < 6 ==> host.parseDouble(texts[k]).Some?)
  }

  /**
   * `Oto.CreateOto`: parses `file=alias,left,fixed,right,preceding,overlap`.
   * A line with fewer than six fields, a first field that is not exactly
   * one `=` pair, a missing recording, a blank alias or an unparsable
   * number gives no record.
   */
  function CreateOto(line: string, directory: string, host: Host): (r: Option<Oto>)
    ensures r.Some? <==> WellFormedLine(line, directory, host)
    ensures r.Some? ==>
      var texts := Split(line, ',');
      var pair := Split(texts[0], '=');
      && r.value.wavPath == host.combine(directory, pair[0])
      && r.value.alias == host.toKatakana(pair[1])
      && r.value.leftOffset == host.parseDouble(texts[1]).value
      && r.value.fixed == host.parseDouble(texts[2]).value
      && r.value.rightOffset == host.parseDouble(texts[3]).value
      && r.value.preceding == host.parseDouble(texts[4]).value
      && r.value.overlap == host.parseDouble(texts[5]).value
      && r.value.fs == host.files[r.value.wavPath].sampleRate
  {
    var texts := Split(line, ',');
    if |texts| < 6 then None
    else
      var pair := Split(texts[0], '=');
      if |pair| != 2 then None
      else
        var path := host.combine(directory, pair[0]);
        if path !in host.files then None
        else
          var alias := host.toKatakana(pair[1]);
          if IsBlank(alias) then None
          else
            var left := host.parseDouble(texts[1]);
            var fix := host.parseDouble(texts[2]);
            var right := host.parseDouble(texts[3]);
            var pre := host.parseDouble(texts[4]);
            var over := host.parseDouble(texts[5]);
            if left.None? || fix.None? || right.None? || pre.None? || over.None? then None
            else Some(Oto(path, alias, left.value, fix.value, right.value, pre.value, over.value,
                          host.files[path].sampleRate))
  }

  /** The six fields of a record line joined the way `oto.ini` writes them. */
  function RecordLine(file: string, alias: string, numbers: seq<string>): string
    requires |numbers| == 5
  {
    Join([file + "=" + alias] + numbers, ',')
  }

  /**
   * Parsing a record line built from separator-free parts recovers them:
   * the recording path, the converted alias and the five numbers in the
   * fixed field order left, fixed, right, preceding, overlap.
   */
  lemma CreateOtoOfRecordLine(file: string, alias: string, numbers: seq<string>, directory: string, host: Host)
    requires |numbers| == 5
    requires ',' !in file && '=' !in file && ',' !in alias && '=' !in alias
    requires forall k :: 0 <= k < 5 ==> ',' !in numbers[k] && host.parseDouble(numbers[k]).Some?
    requires host.combine(directory, file) in host.files
    requires !IsBlank(host.toKatakana(alias))
    ensures CreateOto(RecordLine(file, alias, numbers), directory, host)
         == Some(Oto(host.combine(directory, file), host.toKatakana(alias),
                     host.parseDouble(numbers[0]).value, host.parseDouble(numbers[1]).value,
                     host.parseDouble(numbers[2]).value, host.parseDouble(numbers[3]).value,
                     host.parseDouble(numbers[4]).value,
                     host.files[host.combine(directory, file)].sampleRate))
  {
    var parts := [file + "=" + alias] + numbers;
    assert ',' !in file + "=" + alias;
    SplitJoin(parts, ',');
    SplitAppend(file, alias, '=');
    SplitFree(file, '=');
    SplitFree(alias, '=');
    assert file + "=" + alias == file + ['='] + alias;
  }

  /** Fields after the sixth are ignored. */
  lemma CreateOtoIgnoresExtraFields(line: string, extra: string, directory: string, host: Host)
    requires |Split(line, ',')| >= 6
    ensures CreateOto(line + "," + extra, directory, host) == CreateOto(line, directory, host)
  {
    assert line + "," + extra == line + [','] + extra;
    SplitAppend(line, extra, ',');
    var texts := Split(line, ',');
    var longer := Split(line + "," + extra, ',');
    assert forall k :: 0 <= k < 6 ==> longer[k] == texts[k];
  }

  /** A breath unit: its alias contains `" R"`. */
  predicate IsBreath(alias: string) {
    Contains(alias, " R")
  }

  /** The first sample of the extraction window: the left offset, rounded, never negative. */
  function WaveStart(o: Oto, fs: int): (s: int)
    ensures s >= 0
    ensures s >= Round(fs as real * o.leftOffset / 1000.0)
  {
    Max(Round(fs as real * o.leftOffset / 1000.0), 0)
  }

  /**
   * One past the last sample of the window, clamped to the recording:
   * with a zero or negative right offset, the start plus the usable length;
   * with a positive one, the recording length minus the trailing blank.
   */
  function WaveEnd(o: Oto, rec: Recording): (e: int)
    ensures e <= |rec.frames|
  {
    var fs := rec.sampleRate as real;
    var s := WaveStart(o, rec.sampleRate);
    var base := if o.rightOffset <= 0.0 then s else |rec.frames|;
    Min(Round(base as real - fs * o.rightOffset / 1000.0), |rec.frames|)
  }

  /** The factor sample `k` of an extracted window is multiplied by. */
  function BreathFactor(o: Oto, k: int, breathVolume: real): real {
    if IsBreath(o.alias) && k >= PrecedingSample(o) then breathVolume else 1.0
  }

  /** What `GetWave` returns: the window, with a breath unit's tail scaled. */
  function ExtractedWave(o: Oto, files: map<string, Recording>, breathVolume: real): seq<real> {
    if o.wavPath !in files then []
    else
      var rec := files[o.wavPath];
      var s := WaveStart(o, rec.sampleRate);
      var e := WaveEnd(o, rec);
      seq(Max(e - s, 0), k requires 0 <= k < Max(e - s, 0) => rec.frames[s + k] * BreathFactor(o, k, breathVolume))
  }

  /** The frames `[start, end)` of a recording, empty when the window is empty. */
  function Window(frames: seq<real>, start: int, end: int): (w: seq<real>)
    requires 0 <= start && end <= |frames|
    ensures |w| == Max(end - start, 0)
  {
    if start < end then frames[start..end] else []
  }

  /** The reading loop of `GetWave`: one frame at a time until the end of the window. */
  method ReadFrames(frames: seq<real>, start: int, end: int) returns (wave: seq<real>)
    requires 0 <= start && end <= |frames|
    ensures wave == Window(frames, start, end)
  {
    wave := [];
    if end <= start {
      return;
    }
    var position := start;
    while position < end
      invariant start <= position <= end
      invariant wave == frames[start..position]
    {
      wave := wave + [frames[position]];
      position := position + 1;
    }
  }

  /** The breath loop of `GetWave`: every sample from index `from` on is multiplied by `factor`. */
  method ScaleFrom(w: seq<real>, from: int, factor: real) returns (wave: seq<real>)
    requires from >= 0
    ensures |wave| == |w|
    ensures forall k :: 0 <= k < |w| ==> wave[k] == w[k] * (if k >= from then factor else 1.0)
  {
    wave := w;
    var i := from;
    while i < |wave|
      invariant from <= i && |wave| == |w|
      invariant forall k :: 0 <= k < |w| ==> wave[k] == w[k] * (if from <= k < i then factor else 1.0)
    {
      wave := wave[i := wave[i] * factor];
      i := i + 1;
    }
  }

  /**
   * `Oto.GetWave`: reads the frames of the window `[start, end)`, then, for
   * a breath unit, multiplies every sample from the preceding anchor on by
   * `breathVolume`. A missing recording gives no samples.
   */
  method GetWave(o: Oto, files: map<string, Recording>, breathVolume: real) returns (wave: seq<real>)
    // the scaling loop starts at the preceding anchor: a negative one indexes below zero and throws
    requires o.wavPath in files && IsBreath(o.alias) ==> PrecedingSample(o) >= 0
    ensures o.wavPath !in files ==> wave == []
    ensures o.wavPath in files ==>
      |wave| == Max(WaveEnd(o, files[o.wavPath]) - WaveStart(o, files[o.wavPath].sampleRate), 0)
    ensures wave == ExtractedWave(o, files, breathVolume)
  {
    if o.wavPath !in files {
      return [];
    }
    var rec := files[o.wavPath];
    wave := ReadFrames(rec.frames, WaveStart(o, rec.sampleRate), WaveEnd(o, rec));
    if IsBreath(o.alias) {
      wave := ScaleFrom(wave, PrecedingSample(o), breathVolume);
    }
    assert forall k :: 0 <= k < |wave| ==> wave[k] == ExtractedWave(o, files, breathVolume)[k];
  }
}
