# UtaTalk core in Dafny

UtaTalk is a concatenative voice synthesiser. It ships as two engines, a talk engine and a song engine, over one voice library. This project models the deterministic work those parts do before and around the external resynthesis call, and proves properties of it.

- **The unit database** (`oto.dfy`, `library.dfy`).
  - An `oto.ini` record line is parsed into a unit record.
  - A unit's sample window is cut out of its recording, and the tail of a breath unit is scaled.
  - `SearchOto` looks a key up in four tiers.
  - `FixKey` and `FixKey2` rewrite the key, chained as retries in `GetValue`.
  - `GetValue` dispatches the commands. The typed queries `TryGetValue` and `TryGetValues` build on it.
  - `LoadOtoIni` fills the record list.
- **The crossfading concatenator** `SmoothAdd`, in its talk and song variants (`zerocross.dfy`, `talk_voice.dfy`, `song_voice.dfy`).
  - It cuts the running buffer's tail and the new fragment's head at falling zero crossings.
  - It crossfades the overlap linearly and appends the rest.
  - It records the timing, start and fixed anchors of each unit.
  - The running buffer and the three anchor lists are a `Buffers` object that the methods update.
- **`Play`, the part both engines share** (`script.dfy`, `sequencer.dfy`, `timing.dfy`, `aligner.dfy`, `curves.dfy`).
  - The talk script is sequenced into unit aliases `"<vowel> <kana>"` and `"<vowel> R"`.
  - The pre-pause and the speed factor are set up, and each unit's target time is accumulated.
  - A script without moras, or without sound, becomes a silent buffer.
  - The edit lists are built and their conflicts resolved: the timeline aligner.
  - The volume and pitch curves are ramped over the control-point arrays, and the analysed pitch is smoothed.
  - The song engine's kero blend pulls the edited pitch towards a base key.
  - The helpers `PitchShift` and `Interpolation`.
- **The talk engine's mora preparation** (`accent.dfy`).
  - Each mora copies its section's attributes.
  - Each mora gets an accent value from the shape of its accent group. The "hl" and "lh" tests of the source contradict themselves, so every non-flat group takes the "lhl" formula. The model reproduces this and proves it.
  - A question gets its ending adjustments.
- **The song engine's score import** (`file_converter.dfy`).
  - `PreProcessing` merges rests and short elongations and splits long notes.
  - `SplitNotes` cuts the score into phrases at long rests.
  - Each phrase becomes a pause script and a main script.
  - `MakeScripts` filters the scripts and joins their texts.

Numbers follow the C# semantics explicitly:

- Integers are unbounded. `/` on `int` truncates toward zero (`Arith.TruncDiv`), and so does the `(int)` cast of a double (`Arith.TruncToInt`).
- `Math.Round` rounds half to even (`Arith.Round`).
- Doubles, samples included, are `real`.

Calls into code outside the core are parameters:

- `File.Exists`, the WAV reader, `Path.Combine`, `double.TryParse` and `KanaConverter` are carried by `Oto.Host`.
- `MoraUtility.GetVowel` and `MoraUtility.GetMoraSpan_ms` are function parameters.
- The `log2` tests and pitches are carried by `FileConverter.Host`.

Loops and in-place updates in the source are methods with loop invariants. Each such method is proved equal to a specification function, and the properties are lemmas about that function.

## Model

| member | source | states |
|---|---|---|
| Arith.Round | UtaLibrary/Oto.cs:32 | `Math.Round`: the result is within a half of `x`, and a tie goes to the even neighbour |
| Arith.TruncToInt | UtaTalkEngine/UtaTalkEngine.cs:543 | an `(int)` cast of a double drops the fraction toward zero, for either sign |
| Arith.TruncDiv | UtaSongEngine/UtaSongEngine.cs:514 | C# integer division: the remainder is smaller than the divisor and has the sign of the dividend |
| Arith.ClampReal | UtaSongEngine/UtaSongEngine.cs:164 | `Math.Clamp`: the result lies in `[lo, hi]`, is `x` inside the range and the nearer bound outside |
| Text.Split | UtaLibrary/Oto.cs:88 | `string.Split`: at least one part, no part holds the separator, the parts joined by the separator give the string back, and there is one part more than separators |
| Text.SplitJoin | UtaLibrary/Oto.cs:88-90 | splitting undoes joining for separator-free parts |
| Text.ToLower | UtaLibrary/UtaLibrary.cs:85 | same length; each ASCII capital becomes its small letter and every other character is kept |
| Text.Format0000 | UtaSongEngine/FileConverter.cs:215 | `ToString("0000")`: at least four decimal digits, and they denote the number |
| Oto.OverlapSample | UtaLibrary/Oto.cs:32 | `Overlap_Sample` is `fs * Overlap / 1000` rounded to the nearest integer |
| Oto.PrecedingSample | UtaLibrary/Oto.cs:37 | `Preceding_Sample` is `fs * Preceding / 1000` rounded to the nearest integer |
| Oto.FixedSample | UtaLibrary/Oto.cs:43 | `Fixed_Sample` is `fs * Fixed / 1000` rounded to the nearest integer |
| Oto.CreateOto | UtaLibrary/Oto.cs:85-113 | a record exists exactly when the line has six comma fields, the first splits into one `=` pair, the recording exists, the alias is not blank and the five numbers parse; then fields 1 to 5 go to left offset, fixed, right offset, preceding and overlap, and `fs` is the recording's rate |
| Oto.CreateOtoOfRecordLine | UtaLibrary/Oto.cs:88-105 | a line built from separator-free parts parses back to those parts, in the fixed field order |
| Oto.CreateOtoIgnoresExtraFields | UtaLibrary/Oto.cs:88-89 | fields after the sixth do not change the record |
| Oto.WaveStart | UtaLibrary/Oto.cs:62 | the window's first sample is the rounded left offset, never below zero |
| Oto.WaveEnd | UtaLibrary/Oto.cs:63-66 | the window end never passes the recording's length |
| Oto.Window | UtaLibrary/Oto.cs:67-72 | the window holds `max(end - start, 0)` frames |
| Oto.ReadFrames | UtaLibrary/Oto.cs:67-72 | the reading loop returns exactly the frames `[start, end)` of the recording |
| Oto.ScaleFrom | UtaLibrary/Oto.cs:74-80 | the breath loop multiplies the samples from `from` on by the factor and leaves the earlier ones unchanged |
| Oto.GetWave | UtaLibrary/Oto.cs:56-83 | a missing recording gives no samples; otherwise the clamped window, with a breath (`" R"`) unit scaled by `breathVolume` from its preceding anchor on |
| Library.MatchesImpliesLoose | UtaLibrary/UtaLibrary.cs:102-108 | an alias that passes any tier contains the key |
| Library.FirstMatch | UtaLibrary/UtaLibrary.cs:102-107 | `FirstOrDefault`: the first record that passes the tier, with none before it; none exactly when no record passes |
| Library.ShortestContaining | UtaLibrary/UtaLibrary.cs:108 | a record whose alias contains the key and is of least length, and the earliest of those; none exactly when no alias contains the key |
| Library.SearchIndex | UtaLibrary/UtaLibrary.cs:100-111 | the search finds no record exactly when no alias contains the key |
| Library.SearchIndexTiers | UtaLibrary/UtaLibrary.cs:100-111 | an exact match wins whenever one exists; otherwise the first alias containing `key + "_"`, then the first containing `key + " "`, then the shortest and earliest containing `key` |
| Library.SearchOto | UtaLibrary/UtaLibrary.cs:100-111 | the record found is in the list, and there is none exactly when no alias contains the key |
| Library.SearchEmptyKey | UtaLibrary/UtaLibrary.cs:100-111 | the empty key finds a record in every non-empty list |
| Library.FixKeyRules | UtaLibrary/UtaLibrary.cs:113-161 | `"<v> ッ"` becomes `"<v> R"`, a small kana its full-size kana, `"<v> ー"` the vowel's kana, and `"n ー"` becomes `"u ン"`; every other key is unchanged |
| Library.FixKey2Rules | UtaLibrary/UtaLibrary.cs:162-174 | `"<v> R"` becomes `"<kana> ・"`, and every other key is unchanged |
| Library.ResolveSpec | UtaLibrary/UtaLibrary.cs:66-77 | the retry chain finds a listed record exactly when some alias contains the key, or its `FixKey` form, or (when that form holds `" R"`) its `FixKey2` form; a key found as given is never rewritten |
| Library.GeminateFallsBackToBreathUnit | UtaLibrary/UtaLibrary.cs:66-76 | `"a ッ"` reaches the unit `"ア ・"` through both retries |
| Library.ValueOf | UtaLibrary/UtaLibrary.cs:62-99 | there is an answer exactly when the command is known and a record is found; `wave` answers samples, the others integers, and `fs` the library's rate |
| Library.ValueOfFound | UtaLibrary/UtaLibrary.cs:85-97 | for the record found, `timing`, `start` and `fixed` answer its preceding, overlap and fixed samples, and `wave` its extracted window |
| Library.TryValue | UtaLibrary/UtaLibrary.cs:176-201 | a typed query that succeeds always hands out a value |
| Library.TryValueSound | UtaLibrary/UtaLibrary.cs:176-201 | success exactly when a record is found and the command answers the requested type; the cast is then sound, and a failure gives the type's default |
| Library.CollectedSpec | UtaLibrary/UtaLibrary.cs:214-226 | the dictionary holds exactly the keys whose typed query succeeds, each with that query's value |
| Library.Distinct | UtaLibrary/UtaLibrary.cs:206 | `Distinct()`: the same elements, each once, and no longer than the input |
| Library.ParseLines | UtaLibrary/UtaLibrary.cs:252-264 | there are at most as many records as lines |
| Library.ParseLinesAppend | UtaLibrary/UtaLibrary.cs:254-264 | parsing goes line by line: the records of two blocks of lines are the records of each, in order |
| Library.ParseLinesSound | UtaLibrary/UtaLibrary.cs:254-264 | every loaded record is the parse of some line, so its recording exists and its alias is not blank |
| Library.UtaLibrary.constructor | UtaLibrary/UtaLibrary.cs:18-19 | a new library has no records, rate 44100 and an empty state text |
| Library.UtaLibrary.LoadOtoIni | UtaLibrary/UtaLibrary.cs:244-269 | a missing file changes nothing; otherwise the list becomes the records of the lines that parse, and the rate becomes the first record's |
| Library.UtaLibrary.GetValue | UtaLibrary/UtaLibrary.cs:62-99 | records the call in the state text and answers as `ValueOf` |
| Library.UtaLibrary.TryGetValue | UtaLibrary/UtaLibrary.cs:176-201 | answers as `TryValue` |
| Library.UtaLibrary.GetValues | UtaLibrary/UtaLibrary.cs:203-212 | one entry per distinct key, each the answer of `GetValue`; the state text is the last distinct key's call, or unchanged when there are no keys |
| Library.UtaLibrary.CollectOne | UtaLibrary/UtaLibrary.cs:218-224 | adds the key with its value exactly when its typed query succeeds, and leaves that key's call in the state text |
| Library.UtaLibrary.CollectTyped | UtaLibrary/UtaLibrary.cs:216-224 | the loop builds `Collected` over the keys and leaves the last key's call in the state text |
| Library.UtaLibrary.TryGetValues | UtaLibrary/UtaLibrary.cs:214-226 | the result keys are exactly the input keys whose typed query succeeds, with their values; true exactly when there is one; the state text is the last distinct key's call, or unchanged |
| ZeroCross.TailFlags | UtaTalkEngine/VoiceUtility.cs:76-83 | one flag per window position |
| ZeroCross.HeadFlags | UtaTalkEngine/VoiceUtility.cs:109-116 | one flag per window position |
| ZeroCross.MarksUpTo | UtaTalkEngine/VoiceUtility.cs:76-83 | every mark stands for a raised flag within the scanned range |
| ZeroCross.MarksIncreasing | UtaTalkEngine/VoiceUtility.cs:76-83 | the crossing marks strictly increase |
| ZeroCross.MarksComplete | UtaTalkEngine/VoiceUtility.cs:76-83 | every crossing of the window has its mark |
| ZeroCross.GapsPositive | UtaTalkEngine/VoiceUtility.cs:84-89 | between strictly increasing crossing marks every distance is at least 1, so the longest one is positive |
| ZeroCross.GapsTelescope | UtaTalkEngine/VoiceUtility.cs:84-88 | the distances add up to the span from the first mark to the last |
| ZeroCross.MaxOf | UtaTalkEngine/VoiceUtility.cs:89 | `Max()` of a non-empty list is an element no smaller than any other |
| ZeroCross.FirstLongFrom | UtaTalkEngine/VoiceUtility.cs:92-99 | the first distance above the limit, none before it above; none exactly when no distance is above |
| ZeroCross.LastLongBelow | UtaTalkEngine/VoiceUtility.cs:139-146 | the last distance above the limit, none after it above; none exactly when no distance is above |
| ZeroCross.LongGapsExist | UtaTalkEngine/VoiceUtility.cs:89-99 | with positive distances, both a first and a last long distance exist, the first no later than the last |
| ZeroCross.CutOverlapIndices | UtaTalkEngine/VoiceUtility.cs:92-146 | with two marks or more, the cut is mark `i` and the overlap is mark `j + 1` for some `i <= j` |
| ZeroCross.CutAndOverlap | UtaTalkEngine/VoiceUtility.cs:75-146 | with fewer than two crossings both are 0; otherwise the cut is a crossing mark below the window length and the overlap a later one within it |
| ZeroCross.CutAndOverlapMany | UtaTalkEngine/VoiceUtility.cs:108-146 | the case of two crossings or more |
| ZeroCross.Blend | UtaTalkEngine/VoiceUtility.cs:149-155 | the crossfade keeps the buffer's length |
| ZeroCross.SpliceWaveParts | UtaTalkEngine/VoiceUtility.cs:100-166 | a splice keeps the cut buffer before the overlap, mixes the overlap `old * (1 - i/ov) + new * (i/ov)`, and then continues with the cut fragment |
| ZeroCross.ProbeSilence | UtaTalkEngine/VoiceUtility.cs:38-47 | the probe answers silent exactly when all 100 samples at both ends are within 0.001 of zero |
| ZeroCross.ScanTail | UtaTalkEngine/VoiceUtility.cs:75-83 | the tail scan loop yields the marks of the tail flags |
| ZeroCross.ScanHead | UtaTalkEngine/VoiceUtility.cs:108-116 | the head scan loop yields the marks of the head flags |
| ZeroCross.ComputeGaps | UtaTalkEngine/VoiceUtility.cs:84-88 | the distance loop yields `Gaps` |
| ZeroCross.FindCut | UtaTalkEngine/VoiceUtility.cs:91-99 | the forward loop picks the mark of the first long distance, or 0 |
| ZeroCross.FindOverlap | UtaTalkEngine/VoiceUtility.cs:138-146 | the backward loop picks the mark after the last long distance, or 0 |
| ZeroCross.TailFlagsAt | UtaTalkEngine/VoiceUtility.cs:78-81 | a raised tail flag is a falling crossing that many samples before the end |
| ZeroCross.HeadFlagsAt | UtaTalkEngine/VoiceUtility.cs:111-114 | a raised head flag is a falling crossing just before its mark |
| ZeroCross.TailCut | UtaTalkEngine/VoiceUtility.cs:75-103 | the tail cut is 0, or fewer than the window and leaves the buffer ending on a sample that is not negative whose removed successor is negative |
| ZeroCross.HeadCut | UtaTalkEngine/VoiceUtility.cs:108-136 | the head cut is 0, or fewer than the window and leaves the fragment starting on a negative sample after one that is not negative |
| ZeroCross.HeadOverlap | UtaTalkEngine/VoiceUtility.cs:138-146 | nothing cut and nothing overlapped, or the overlap ends past the cut and within the window |
| ZeroCross.TailCutNone | UtaTalkEngine/VoiceUtility.cs:89-103 | the tail cut is 0 exactly when the window holds fewer than two crossings |
| ZeroCross.HeadCutNone | UtaTalkEngine/VoiceUtility.cs:122-136 | the head cut is 0 exactly when the window holds fewer than two crossings |
| ZeroCross.ComputeLimit | UtaTalkEngine/VoiceUtility.cs:89-90 | the limit is 70% of the longest distance |
| ZeroCross.FindTailCut | UtaTalkEngine/VoiceUtility.cs:74-103 | the tail block computes `TailCut` |
| ZeroCross.FindHeadCut | UtaTalkEngine/VoiceUtility.cs:107-146 | the head block computes `HeadCut` and `HeadOverlap` |
| ZeroCross.Buffers.constructor | UtaTalkEngine/UtaTalkEngine.cs:255-260 | the buffer and the anchor lists start empty |
| ZeroCross.Buffers.Record | UtaTalkEngine/VoiceUtility.cs:30-32 | appends exactly one entry to each of the three anchor lists |
| ZeroCross.Buffers.Crossfade | UtaTalkEngine/VoiceUtility.cs:149-155 | rewrites only the buffer's last `ov` samples, to the blend |
| ZeroCross.Buffers.Splice | UtaTalkEngine/VoiceUtility.cs:100-166 | cuts the buffer and the fragment, crossfades and appends, as `SpliceWave` |
| TalkVoice.Kept | UtaTalkEngine/VoiceUtility.cs:33-34 | the unblended paths keep the fragment prefix of length `min(len, fix + 500)`, never negative |
| TalkVoice.JoinUnblended | UtaTalkEngine/VoiceUtility.cs:27-57 | a short buffer or fragment, or two silent probes: the buffer grows by that prefix and the anchors are the fragment's shifted by the old length |
| TalkVoice.JoinBlendedWave | UtaTalkEngine/VoiceUtility.cs:60-166 | the crossfade path pre-trims the fragment to 1500 samples before its start and 500 after its fixed anchor, cuts both at crossings, and splices them |
| TalkVoice.JoinBlendedAnchors | UtaTalkEngine/VoiceUtility.cs:161-163 | the timing and fixed anchors are never before the end of the cut buffer, and the start anchor never before the previous fixed anchor (or 0) |
| TalkVoice.JoinLength | UtaTalkEngine/VoiceUtility.cs:27-166 | the buffer grows by at most the fragment's length |
| TalkVoice.SmoothAdd | UtaTalkEngine/VoiceUtility.cs:21-167 | updates the buffer to `Join`'s wave and appends exactly one entry to each anchor list |
| TalkVoice.AppendPlain | UtaTalkEngine/VoiceUtility.cs:27-57 | the unblended paths, as `Join` |
| TalkVoice.AppendBlended | UtaTalkEngine/VoiceUtility.cs:60-166 | the crossfade path, as `Join` |
| TalkVoice.PlanBlend | UtaTalkEngine/VoiceUtility.cs:64-163 | both cuts and the overlap fit the cut buffer and the cut fragment, and the anchors are `Join`'s |
| SongVoice.JoinUnblended | UtaSongEngine/VoiceUtility.cs:22-50 | a short buffer or fragment, or two silent probes: the whole fragment is appended and the anchors are shifted by the old length |
| SongVoice.JoinBlendedCuts | UtaSongEngine/VoiceUtility.cs:54-117 | both scans cut between 1 and 2999 samples, at crossings |
| SongVoice.JoinBlendedWave | UtaSongEngine/VoiceUtility.cs:53-149 | only the cut buffer's last `overlap` samples change, and the fragment follows without its first `removeNum + overlap` samples |
| SongVoice.JoinBlendedAnchors | UtaSongEngine/VoiceUtility.cs:144-146 | every anchor is the cut buffer's length plus `max(x - overlap - removeNum, 0)`, so never before it |
| SongVoice.JoinLength | UtaSongEngine/VoiceUtility.cs:16-150 | the buffer grows by at most the fragment's length |
| SongVoice.SmoothAdd | UtaSongEngine/VoiceUtility.cs:16-150 | updates the buffer to `Join`'s wave and appends exactly one entry to each anchor list |
| SongVoice.AppendPlain | UtaSongEngine/VoiceUtility.cs:22-50 | the unblended paths, as `Join` |
| SongVoice.AppendBlended | UtaSongEngine/VoiceUtility.cs:53-149 | the crossfade path, as `Join` |
| SongVoice.PlanBlend | UtaSongEngine/VoiceUtility.cs:54-146 | both cuts and the overlap fit, and the anchors are `Join`'s |
| SongVoice.StrictTailCut | UtaSongEngine/VoiceUtility.cs:55-84 | the unguarded `Max()` block computes `TailCut` when two crossings exist |
| SongVoice.StrictHeadCut | UtaSongEngine/VoiceUtility.cs:88-127 | the unguarded `Max()` block computes `HeadCut` and `HeadOverlap` when two crossings exist |
| Sequencer.Sequence | UtaSongEngine/UtaSongEngine.cs:116-151 | the sequencing loops build `Units` |
| Sequencer.SequenceMoras | UtaSongEngine/UtaSongEngine.cs:128-143 | the mora loop builds `MorasUnits` and its context |
| Sequencer.MorasUnitsMoras | UtaSongEngine/UtaSongEngine.cs:128-143 | a run of moras yields one mora unit per mora, in order |
| Sequencer.SectionsUnitsMoras | UtaSongEngine/UtaSongEngine.cs:116-144 | the mora units of the sections are all their moras, in reading order |
| Sequencer.UnitsMoras | UtaSongEngine/UtaSongEngine.cs:116-151 | every mora yields exactly one `"<vowel> <char>"` unit, in order, `MoraCount` in all |
| Sequencer.MorasUnitsVoiced | UtaSongEngine/UtaSongEngine.cs:128-143 | a non-empty context always comes from the last unit, a mora that is not `ッ` |
| Sequencer.SectionsUnitsVoiced | UtaSongEngine/UtaSongEngine.cs:116-144 | the same over the sections, and every pause unit follows a voiced mora unit |
| Sequencer.PauseUnitVoiced | UtaSongEngine/UtaSongEngine.cs:118-127 | adding a section's pause unit keeps every pause unit after a mora other than `ッ`, and keeps the context voiced |
| Sequencer.UnitsPausesFollowVoice | UtaSongEngine/UtaSongEngine.cs:116-151 | every `"<vowel> R"` pause unit of the script directly follows a mora unit other than `ッ`, so none comes first |
| Accent.Unaccented | UtaTalkEngine/UtaTalkEngine.cs:150 | the unaccented count is at most the group's size |
| Accent.FirstAccented | UtaTalkEngine/UtaTalkEngine.cs:177 | the first accented mora, none before it; none exactly when no mora is accented |
| Accent.UnaccentedCovers | UtaTalkEngine/UtaTalkEngine.cs:185-186 | unaccented moras before the first accented one and one after it count at least `h + 1` |
| Accent.UnaccentedPrefix | UtaTalkEngine/UtaTalkEngine.cs:185-186 | a prefix of `n` unaccented moras counts at least `n` |
| Accent.HighLowLowHighNever | UtaTalkEngine/UtaTalkEngine.cs:140-154 | the "hl" and "lh" tests hold for no group |
| Accent.LhlDenominators | UtaTalkEngine/UtaTalkEngine.cs:175-187 | on an unaccented mora of a non-flat group an accented mora exists and both denominators are positive |
| Accent.PatternIsLowHighLow | UtaTalkEngine/UtaTalkEngine.cs:135-189 | a flat group gets no pattern term, and every other group the "lhl" term |
| Accent.LowHighLowRange | UtaTalkEngine/UtaTalkEngine.cs:171-182 | an accented mora gets +2, and an unaccented one before the first accented a value in `[-2, 2)` |
| Accent.PrepareSection | UtaTalkEngine/UtaTalkEngine.cs:124-200 | each mora takes the section's volume, pitch and emphasis, the speed (times 0.98 for the last mora) and its accent value; the section is otherwise unchanged |
| Accent.PrepareScript | UtaTalkEngine/UtaTalkEngine.cs:109-229 | every section prepared; a question sets the end accent to 10 and raises the last mora's by 2 |
| Timing.SpeedValue | UtaSongEngine/UtaSongEngine.cs:162-164 | the speed factor lies in `[0.1, 10]` and is the product when the product does |
| Timing.PrePause | UtaSongEngine/UtaSongEngine.cs:175-192 | the wait is the setting (or 0.2 s), raised to a longer first pause that is not `None` |
| Timing.Accumulate | UtaSongEngine/UtaSongEngine.cs:206-260 | each unit records the running time before it advances, 20 ms earlier for an end without pause; the final time is the sum of all advances; UtaTalkEngine/UtaTalkEngine.cs:299-327 does the same, with the `TalkPace` case of `MoraAdvance` |
| Timing.AdvanceForward | UtaSongEngine/UtaSongEngine.cs:247-259 | with non-negative spans and speeds, no unit moves the time back |
| Timing.AccMonotone | UtaSongEngine/UtaSongEngine.cs:206-260 | the running time never goes back |
| Timing.TargetsOrdered | UtaSongEngine/UtaSongEngine.cs:243-253 | no target is earlier than one before it, unless it is an end without pause, which is set 20 ms back; the first target is at most 20 ms before the start |
| Timing.ZeroSpeedAdvance | UtaSongEngine/UtaSongEngine.cs:258 | a mora of speed 0, the zero-length note whose speed is infinite in the source, does not move the time on |
| Timing.NoteAdvance | UtaSongEngine/UtaSongEngine.cs:258 | a sung mora of speed `60 / len` advances the time by `len / speed` |
| Timing.ZeroMoraSilence | UtaSongEngine/UtaSongEngine.cs:97-114 | a script without moras gives `fs * (sum of the pauses that are not None) / 1000` samples, and `None` where that count is negative and allocating the buffer throws; UtaTalkEngine/UtaTalkEngine.cs:90-107 does the same |
| Timing.EmptyWaveSilence | UtaSongEngine/UtaSongEngine.cs:268-280 | a script without sound gives `(sum of all pauses) * fs / 1000` samples, and `None` where that count is negative and allocating the buffer throws; UtaTalkEngine/UtaTalkEngine.cs:336-348 does the same |
| Timing.SilenceAllocates | UtaSongEngine/UtaSongEngine.cs:97-114 | with a non-negative rate and no negative pause, neither silent buffer throws, and the one without moras is no longer than the empty-wave one |
| Timing.SpansCompare | UtaSongEngine/UtaSongEngine.cs:97-114 | the two pause sums agree when `None` pauses are empty, and the first never exceeds the second when no span is negative |
| Timing.UnitVolume | UtaSongEngine/UtaSongEngine.cs:226-238 | the damping never amplifies a non-negative volume and never makes it negative, and it changes the volume exactly for a small-kana unit |
| Timing.SmallKanaDamped | UtaSongEngine/UtaSongEngine.cs:226-238 | of two units with the same volume, the small kana gets 0.7 of what the other gets |
| Aligner.Align | UtaSongEngine/UtaSongEngine.cs:504-522 | the aligner's lists are `AlignedStart` and `AlignedFixed`; the first start is not negative, the last fixed is at most `end - 500`, and each engine's gap rule holds for every pair |
| Aligner.AlignedBounds | UtaSongEngine/UtaSongEngine.cs:504-522 | the boundary clamps only raise the first start edit and only lower the last fixed edit |
| Aligner.SongGap | UtaSongEngine/UtaSongEngine.cs:507-519 | every start edit is at least 1000 samples after the previous fixed edit, exactly 1000 for a rewritten pair |
| Aligner.TalkGap | UtaTalkEngine/UtaTalkEngine.cs:550-565 | each start edit meets the previous fixed edit, unless its alias holds `"- "` and they are at least 300 apart |
| Aligner.AlignedPairs | UtaSongEngine/UtaSongEngine.cs:507-519 | exactly the conflicting pairs move, to `middle + x` and `middle - x` |
| Aligner.MiddleBetween | UtaSongEngine/UtaSongEngine.cs:511-515 | the meeting point lies between the two timing edits when the edits are in order |
| Aligner.UnitEditsOrdered | UtaSongEngine/UtaSongEngine.cs:497-503 | with a non-negative velocity, the edits keep the anchors' order start, timing, fixed |
| Aligner.BuildEdits | UtaSongEngine/UtaSongEngine.cs:497-503 | the loop builds one `UnitEdits` entry per unit |
| Curves.Frames | UtaSongEngine/UtaSongEngine.cs:435 | one frame per anchor |
| Curves.MidFrames | UtaSongEngine/UtaSongEngine.cs:462 | one ramp start frame per unit |
| Curves.PosBounds | UtaSongEngine/UtaSongEngine.cs:429-454 | the ramp position stays within the curve |
| Curves.PosMonotone | UtaSongEngine/UtaSongEngine.cs:433-449 | the ramp position only increases |
| Curves.PrefixStable | UtaSongEngine/UtaSongEngine.cs:433-449 | frames already written keep their value |
| Curves.CurveSegments | UtaSongEngine/UtaSongEngine.cs:433-449 | frames before unit `i`'s start hold the previous value, and ramp frames blend the two values linearly |
| Curves.CurveTail | UtaSongEngine/UtaSongEngine.cs:450-453 | frames after the last position hold the final unit's value |
| Curves.FrameValueBetween | UtaSongEngine/UtaSongEngine.cs:443-447 | a ramp frame's value lies between the two unit values |
| Curves.PrefixBetween | UtaSongEngine/UtaSongEngine.cs:429-449 | every written frame's value lies within the range of the unit values |
| Curves.CurveBetween | UtaSongEngine/UtaSongEngine.cs:429-454 | the ramped curve never leaves the range of the unit values |
| Curves.ApplyVolume | UtaSongEngine/UtaSongEngine.cs:429-454 | every volume frame becomes the ramped curve's value; UtaTalkEngine/UtaTalkEngine.cs:471-496 does the same |
| Curves.RampVolume | UtaSongEngine/UtaSongEngine.cs:435-448 | one unit's loops write the frames from the current position up to its later ramp frame, held then blended, and nothing else |
| Curves.ApplyPitch | UtaSongEngine/UtaSongEngine.cs:456-481 | every edited pitch becomes its old value shifted by the ramped curve's value; UtaTalkEngine/UtaTalkEngine.cs:498-523 does the same |
| Curves.PitchUnits | UtaSongEngine/UtaSongEngine.cs:460-476 | the unit loop shifts every frame up to the last position by the curve |
| Curves.PitchUnit | UtaSongEngine/UtaSongEngine.cs:461-475 | one unit's ramp keeps the frames done so far and extends them |
| Curves.PitchStep | UtaSongEngine/UtaSongEngine.cs:461-475 | one unit's writes extend the frames done so far |
| Curves.PitchTail | UtaSongEngine/UtaSongEngine.cs:477-480 | the tail loop completes the curve |
| Curves.RampPitch | UtaSongEngine/UtaSongEngine.cs:462-475 | one unit's loops shift the frames up to its timing frame and nothing else |
| Curves.HoldPitch | UtaSongEngine/UtaSongEngine.cs:463-466 | the hold loop shifts by the previous value and nothing else |
| Curves.BlendPitch | UtaSongEngine/UtaSongEngine.cs:470-474 | the ramp loop shifts by the blended value and nothing else |
| Curves.PitchShiftBounds | UtaSongEngine/UtaSongEngine.cs:654-659 | pitches below 10 are unchanged; others move by the shift in cents, with an error of at most half a cent |
| Curves.RoundUnique | UtaSongEngine/UtaSongEngine.cs:657 | `Math.Round` is the only integer within a half that breaks ties to even |
| Curves.RoundNegate | UtaSongEngine/UtaSongEngine.cs:657 | rounding half to even is symmetric about zero |
| Curves.PitchShiftInverse | UtaSongEngine/UtaSongEngine.cs:654-659 | shifting a voiced pitch up and then down by the same amount restores it while it stays voiced |
| Curves.PitchShiftZero | UtaSongEngine/UtaSongEngine.cs:654-659 | a zero shift changes nothing |
| Curves.Ceil | UtaSongEngine/UtaSongEngine.cs:666 | `Math.Ceiling` is the least integer at or above `x` |
| Curves.Interpolation | UtaSongEngine/UtaSongEngine.cs:661-670 | the first value at or below index 0, the last at or beyond the end, and in between a value between the floor and ceiling neighbours |
| Curves.InterpolationBetween | UtaSongEngine/UtaSongEngine.cs:668-669 | a linear blend lies between its two ends |
| Curves.KeroValue | UtaSongEngine/UtaSongEngine.cs:419-423 | a pitch below 10 is kept; a voiced pitch moves towards the base key and never beyond it or back past itself, staying put at rate 0 and reaching the key at rate 1 |
| Curves.KeroBlend | UtaSongEngine/UtaSongEngine.cs:404-426 | with a `kero` setting every edited pitch becomes `KeroValue` at the setting clamped to [0, 1], with base key `BaseKey` or 5900; without one nothing changes |
| Curves.VoicedCount | UtaSongEngine/UtaSongEngine.cs:388-395 | at most one voiced frame per position of the window |
| Curves.Smooth | UtaSongEngine/UtaSongEngine.cs:380-402 | reads the analysed pitch without changing it, and every edited frame becomes `SmoothedAt`; UtaTalkEngine/UtaTalkEngine.cs:448-469 does the same, with half-window 30 |
| Curves.WindowSums | UtaSongEngine/UtaSongEngine.cs:388-395 | the inner loop sums and counts the voiced frames of the window |
| Curves.VoicedSumBounds | UtaSongEngine/UtaSongEngine.cs:388-395 | the voiced sum lies between the count times the least and the greatest voiced value |
| Curves.SmoothedBetween | UtaSongEngine/UtaSongEngine.cs:380-402 | a smoothed frame is unchanged, or a voiced value within the range of its window's voiced frames |
| FileConverter.PieceCountBounds | UtaSongEngine/FileConverter.cs:138-140 | a note longer than 1 s is cut into at least two pieces, each shorter than 1 s |
| FileConverter.PreProcessing | UtaSongEngine/FileConverter.cs:81-164 | returns `Preprocessed`: empty lyrics made rests, then the merge-and-split pass |
| FileConverter.MarkRests | UtaSongEngine/FileConverter.cs:86-92 | every empty lyric becomes `R` |
| FileConverter.MergeAndSplit | UtaSongEngine/FileConverter.cs:95-161 | the index loop computes `PreFrom` |
| FileConverter.DividePieces | UtaSongEngine/FileConverter.cs:140-155 | the inner loop builds `Divide` |
| FileConverter.DivideAt | UtaSongEngine/FileConverter.cs:140-155 | `round(len / 0.6)` pieces: the note with the piece length, then elongations |
| FileConverter.DivideShape | UtaSongEngine/FileConverter.cs:138-158 | all pieces have the same length below 1 s, all after the first are `ー`, and together they are as long as the note |
| FileConverter.DivideTotal | UtaSongEngine/FileConverter.cs:142-155 | the pieces add up to the note's length |
| FileConverter.DivideLyrics | UtaSongEngine/FileConverter.cs:138-158 | cutting adds no lyric |
| FileConverter.PreFromLength | UtaSongEngine/FileConverter.cs:95-161 | the pass keeps the total length of the notes |
| FileConverter.PreFromLyrics | UtaSongEngine/FileConverter.cs:95-161 | the pass keeps the lyrics and their order |
| FileConverter.PreFromShort | UtaSongEngine/FileConverter.cs:95-161 | after the pass every note is a rest or lasts at most 1 s, except perhaps the score's last note, which is taken as it is |
| FileConverter.PreFromNoEmpty | UtaSongEngine/FileConverter.cs:95-161 | the pass introduces no empty lyric |
| FileConverter.PreprocessedShape | UtaSongEngine/FileConverter.cs:81-164 | no empty lyric is left; the total length and the lyrics are kept; every note but the last is short; the result is empty exactly when the input is |
| FileConverter.RestsLength | UtaSongEngine/FileConverter.cs:86-92 | marking rests keeps the total length |
| FileConverter.SplitNotes | UtaSongEngine/FileConverter.cs:166-196 | the loop computes `Groups` |
| FileConverter.SplitOpen | UtaSongEngine/FileConverter.cs:173-187 | the open group is the run of notes since the last separator, with that separator's pause |
| FileConverter.SplitClosed | UtaSongEngine/FileConverter.cs:173-187 | the closed groups are non-empty, hold no separator, and stand after the latest separator before them |
| FileConverter.SplitKept | UtaSongEngine/FileConverter.cs:173-187 | the closed groups and the open one hold exactly the notes that are not separators, in order |
| FileConverter.GroupsShape | UtaSongEngine/FileConverter.cs:166-196 | groups are non-empty, drop the separators, keep every other note in order, and each pause is the latest separator before the group, or 0 |
| FileConverter.GroupsPlaced | UtaSongEngine/FileConverter.cs:166-196 | the groups are sound and each stands after its pause's separator |
| FileConverter.GroupsKept | UtaSongEngine/FileConverter.cs:166-196 | the groups hold the non-separator notes in order |
| FileConverter.PauseScriptKept | UtaSongEngine/FileConverter.cs:224 | the pause script's span `round((pause - 0.2) * 1000)` is positive exactly when the pause exceeds 0.2005 s |
| FileConverter.GetMainScript | UtaSongEngine/FileConverter.cs:238-280 | returns `MainScript` |
| FileConverter.SingRests | UtaSongEngine/FileConverter.cs:241-249 | the first loop sings every rest as `ッ` and writes the lyrics out |
| FileConverter.MakeMoras | UtaSongEngine/FileConverter.cs:267-275 | the second loop makes one mora per note |
| FileConverter.NoteMorasAt | UtaSongEngine/FileConverter.cs:267-275 | mora `k` is note `k`'s |
| FileConverter.NoteSpeedLength | UtaSongEngine/FileConverter.cs:272 | the speed times the note's length is 60 |
| FileConverter.SungMoras | UtaSongEngine/FileConverter.cs:241-275 | each mora sings its note: its lyric, `ッ` for a rest, at speed `60 / length` |
| FileConverter.MainScriptShape | UtaSongEngine/FileConverter.cs:238-280 | one section, one mora per note, each singing its note, and a pause of at most 200 ms |
| FileConverter.MakeScripts | UtaSongEngine/FileConverter.cs:37-79 | nothing exactly for missing or empty notes; otherwise `Converted` |
| FileConverter.CollectScripts | UtaSongEngine/FileConverter.cs:50-66 | the group loop builds `ScriptsOf` |
| FileConverter.GroupStep | UtaSongEngine/FileConverter.cs:52-65 | a group contributes its pause script when the span is positive, and its main script when it has moras |
| FileConverter.JoinTexts | UtaSongEngine/FileConverter.cs:68-76 | the text loop builds `Lines` |
| FileConverter.ScriptsCount | UtaSongEngine/FileConverter.cs:50-66 | one main script per group, plus one pause script per group paused longer than 0.2005 s |
| FileConverter.LinesJoined | UtaSongEngine/FileConverter.cs:68-76 | when no text starts with white space, the loop's text is the texts joined by new lines, and it is not blank when there is a script |
| FileConverter.ScriptsHeaded | UtaSongEngine/FileConverter.cs:215-252 | every script's text is non-empty and does not start with white space |
| FileConverter.ConvertedText | UtaSongEngine/FileConverter.cs:68-78 | the returned text is the kept scripts' texts joined by new lines |
| FileConverter.ConvertedCount | UtaSongEngine/FileConverter.cs:44-66 | every phrase of the score gives a main script, and a pause script when its pause exceeds 0.2005 s |

## Left out

- Plugin lifecycle: `Activate`, `DeActivate`, `Initialize`, `Dispose`, the version properties and the state texts they set. They are plumbing with no logic. `GetValue`'s state text is kept.
- `isPlaying`, `stopFlag`, the `Stop` loop and `Play` returning null while busy: this is concurrency.
- `LoadOtoIni` runs `Parallel.ForEach` under a `lock`; it is modelled as sequential insertion in line order. With the parallel loop the list order is not fixed. Every tier of the search depends on that order when several aliases match, the exact tier included when two lines share an alias. So does the library rate, which is taken from the first record.
- File and audio I/O are inputs: `File.Exists`, `File.ReadAllLines`, the WAV reader and writer, `Save`, `SaveWav`, `SaveText` and the temporary project files.
- `Oto.GetWave` takes the recording to be mono 16-bit, so a frame is one block and the file's length in frames is `Length / 2`.
- VSLIB resynthesis: `VSProject`, `ReadMixData`, `TimeCtrlPoints.Add`, `GetTimeEdt_Sec` and `GetTimeEdt_Sample`. The passes that depend on them are left out too: the vibrato, the pitch and formant correction, the talk accent ramp, the `preTime` point, and zeroing the first silent samples of the mix. The aligner takes the end edit `endEdit` as an input.
- The floating-point passes built on `log`, `exp`, `sqrt` or `sin`:
  - the joint dynamics smoothing and the compressor;
  - the elongation volume averaging;
  - the formant drift;
  - the talk velocity `1 / sqrt((Speed + 1) / 2)` and the talk pitch `log2(Pitch) * 12`.
  - The velocities and the pitch list are inputs of `Aligner.BuildEdits` and `Curves.ApplyPitch`.
- Code that is not part of this model is kept as a parameter: `MoraUtility.GetVowel`, `MoraUtility.GetMoraSpan_ms`, `KanaConverter.HiraganaToKatakana`, and the octave test and the pitch of the score import.
- `FileConverter.Open` and the `UstUtil`/`VsqxUtil` score parsers are not part of this model. The notes are the input of `MakeScripts`, with `Key` an integer. The SDK's default `Mora`, `Section` and end section are inputs.
- The SDK's `TalkScript`, `Section`, `Mora` and `Pause` are plain datatypes. The accent value, an additional value in the SDK, is a plain field.
- The song engine's `ShiftKey` pitch offset and its `V`, `P` and `F` additional values are not computed. `V` gives the velocity, `100 / V`, which `Aligner.BuildEdits` takes as an input. `P` and `F` feed the pitch curve and formant curve passes, which are left out with the resynthesis above; `Curves.Interpolation` is the helper those passes call.
- Objects are values. Where the source rewrites a mora or note object in place, the model returns the rewritten value. Moras are told apart by position: `IndexOf`, `First` and `Last` compare objects, and every mora is taken to be a distinct object.
- The curve passes take the control points' fields as separate arrays. The volume ramp, the pitch ramp and the smoothing are modelled one pass at a time, not composed into one `Play`.
- C# 32-bit overflow is not modelled: integers are unbounded.
- FileConverter.NoteSpeed: a note of zero length gets speed 0, where the source divides by zero and gets infinity.
- FileConverter.Divide: each elongation piece keeps the source's start time `time + i * piece`, where `i` is the note's index in the score and not the piece's. Nothing downstream reads a note's start time.
- TalkVoice.SmoothAdd requires the conditions under which the source indexes inside its lists. The buffer needs at least 2001 samples, and so does the pre-trimmed fragment, because at exactly 2000 the blended path still runs and its scan reads index -1. The overlap must also fit. Calls outside these conditions throw in the source and are not modelled.
- SongVoice.SmoothAdd requires at least 3001 samples on each side, two crossings in each scan window and a fitting overlap. Without two crossings the source's unguarded `Max()` throws.
- Accent.PrepareScript requires a question's last section to have a mora, since the source's `Sections.Last().Moras.Last()` throws otherwise.
- Aligner.Align requires every conflicting pair to have a non-zero divisor `d1 + d2`; otherwise the source's integer division throws.
- Oto.GetWave requires a breath unit's preceding anchor to be non-negative, since the source's scaling loop would start at a negative index.
- Curves.ApplyVolume and Curves.ApplyPitch require every ramp frame to lie within the curve, since the source indexes the control points without a check.
- Timing.Accumulate: a mora of speed 0 advances the time by 0. This is exact for the score converter's zero-length note: its speed is +∞ in the source and 0 in this model (see FileConverter.NoteSpeed), and `60 / ∞` is 0. A talk or song mora whose speed really is 0 makes the source's time +∞, and that is not modelled.
- Text.ToLower: folds only the ASCII capitals. The source's `ToLower` follows the current culture; under tr-TR, for example, "TİMİNG" lowers to "timing", where the model keeps `İ` and the command is not recognised. Every command the library answers is ASCII.
- Curves.Interpolation requires a non-empty array, since the source's `values[0]` throws on an empty one.
- Curves.Frame, Curves.Frames, Curves.MidFrames, Curves.ApplyVolume and Curves.ApplyPitch require `fs != 0`, since the source's `* 200 / fs` is an `int` division that throws on 0.
