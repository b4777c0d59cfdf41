/**
 * The song engine's score import (`FileConverter`): the notes read from a
 * UST or VSQX score are cleaned up (`PreProcessing`), cut into phrases at
 * long rests (`SplitNotes`), and every phrase becomes a pause script and a
 * main script whose moras carry the notes' lengths as speeds.
 *
 * Notes are values here: where the source rewrites a note object in place
 * (the empty lyric made `R`, a long note's length divided, `R` sung as
 * `ッ`), the model builds the rewritten note.
 */
module FileConverter {
  import opened Arith
  import opened Text
  import opened Wrappers
  import opened Script

  /** A score note: start and length in seconds, the lyric, the key and the pitch in Hz. */
  datatype Note = Note(time: real, length: real, mora: string, key: int, pitchHz: real)

  /**
   * What the conversion takes from its surroundings: the configured engine
   * key, the octave test `|log2(p1 / p2)| < 0.3` of two pitches, the
   * `log2(hz / 247) * 12` pitch of a mora, what the SDK's `new Mora()`,
   * `new Section()` and the end section of `new TalkScript()` hold, and
   * `Environment.NewLine`. A new section's mora list and a new script's
   * section list are taken to start empty, so the moras and sections the
   * converter adds are all they hold.
   */
  datatype Host = Host(engineKey: string, near: (real, real) -> bool, semitones: real -> real,
                       blankMora: Mora, blankSection: Section, blankEnd: EndSection, newline: string)

  // ---------------------------------------------------------------------
  // PreProcessing
  // ---------------------------------------------------------------------

  /** An empty lyric is a rest. */
  function AsRest(n: Note): Note {
    if n.mora == "" then n.(mora := "R") else n
  }

  /** Every note with its empty lyric made a rest. */
  function Rests(notes: seq<Note>): seq<Note> {
    seq(|notes|, k requires 0 <= k < |notes| => AsRest(notes[k]))
  }

  /** Two rests merged into one: the first's time, key and pitch, the summed length. */
  function MergeRests(n1: Note, n2: Note): Note {
    Note(n1.time, n1.length + n2.length, "R", n1.key, n1.pitchHz)
  }

  /** A note and the elongation after it merged: the first's lyric and time, the second's key and pitch. */
  function MergeElongation(n1: Note, n2: Note): Note {
    Note(n1.time, n1.length + n2.length, n1.mora, n2.key, n2.pitchHz)
  }

  /** How many pieces a long note is cut into: `(int)Math.Round(length / 0.6)`. */
  function PieceCount(length: real): int {
    Round(length / 0.6)
  }

  /** A note longer than a second is cut into at least two pieces, each shorter than a second. */
  lemma PieceCountBounds(length: real)
    requires length > 1.0
    ensures PieceCount(length) >= 2
    ensures length < PieceCount(length) as real
  {
    var x := length / 0.6;
    assert x * 0.6 == length;
    assert x > 1.6;
  }

  /** `m` copies of the elongation `e`. */
  function Elongations(e: Note, m: nat): seq<Note> {
    if m == 0 then [] else Elongations(e, m - 1) + [e]
  }

  /** The elongation after piece one of note `n`, `i` being the note's index and `piece` the piece length. */
  function Elongation(n: Note, i: nat, piece: real): Note {
    Note(n.time + i as real * piece, piece, "ー", n.key, n.pitchHz)
  }

  /**
   * A long note cut into `PieceCount` equal pieces: the note itself with
   * the piece length, then elongations `ー`; as written, every elongation
   * starts at `time + i * piece`, `i` being the note's index in the score.
   */
  function Divide(n: Note, i: nat): seq<Note>
    requires n.length > 1.0
  {
    PieceCountBounds(n.length);
    var num := PieceCount(n.length);
    var piece := n.length / num as real;
    [n.(length := piece)] + Elongations(Elongation(n, i, piece), num - 1)
  }

  /** The merge-and-split pass over `notes[i..]`, `i` being the index of the first one. */
  function PreFrom(notes: seq<Note>, i: nat, near: (real, real) -> bool): seq<Note>
    requires i <= |notes|
    decreases |notes| - i
  {
    if i == |notes| then []
    else if i == |notes| - 1 then [notes[i]]
    else
      var n1 := notes[i];
      var n2 := notes[i + 1];
      if n1.mora == "R" && n2.mora == "R" then
        [MergeRests(n1, n2)] + PreFrom(notes, i + 2, near)
      else if n2.mora == "ー" && n1.length + n2.length < 1.0 && near(n1.pitchHz, n2.pitchHz) then
        [MergeElongation(n1, n2)] + PreFrom(notes, i + 2, near)
      else if n1.mora != "R" && n1.length > 1.0 then
        Divide(n1, i) + PreFrom(notes, i + 1, near)
      else
        [n1] + PreFrom(notes, i + 1, near)
  }

  /** What `PreProcessing` returns. */
  function Preprocessed(notes: seq<Note>, near: (real, real) -> bool): seq<Note> {
    PreFrom(Rests(notes), 0, near)
  }

  /** `PreProcessing`: the empty lyrics made rests, then one pass merging and splitting. */
  method PreProcessing(notes: seq<Note>, near: (real, real) -> bool) returns (newNotes: seq<Note>)
    ensures newNotes == Preprocessed(notes, near)
  {
    var rests := MarkRests(notes);
    newNotes := MergeAndSplit(rests, near);
  }

  /** The `ForEach` that makes every empty lyric `R`. */
  method MarkRests(notes: seq<Note>) returns (rests: seq<Note>)
    ensures rests == Rests(notes)
  {
    rests := notes;
    for k := 0 to |notes|
      invariant |rests| == |notes|
      invariant forall j :: 0 <= j < k ==> rests[j] == AsRest(notes[j])
      invariant forall j :: k <= j < |notes| ==> rests[j] == notes[j]
    {
      if rests[k].mora == "" {
        rests := rests[k := rests[k].(mora := "R")];
      }
    }
  }

  /** The index loop of `PreProcessing`. */
  method MergeAndSplit(notes: seq<Note>, near: (real, real) -> bool) returns (newNotes: seq<Note>)
    ensures newNotes == PreFrom(notes, 0, near)
  {
    ghost var target := PreFrom(notes, 0, near);
    newNotes := [];
    var i := 0;
    while i < |notes|
      invariant 0 <= i <= |notes|
      invariant newNotes + PreFrom(notes, i, near) == target
      decreases |notes| - i
    {
      ghost var rest := PreFrom(notes, i, near);
      ghost var done := newNotes;
      if i == |notes| - 1 {
        assert rest == [notes[i]];
        newNotes := newNotes + [notes[i]];
        assert newNotes == target;
        break;
      }
      var note1 := notes[i];
      var note2 := notes[i + 1];
      if note1.mora == "R" && note2.mora == "R" {
        assert rest == [MergeRests(note1, note2)] + PreFrom(notes, i + 2, near);
        newNotes := newNotes + [MergeRests(note1, note2)];
        Associative(done, [MergeRests(note1, note2)], PreFrom(notes, i + 2, near));
        i := i + 2;
        continue;
      }
      if note2.mora == "ー" && note1.length + note2.length < 1.0 && near(note1.pitchHz, note2.pitchHz) {
        assert rest == [MergeElongation(note1, note2)] + PreFrom(notes, i + 2, near);
        newNotes := newNotes + [MergeElongation(note1, note2)];
        Associative(done, [MergeElongation(note1, note2)], PreFrom(notes, i + 2, near));
        i := i + 2;
        continue;
      }
      if note1.mora != "R" && note1.length > 1.0 {
        assert rest == Divide(note1, i) + PreFrom(notes, i + 1, near);
        var pieces := DividePieces(note1, i);
        newNotes := newNotes + pieces;
        Associative(done, pieces, PreFrom(notes, i + 1, near));
        i := i + 1;
        continue;
      }
      assert rest == [note1] + PreFrom(notes, i + 1, near);
      newNotes := newNotes + [note1];
      Associative(done, [note1], PreFrom(notes, i + 1, near));
      i := i + 1;
    }
  }

  lemma Associative(a: seq<Note>, b: seq<Note>, c: seq<Note>)
    ensures (a + b) + c == a + (b + c)
  {
  }

  /** The inner loop that appends a long note's pieces. */
  method DividePieces(note: Note, i: nat) returns (pieces: seq<Note>)
    requires note.length > 1.0
    ensures pieces == Divide(note, i)
  {
    PieceCountBounds(note.length);
    var num := PieceCount(note.length);
    var note1 := note.(length := note.length / num as real);
    var e := Elongation(note, i, note1.length);
    pieces := [note1];
    for j := 1 to num
      invariant pieces == [note1] + Elongations(e, j - 1)
    {
      pieces := pieces + [Note(note1.time + i as real * note1.length, note1.length, "ー", note1.key, note1.pitchHz)];
      assert pieces[|pieces| - 1] == e;
    }
    assert pieces == [note1] + Elongations(e, num - 1);
  }

  /** The summed length of the notes. */
  function TotalLength(notes: seq<Note>): real {
    if |notes| == 0 then 0.0 else notes[0].length + TotalLength(notes[1..])
  }

  lemma {:induction false} TotalLengthAppend(a: seq<Note>, b: seq<Note>)
    ensures TotalLength(a + b) == TotalLength(a) + TotalLength(b)
    decreases |a|
  {
    if |a| == 0 {
      assert a + b == b;
    } else {
      assert (a + b)[1..] == a[1..] + b;
      TotalLengthAppend(a[1..], b);
    }
  }

  lemma {:induction false} TotalLengthSame(e: Note, m: nat)
    ensures TotalLength(Elongations(e, m)) == m as real * e.length
  {
    if m > 0 {
      TotalLengthSame(e, m - 1);
      TotalLengthAppend(Elongations(e, m - 1), [e]);
      assert [e][1..] == [];
    }
  }

  lemma TotalLengthSingle(n: Note)
    ensures TotalLength([n]) == n.length
  {
    assert [n][1..] == [];
  }

  lemma QuotientBelowOne(a: real, b: real)
    requires 0.0 < b && a < b
    ensures a / b < 1.0
  {
    assert a / b * b == a;
  }

  lemma ElongationsAt(e: Note, m: nat)
    ensures |Elongations(e, m)| == m
    ensures forall k :: 0 <= k < m ==> Elongations(e, m)[k] == e
  {
    if m > 0 {
      ElongationsAt(e, m - 1);
    }
  }

  /** The pieces one by one: the note with the piece length, then elongations. */
  lemma DivideAt(n: Note, i: nat)
    requires n.length > 1.0
    ensures var r := Divide(n, i);
      && |r| == PieceCount(n.length) >= 2
      && r[0] == n.(length := n.length / |r| as real)
      && forall k :: 1 <= k < |r| ==> r[k] == Elongation(n, i, n.length / |r| as real)
  {
    PieceCountBounds(n.length);
    var num := PieceCount(n.length);
    var piece := n.length / num as real;
    ElongationsAt(Elongation(n, i, piece), num - 1);
  }

  /**
   * The pieces of a long note: at least two, all of the same length
   * shorter than a second, elongations after the first, and together as
   * long as the note.
   */
  lemma DivideShape(n: Note, i: nat)
    requires n.length > 1.0
    ensures var r := Divide(n, i);
      && |r| >= 2
      && (forall k :: 0 <= k < |r| ==> r[k].length == n.length / |r| as real && r[k].length < 1.0)
      && (forall k :: 1 <= k < |r| ==> r[k].mora == "ー" && r[k].key == n.key && r[k].pitchHz == n.pitchHz)
      && TotalLength(r) == n.length
  {
    PieceCountBounds(n.length);
    var num := PieceCount(n.length);
    DivideAt(n, i);
    DivideTotal(n, i);
    QuotientBelowOne(n.length, num as real);
  }

  lemma DivideTotal(n: Note, i: nat)
    requires n.length > 1.0
    ensures TotalLength(Divide(n, i)) == n.length
  {
    PieceCountBounds(n.length);
    var num := PieceCount(n.length);
    var piece := n.length / num as real;
    var e := Elongation(n, i, piece);
    assert Divide(n, i) == [n.(length := piece)] + Elongations(e, num - 1);
    TotalLengthAppend([n.(length := piece)], Elongations(e, num - 1));
    TotalLengthSame(e, num - 1);
    TotalLengthSingle(n.(length := piece));
    PiecesSum(n.length, num as real);
  }

  lemma PiecesSum(a: real, b: real)
    requires b >= 1.0
    ensures a / b + (b - 1.0) * (a / b) == a
  {
    assert a / b * b == a;
  }

  /** The lyrics proper: the notes that are neither rests nor elongations. */
  predicate IsLyric(n: Note) {
    n.mora != "R" && n.mora != "ー"
  }

  /** The lyrics of the notes, in order. */
  function Lyrics(notes: seq<Note>): seq<string> {
    if |notes| == 0 then [] else (if IsLyric(notes[0]) then [notes[0].mora] else []) + Lyrics(notes[1..])
  }

  lemma {:induction false} LyricsAppend(a: seq<Note>, b: seq<Note>)
    ensures Lyrics(a + b) == Lyrics(a) + Lyrics(b)
    decreases |a|
  {
    if |a| == 0 {
      assert a + b == b;
    } else {
      assert (a + b)[1..] == a[1..] + b;
      LyricsAppend(a[1..], b);
      var h: seq<string> := if IsLyric(a[0]) then [a[0].mora] else [];
      assert Lyrics(a + b) == h + Lyrics(a[1..] + b);
      assert h + (Lyrics(a[1..]) + Lyrics(b)) == (h + Lyrics(a[1..])) + Lyrics(b);
    }
  }

  lemma {:induction false} LyricsElongations(e: Note, m: nat)
    requires e.mora == "ー"
    ensures Lyrics(Elongations(e, m)) == []
  {
    if m > 0 {
      LyricsElongations(e, m - 1);
      LyricsAppend(Elongations(e, m - 1), [e]);
      assert [e][1..] == [];
    }
  }

  lemma DivideLyrics(n: Note, i: nat)
    requires n.length > 1.0
    ensures Lyrics(Divide(n, i)) == Lyrics([n])
  {
    PieceCountBounds(n.length);
    var num := PieceCount(n.length);
    var piece := n.length / num as real;
    var e := Elongation(n, i, piece);
    assert Divide(n, i) == [n.(length := piece)] + Elongations(e, num - 1);
    LyricsAppend([n.(length := piece)], Elongations(e, num - 1));
    LyricsElongations(e, num - 1);
    assert [n.(length := piece)][1..] == [];
    assert [n][1..] == [];
  }

  /** The pass keeps the total length of the notes: merges add lengths, cuts divide them. */
  lemma {:induction false} PreFromLength(notes: seq<Note>, i: nat, near: (real, real) -> bool)
    requires i <= |notes|
    ensures TotalLength(PreFrom(notes, i, near)) == TotalLength(notes[i..])
    decreases |notes| - i
  {
    if i == |notes| {
    } else if i == |notes| - 1 {
      assert notes[i..][1..] == [];
      assert [notes[i]][1..] == [];
    } else {
      var n1 := notes[i];
      var n2 := notes[i + 1];
      assert notes[i..][1..] == notes[i + 1..];
      assert notes[i + 1..][1..] == notes[i + 2..];
      if n1.mora == "R" && n2.mora == "R" {
        PreFromLength(notes, i + 2, near);
        TotalLengthAppend([MergeRests(n1, n2)], PreFrom(notes, i + 2, near));
        assert [MergeRests(n1, n2)][1..] == [];
      } else if n2.mora == "ー" && n1.length + n2.length < 1.0 && near(n1.pitchHz, n2.pitchHz) {
        PreFromLength(notes, i + 2, near);
        TotalLengthAppend([MergeElongation(n1, n2)], PreFrom(notes, i + 2, near));
        assert [MergeElongation(n1, n2)][1..] == [];
      } else if n1.mora != "R" && n1.length > 1.0 {
        PreFromLength(notes, i + 1, near);
        TotalLengthAppend(Divide(n1, i), PreFrom(notes, i + 1, near));
        DivideShape(n1, i);
      } else {
        PreFromLength(notes, i + 1, near);
        TotalLengthAppend([n1], PreFrom(notes, i + 1, near));
        assert [n1][1..] == [];
      }
    }
  }

  /** The pass keeps the lyrics and their order: it only adds, drops or merges rests and elongations. */
  lemma {:induction false} PreFromLyrics(notes: seq<Note>, i: nat, near: (real, real) -> bool)
    requires i <= |notes|
    ensures Lyrics(PreFrom(notes, i, near)) == Lyrics(notes[i..])
    decreases |notes| - i
  {
    if i == |notes| {
    } else if i == |notes| - 1 {
      assert notes[i..] == [notes[i]];
    } else {
      var n1 := notes[i];
      var n2 := notes[i + 1];
      assert notes[i..][1..] == notes[i + 1..];
      assert notes[i + 1..][1..] == notes[i + 2..];
      if n1.mora == "R" && n2.mora == "R" {
        PreFromLyrics(notes, i + 2, near);
        LyricsAppend([MergeRests(n1, n2)], PreFrom(notes, i + 2, near));
        assert [MergeRests(n1, n2)][1..] == [];
      } else if n2.mora == "ー" && n1.length + n2.length < 1.0 && near(n1.pitchHz, n2.pitchHz) {
        PreFromLyrics(notes, i + 2, near);
        LyricsAppend([MergeElongation(n1, n2)], PreFrom(notes, i + 2, near));
        assert [MergeElongation(n1, n2)][1..] == [];
      } else if n1.mora != "R" && n1.length > 1.0 {
        PreFromLyrics(notes, i + 1, near);
        LyricsAppend(Divide(n1, i), PreFrom(notes, i + 1, near));
        DivideLyrics(n1, i);
        assert [n1][1..] == [];
      } else {
        PreFromLyrics(notes, i + 1, near);
        LyricsAppend([n1], PreFrom(notes, i + 1, near));
        assert [n1][1..] == [];
      }
    }
  }

  /** A rest, or a note of at most a second. */
  predicate IsShort(n: Note) {
    n.mora == "R" || n.length <= 1.0
  }

  /** Every note is short, except perhaps a last one that is `last` left as it was. */
  predicate ShortExceptLast(notes: seq<Note>, last: Note) {
    forall k :: 0 <= k < |notes| ==> IsShort(notes[k]) || (k == |notes| - 1 && notes[k] == last)
  }

  lemma ShortPrepend(head: seq<Note>, rest: seq<Note>, last: Note)
    requires forall k :: 0 <= k < |head| ==> IsShort(head[k])
    requires ShortExceptLast(rest, last)
    ensures ShortExceptLast(head + rest, last)
  {
    var all := head + rest;
    forall k | 0 <= k < |all|
      ensures IsShort(all[k]) || (k == |all| - 1 && all[k] == last)
    {
      if k >= |head| {
        assert all[k] == rest[k - |head|];
      }
    }
  }

  /**
   * After the pass no lyric is longer than a second, except the score's
   * last note, which is always taken as it is.
   */
  lemma {:induction false} PreFromShort(notes: seq<Note>, i: nat, near: (real, real) -> bool)
    requires 0 < |notes| && i <= |notes|
    ensures ShortExceptLast(PreFrom(notes, i, near), notes[|notes| - 1])
    decreases |notes| - i
  {
    if i == |notes| {
    } else if i == |notes| - 1 {
    } else {
      var n1 := notes[i];
      var n2 := notes[i + 1];
      if n1.mora == "R" && n2.mora == "R" {
        PreFromShort(notes, i + 2, near);
        ShortPrepend([MergeRests(n1, n2)], PreFrom(notes, i + 2, near), notes[|notes| - 1]);
      } else if n2.mora == "ー" && n1.length + n2.length < 1.0 && near(n1.pitchHz, n2.pitchHz) {
        PreFromShort(notes, i + 2, near);
        ShortPrepend([MergeElongation(n1, n2)], PreFrom(notes, i + 2, near), notes[|notes| - 1]);
      } else if n1.mora != "R" && n1.length > 1.0 {
        PreFromShort(notes, i + 1, near);
        DivideShape(n1, i);
        ShortPrepend(Divide(n1, i), PreFrom(notes, i + 1, near), notes[|notes| - 1]);
      } else {
        PreFromShort(notes, i + 1, near);
        ShortPrepend([n1], PreFrom(notes, i + 1, near), notes[|notes| - 1]);
      }
    }
  }

  /** No note has an empty lyric. */
  predicate NoEmptyLyric(notes: seq<Note>) {
    forall k :: 0 <= k < |notes| ==> notes[k].mora != ""
  }

  lemma {:induction false} PreFromNoEmpty(notes: seq<Note>, i: nat, near: (real, real) -> bool)
    requires i <= |notes| && NoEmptyLyric(notes)
    ensures NoEmptyLyric(PreFrom(notes, i, near))
    decreases |notes| - i
  {
    if i < |notes| - 1 {
      var n1 := notes[i];
      var n2 := notes[i + 1];
      if n1.mora == "R" && n2.mora == "R" {
        PreFromNoEmpty(notes, i + 2, near);
        NoEmptyAppend([MergeRests(n1, n2)], PreFrom(notes, i + 2, near));
      } else if n2.mora == "ー" && n1.length + n2.length < 1.0 && near(n1.pitchHz, n2.pitchHz) {
        PreFromNoEmpty(notes, i + 2, near);
        NoEmptyAppend([MergeElongation(n1, n2)], PreFrom(notes, i + 2, near));
      } else if n1.mora != "R" && n1.length > 1.0 {
        PreFromNoEmpty(notes, i + 1, near);
        DivideAt(n1, i);
        NoEmptyAppend(Divide(n1, i), PreFrom(notes, i + 1, near));
      } else {
        PreFromNoEmpty(notes, i + 1, near);
        NoEmptyAppend([n1], PreFrom(notes, i + 1, near));
      }
    } else if i == |notes| - 1 {
      assert PreFrom(notes, i, near) == [notes[i]];
    }
  }

  lemma NoEmptyAppend(a: seq<Note>, b: seq<Note>)
    requires NoEmptyLyric(a) && NoEmptyLyric(b)
    ensures NoEmptyLyric(a + b)
  {
    assert forall k :: |a| <= k < |a + b| ==> (a + b)[k] == b[k - |a|];
  }

  /**
   * What `PreProcessing` promises: no empty lyric is left, the total
   * length and the lyrics are kept, and every lyric but the score's last
   * note lasts at most a second.
   */
  lemma PreprocessedShape(notes: seq<Note>, near: (real, real) -> bool)
    ensures NoEmptyLyric(Preprocessed(notes, near))
    ensures TotalLength(Preprocessed(notes, near)) == TotalLength(notes)
    ensures Lyrics(Preprocessed(notes, near)) == Lyrics(Rests(notes))
    ensures |notes| > 0 ==> ShortExceptLast(Preprocessed(notes, near), AsRest(notes[|notes| - 1]))
    ensures |notes| == 0 <==> Preprocessed(notes, near) == []
  {
    var rests := Rests(notes);
    RestsAt(notes);
    PreFromNoEmpty(rests, 0, near);
    PreFromLength(rests, 0, near);
    RestsLength(notes);
    assert rests[0..] == rests;
    PreFromLyrics(rests, 0, near);
    if |notes| > 0 {
      PreFromShort(rests, 0, near);
    }
  }

  lemma RestsAt(notes: seq<Note>)
    ensures |Rests(notes)| == |notes|
    ensures NoEmptyLyric(Rests(notes))
    ensures |notes| > 0 ==> Rests(notes)[|notes| - 1] == AsRest(notes[|notes| - 1])
  {
  }

  lemma {:induction false} RestsLength(notes: seq<Note>)
    ensures TotalLength(Rests(notes)) == TotalLength(notes)
  {
    if |notes| > 0 {
      assert Rests(notes)[1..] == Rests(notes[1..]);
      RestsLength(notes[1..]);
    }
  }

  // ---------------------------------------------------------------------
  // SplitNotes
  // ---------------------------------------------------------------------

  /** A rest longer than 0.2 seconds separates two phrases. */
  predicate IsSeparator(n: Note) {
    n.mora == "R" && n.length > 0.2
  }

  /** A phrase (`NoteGroup`): the pause before it in seconds and its notes. */
  datatype NoteGroup = NoteGroup(pause: real, notes: seq<Note>)

  /** The state of the splitting loop: the closed groups, the open one, and the pause for it. */
  datatype Splitting = Splitting(groups: seq<NoteGroup>, group: seq<Note>, pause: real)

  /** The groups once the open group, if it is not empty, is closed. */
  function Closed(st: Splitting): seq<NoteGroup> {
    if |st.group| > 0 then st.groups + [NoteGroup(st.pause, st.group)] else st.groups
  }

  /** The splitting state after the notes. */
  function SplitPrefix(notes: seq<Note>): Splitting {
    if |notes| == 0 then Splitting([], [], 0.0)
    else
      var st := SplitPrefix(notes[..|notes| - 1]);
      var n := notes[|notes| - 1];
      if IsSeparator(n) then Splitting(Closed(st), [], n.length)
      else st.(group := st.group + [n])
  }

  /** What `SplitNotes` returns. */
  function Groups(notes: seq<Note>): seq<NoteGroup> {
    Closed(SplitPrefix(notes))
  }

  /** `SplitNotes`: one pass over the notes, closing the open group at each separator. */
  method SplitNotes(notes: seq<Note>) returns (noteGroups: seq<NoteGroup>)
    ensures noteGroups == Groups(notes)
  {
    noteGroups := [];
    var group: seq<Note> := [];
    var pause := 0.0;
    for i := 0 to |notes|
      invariant Splitting(noteGroups, group, pause) == SplitPrefix(notes[..i])
    {
      assert notes[..i + 1][..i] == notes[..i];
      var note := notes[i];
      if note.mora == "R" && note.length > 0.2 {
        if |group| > 0 {
          noteGroups := noteGroups + [NoteGroup(pause, group)];
          group := [];
        }
        pause := note.length;
        continue;
      }
      group := group + [note];
    }
    assert notes[..|notes|] == notes;
    if |group| > 0 {
      noteGroups := noteGroups + [NoteGroup(pause, group)];
      group := [];
    }
  }

  /** The notes that are not separators, in order. */
  function Kept(notes: seq<Note>): seq<Note> {
    if |notes| == 0 then []
    else Kept(notes[..|notes| - 1]) + (if IsSeparator(notes[|notes| - 1]) then [] else [notes[|notes| - 1]])
  }

  /** The notes of the groups, one group after the other. */
  function Flatten(groups: seq<NoteGroup>): seq<Note> {
    if |groups| == 0 then [] else Flatten(groups[..|groups| - 1]) + groups[|groups| - 1].notes
  }

  /** The length of the latest separator among the notes, 0 when there is none. */
  function LastSeparator(notes: seq<Note>): real {
    if |notes| == 0 then 0.0
    else if IsSeparator(notes[|notes| - 1]) then notes[|notes| - 1].length
    else LastSeparator(notes[..|notes| - 1])
  }

  /** A group is not empty and holds no separator. */
  predicate Sound(g: NoteGroup) {
    |g.notes| > 0 && forall k :: 0 <= k < |g.notes| ==> !IsSeparator(g.notes[k])
  }

  predicate AllSound(groups: seq<NoteGroup>) {
    forall j :: 0 <= j < |groups| ==> Sound(groups[j])
  }

  /** The group's notes stand at `k` in the score, and its pause is the latest separator before them. */
  predicate GroupAt(notes: seq<Note>, g: NoteGroup, k: int) {
    0 <= k && k + |g.notes| <= |notes| && notes[k..k + |g.notes|] == g.notes && g.pause == LastSeparator(notes[..k])
  }

  /** The group stands somewhere in the score, after the latest separator before it. */
  ghost predicate Placed(notes: seq<Note>, g: NoteGroup) {
    exists k :: GroupAt(notes, g, k)
  }

  ghost predicate Located(notes: seq<Note>, groups: seq<NoteGroup>) {
    forall j :: 0 <= j < |groups| ==> Placed(notes, groups[j])
  }

  /** The open group is the run of notes since the last separator, with that separator's pause. */
  lemma {:induction false} SplitOpen(notes: seq<Note>)
    ensures var st := SplitPrefix(notes);
      && |st.group| <= |notes|
      && st.group == notes[|notes| - |st.group|..]
      && st.pause == LastSeparator(notes[..|notes| - |st.group|])
      && (forall k :: 0 <= k < |st.group| ==> !IsSeparator(st.group[k]))
  {
    if |notes| > 0 {
      var init := notes[..|notes| - 1];
      var n := notes[|notes| - 1];
      SplitOpen(init);
      var st := SplitPrefix(init);
      if IsSeparator(n) {
        assert notes[..|notes|] == notes;
      } else {
        var s := |init| - |st.group|;
        assert notes[s..] == init[s..] + [n];
        assert notes[..s] == init[..s];
        assert LastSeparator(notes[..s]) == LastSeparator(init[..s]);
      }
    }
  }

  lemma GroupAtExtend(p: seq<Note>, notes: seq<Note>, g: NoteGroup, k: int)
    requires |p| <= |notes| && p == notes[..|p|] && GroupAt(p, g, k)
    ensures GroupAt(notes, g, k)
  {
    assert notes[k..k + |g.notes|] == p[k..k + |g.notes|];
    assert notes[..k] == p[..k];
  }

  /** The closed groups are sound and stand, in the score, after the latest separator before them. */
  lemma {:induction false} SplitClosed(notes: seq<Note>)
    ensures AllSound(SplitPrefix(notes).groups)
    ensures Located(notes, SplitPrefix(notes).groups)
  {
    if |notes| > 0 {
      var init := notes[..|notes| - 1];
      var n := notes[|notes| - 1];
      SplitClosed(init);
      var st := SplitPrefix(init);
      LocatedExtend(init, notes, st.groups);
      if IsSeparator(n) && |st.group| > 0 {
        SplitOpen(init);
        var s := |init| - |st.group|;
        var g := NoteGroup(st.pause, st.group);
        assert notes[s..s + |st.group|] == init[s..];
        assert notes[..s] == init[..s];
        assert GroupAt(notes, g, s);
        LocatedAppend(notes, st.groups, g, s);
      }
    }
  }

  lemma LocatedExtend(p: seq<Note>, notes: seq<Note>, groups: seq<NoteGroup>)
    requires |p| <= |notes| && p == notes[..|p|] && Located(p, groups)
    ensures Located(notes, groups)
  {
    forall j | 0 <= j < |groups|
      ensures Placed(notes, groups[j])
    {
      var k :| GroupAt(p, groups[j], k);
      GroupAtExtend(p, notes, groups[j], k);
    }
  }

  lemma LocatedAppend(notes: seq<Note>, groups: seq<NoteGroup>, g: NoteGroup, k: int)
    requires Located(notes, groups) && GroupAt(notes, g, k)
    ensures Located(notes, groups + [g])
  {
    var gs := groups + [g];
    forall j | 0 <= j < |gs|
      ensures Placed(notes, gs[j])
    {
      if j < |groups| {
        assert gs[j] == groups[j];
      } else {
        assert GroupAt(notes, gs[j], k);
      }
    }
  }

  /** The groups hold exactly the notes that are not separators, in order. */
  lemma {:induction false} SplitKept(notes: seq<Note>)
    ensures Flatten(SplitPrefix(notes).groups) + SplitPrefix(notes).group == Kept(notes)
  {
    if |notes| > 0 {
      var init := notes[..|notes| - 1];
      var n := notes[|notes| - 1];
      SplitKept(init);
      var st := SplitPrefix(init);
      if IsSeparator(n) && |st.group| > 0 {
        var gs := st.groups + [NoteGroup(st.pause, st.group)];
        assert gs[..|gs| - 1] == st.groups;
      }
    }
  }

  /**
   * What `SplitNotes` promises: the groups are not empty, hold no
   * separator, hold every other note in order, and each group's pause is
   * the latest separator before its first note (0 when there is none).
   */
  lemma GroupsShape(notes: seq<Note>)
    ensures AllSound(Groups(notes))
    ensures Located(notes, Groups(notes))
    ensures Flatten(Groups(notes)) == Kept(notes)
  {
    GroupsPlaced(notes);
    GroupsKept(notes);
  }

  lemma GroupsPlaced(notes: seq<Note>)
    ensures AllSound(Groups(notes))
    ensures Located(notes, Groups(notes))
  {
    var st := SplitPrefix(notes);
    SplitClosed(notes);
    if |st.group| > 0 {
      SplitOpen(notes);
      var g := NoteGroup(st.pause, st.group);
      var s := |notes| - |st.group|;
      assert notes[s..s + |st.group|] == st.group;
      assert GroupAt(notes, g, s);
      LocatedAppend(notes, st.groups, g, s);
      assert Sound(g);
      SoundAppend(st.groups, g);
    }
  }

  lemma SoundAppend(groups: seq<NoteGroup>, g: NoteGroup)
    requires AllSound(groups) && Sound(g)
    ensures AllSound(groups + [g])
  {
    assert forall j :: 0 <= j < |groups| ==> (groups + [g])[j] == groups[j];
  }

  lemma GroupsKept(notes: seq<Note>)
    ensures Flatten(Groups(notes)) == Kept(notes)
  {
    var st := SplitPrefix(notes);
    SplitKept(notes);
    if |st.group| > 0 {
      var gs := st.groups + [NoteGroup(st.pause, st.group)];
      assert gs[..|gs| - 1] == st.groups;
    }
  }

  // ---------------------------------------------------------------------
  // NoteGroup scripts
  // ---------------------------------------------------------------------

  /** The pause script's span: `(int)Math.Round((Pause_sec - 0.2) * 1000)`. */
  function PauseSpan(g: NoteGroup): int {
    Round((g.pause - 0.2) * 1000.0)
  }

  /** `GetPauseScript`: a single `ッ` holding the phrase's pause less 0.2 seconds. */
  function PauseScript(g: NoteGroup, i: nat, host: Host): TalkScript {
    TalkScript("ポーズ＿" + Format0000(i) + "。", host.engineKey,
               [host.blankSection.(moras := [host.blankMora.(character := "ッ")], pause := Pause(Manual, PauseSpan(g)))],
               host.blankEnd)
  }

  /** The pause script is kept exactly when the pause is longer than 0.2005 seconds. */
  lemma PauseScriptKept(g: NoteGroup, i: nat, host: Host)
    ensures PauseScript(g, i, host).sections[0].pause.spanMs > 0 <==> g.pause > 0.2005
  {
    var x := (g.pause - 0.2) * 1000.0;
    var r := Round(x);
    if r > 0 {
      assert x >= 0.5;
    }
  }

  /** A short rest inside a phrase is sung as `ッ`. */
  function Sung(n: Note): Note {
    if n.mora == "R" then n.(mora := "ッ") else n
  }

  function SungNotes(notes: seq<Note>): seq<Note> {
    seq(|notes|, k requires 0 <= k < |notes| => Sung(notes[k]))
  }

  /** The lyrics of the notes written one after the other. */
  function LyricText(notes: seq<Note>): string {
    if |notes| == 0 then "" else LyricText(notes[..|notes| - 1]) + notes[|notes| - 1].mora
  }

  /** `100 * 0.6 / Length_sec`; a zero length, infinite in the source, is taken as 0. */
  function NoteSpeed(length: real): real {
    if length == 0.0 then 0.0 else 100.0 * 0.6 / length
  }

  /** The mora a note becomes in the main script. */
  function NoteMora(n: Note, host: Host): Mora {
    host.blankMora.(character := n.mora, speed := NoteSpeed(n.length), pitch := host.semitones(n.pitchHz))
  }

  function NoteMoras(notes: seq<Note>, host: Host): seq<Mora> {
    if |notes| == 0 then [] else NoteMoras(notes[..|notes| - 1], host) + [NoteMora(notes[|notes| - 1], host)]
  }

  /** The main script's pause: `Math.Min(200, (int)Math.Round(Pause_sec * 1000))`. */
  function MainPause(g: NoteGroup): int {
    Min(200, Round(g.pause * 1000.0))
  }

  /** What `GetMainScript` returns: one section with a mora per note, after the phrase's pause. */
  function MainScript(g: NoteGroup, i: nat, host: Host): TalkScript {
    var notes := SungNotes(g.notes);
    TalkScript("フレーズ" + Format0000(i) + "_" + LyricText(notes) + "。", host.engineKey,
               [host.blankSection.(moras := NoteMoras(notes, host), pause := Pause(Manual, MainPause(g)))],
               host.blankEnd)
  }

  /** `GetMainScript`: the loop that sings rests as `ッ` and writes the text, then the loop that makes the moras. */
  method GetMainScript(g: NoteGroup, i: nat, host: Host) returns (script: TalkScript)
    ensures script == MainScript(g, i, host)
  {
    var notes, text := SingRests(g.notes);
    script := TalkScript("フレーズ" + Format0000(i) + "_" + text + "。", host.engineKey, [], host.blankEnd);
    var pause := Min(200, Round(g.pause * 1000.0));
    var section := host.blankSection.(pause := Pause(Manual, pause));
    var moras := MakeMoras(notes, host);
    section := section.(moras := moras);
    script := script.(sections := script.sections + [section]);
    assert script.sections == [section];
  }

  /** The first loop of `GetMainScript`: every rest made `ッ`, and the lyrics written out. */
  method SingRests(notes0: seq<Note>) returns (notes: seq<Note>, text: string)
    ensures notes == SungNotes(notes0)
    ensures text == LyricText(notes)
  {
    notes := notes0;
    text := "";
    for k := 0 to |notes|
      invariant |notes| == |notes0|
      invariant forall j :: 0 <= j < k ==> notes[j] == Sung(notes0[j])
      invariant forall j :: k <= j < |notes| ==> notes[j] == notes0[j]
      invariant text == LyricText(notes[..k])
    {
      ghost var before := notes;
      if notes[k].mora == "R" {
        notes := notes[k := notes[k].(mora := "ッ")];
      }
      assert notes[..k] == before[..k];
      assert notes[..k + 1][..k] == notes[..k];
      text := text + notes[k].mora;
    }
    assert notes[..|notes|] == notes;
  }

  /** The second loop of `GetMainScript`: a mora per note. */
  method MakeMoras(notes: seq<Note>, host: Host) returns (moras: seq<Mora>)
    ensures moras == NoteMoras(notes, host)
  {
    moras := [];
    for k := 0 to |notes|
      invariant moras == NoteMoras(notes[..k], host)
    {
      assert notes[..k + 1][..k] == notes[..k];
      moras := moras + [host.blankMora.(character := notes[k].mora, speed := NoteSpeed(notes[k].length),
                                        pitch := host.semitones(notes[k].pitchHz))];
    }
    assert notes[..|notes|] == notes;
  }

  lemma {:induction false} NoteMorasAt(notes: seq<Note>, host: Host)
    ensures |NoteMoras(notes, host)| == |notes|
    ensures forall k :: 0 <= k < |notes| ==> NoteMoras(notes, host)[k] == NoteMora(notes[k], host)
  {
    if |notes| > 0 {
      NoteMorasAt(notes[..|notes| - 1], host);
    }
  }

  /** The mora sings the note: its lyric, `ッ` for a rest, at speed `60 / length`. */
  predicate Sings(m: Mora, n: Note) {
    && m.character == (if n.mora == "R" then "ッ" else n.mora)
    && (n.length != 0.0 ==> m.speed * n.length == 60.0)
  }

  lemma NoteSpeedLength(length: real)
    requires length != 0.0
    ensures NoteSpeed(length) * length == 60.0
  {
  }

  lemma SungMoras(notes: seq<Note>, host: Host)
    ensures |NoteMoras(SungNotes(notes), host)| == |notes|
    ensures forall k :: 0 <= k < |notes| ==> Sings(NoteMoras(SungNotes(notes), host)[k], notes[k])
  {
    var sung := SungNotes(notes);
    NoteMorasAt(sung, host);
    forall k | 0 <= k < |notes|
      ensures Sings(NoteMoras(sung, host)[k], notes[k])
    {
      assert sung[k] == Sung(notes[k]);
      if notes[k].length != 0.0 {
        NoteSpeedLength(notes[k].length);
      }
    }
  }

  /**
   * The main script has one section with one mora per note, none of them
   * a rest: each sings its note at speed `60 / length`, and the pause
   * before it is at most 200 ms.
   */
  lemma MainScriptShape(g: NoteGroup, i: nat, host: Host)
    ensures var s := MainScript(g, i, host);
      && |s.sections| == 1
      && MoraCount(s.sections) == |g.notes|
      && |s.sections[0].moras| == |g.notes|
      && s.sections[0].pause.spanMs <= 200
      && forall k :: 0 <= k < |g.notes| ==> Sings(s.sections[0].moras[k], g.notes[k])
  {
    var s := MainScript(g, i, host);
    SungMoras(g.notes, host);
    assert s.sections[..0] == [];
  }

  // ---------------------------------------------------------------------
  // MakeScripts
  // ---------------------------------------------------------------------

  /** The scripts of the groups that are kept: a pause script with a positive span, a main script with moras. */
  function ScriptsOf(groups: seq<NoteGroup>, host: Host): seq<TalkScript> {
    if |groups| == 0 then []
    else
      ScriptsOf(groups[..|groups| - 1], host) + GroupScripts(groups[|groups| - 1], |groups| - 1, host)
  }

  /** The text loop of `MakeScripts`: a new line before each text once the text is not blank. */
  function Lines(scripts: seq<TalkScript>, newline: string): string {
    if |scripts| == 0 then ""
    else
      var text := Lines(scripts[..|scripts| - 1], newline);
      (if !IsBlank(text) then text + newline else text) + scripts[|scripts| - 1].originalText
  }

  /** The scripts' texts joined by new lines. */
  function JoinLines(scripts: seq<TalkScript>, newline: string): string {
    if |scripts| == 0 then ""
    else if |scripts| == 1 then scripts[0].originalText
    else JoinLines(scripts[..|scripts| - 1], newline) + newline + scripts[|scripts| - 1].originalText
  }

  /** What `MakeScripts` returns for the notes of a score. */
  function Converted(notes: Option<seq<Note>>, host: Host): Option<(string, seq<TalkScript>)> {
    if notes.None? || |notes.value| == 0 then None
    else
      var scripts := ScriptsOf(Groups(Preprocessed(notes.value, host.near)), host);
      Some((Lines(scripts, host.newline), scripts))
  }

  /**
   * `MakeScripts`: nothing for missing or empty notes; otherwise the
   * notes preprocessed and split, the scripts of every group, and their
   * texts as one text.
   */
  method MakeScripts(notes: Option<seq<Note>>, host: Host) returns (r: Option<(string, seq<TalkScript>)>)
    ensures r == Converted(notes, host)
    ensures r.None? <==> notes.None? || |notes.value| == 0
  {
    if notes.None? || |notes.value| == 0 {
      return None;
    }
    var prepared := PreProcessing(notes.value, host.near);
    var groups := SplitNotes(prepared);
    var dict := CollectScripts(groups, host);
    var text := JoinTexts(dict, host.newline);
    r := Some((text, dict));
  }

  /** The scripts a group contributes, pause script first. */
  function GroupScripts(g: NoteGroup, i: nat, host: Host): seq<TalkScript> {
    var p := PauseScript(g, i, host);
    var m := MainScript(g, i, host);
    (if p.sections[0].pause.spanMs > 0 then [p] else []) + (if MoraCount(m.sections) > 0 then [m] else [])
  }

  /** The group loop of `MakeScripts`. */
  method CollectScripts(groups: seq<NoteGroup>, host: Host) returns (dict: seq<TalkScript>)
    ensures dict == ScriptsOf(groups, host)
  {
    dict := [];
    for i := 0 to |groups|
      invariant dict == ScriptsOf(groups[..i], host)
    {
      assert groups[..i + 1][..i] == groups[..i];
      var more := GroupStep(groups[i], i, host);
      dict := dict + more;
    }
    assert groups[..|groups|] == groups;
  }

  /** One turn of the group loop: the pause script if its span is positive, the main script if it has moras. */
  method GroupStep(group: NoteGroup, i: nat, host: Host) returns (more: seq<TalkScript>)
    ensures more == GroupScripts(group, i, host)
  {
    more := [];
    var pauseScript := PauseScript(group, i, host);
    if pauseScript.sections[0].pause.spanMs > 0 {
      more := more + [pauseScript];
    }
    var mainScript := GetMainScript(group, i, host);
    if MoraCount(mainScript.sections) > 0 {
      more := more + [mainScript];
    }
  }

  /** The text loop of `MakeScripts`. */
  method JoinTexts(dict: seq<TalkScript>, newline: string) returns (text: string)
    ensures text == Lines(dict, newline)
  {
    text := "";
    for k := 0 to |dict|
      invariant text == Lines(dict[..k], newline)
    {
      assert dict[..k + 1][..k] == dict[..k];
      if !IsBlank(text) {
        text := text + newline;
      }
      text := text + dict[k].originalText;
    }
    assert dict[..|dict|] == dict;
  }

  /** The groups whose pause script is kept. */
  function PausedGroups(groups: seq<NoteGroup>): nat {
    if |groups| == 0 then 0
    else PausedGroups(groups[..|groups| - 1]) + (if groups[|groups| - 1].pause > 0.2005 then 1 else 0)
  }

  /**
   * No phrase loses its main script: the scripts are one main script per
   * group and one pause script per group paused longer than 0.2005 seconds.
   */
  lemma {:induction false} ScriptsCount(groups: seq<NoteGroup>, host: Host)
    requires AllSound(groups)
    ensures |ScriptsOf(groups, host)| == |groups| + PausedGroups(groups)
  {
    if |groups| > 0 {
      var i := |groups| - 1;
      assert AllSound(groups[..i]) by {
        assert forall j :: 0 <= j < i ==> groups[..i][j] == groups[j];
      }
      ScriptsCount(groups[..i], host);
      PauseScriptKept(groups[i], i, host);
      MainScriptShape(groups[i], i, host);
      assert Sound(groups[i]);
    }
  }

  lemma NotBlankAppend(a: string, b: string)
    requires !IsBlank(b)
    ensures !IsBlank(a + b)
  {
    var k :| 0 <= k < |b| && !IsWhiteSpace(b[k]);
    assert (a + b)[|a| + k] == b[k];
  }

  /** A text that does not start with white space is not blank. */
  predicate Headed(s: string) {
    |s| > 0 && !IsWhiteSpace(s[0])
  }

  /** When no script's text starts with white space, the text is the texts joined by new lines. */
  lemma {:induction false} LinesJoined(scripts: seq<TalkScript>, newline: string)
    requires forall k :: 0 <= k < |scripts| ==> Headed(scripts[k].originalText)
    ensures Lines(scripts, newline) == JoinLines(scripts, newline)
    ensures |scripts| > 0 ==> !IsBlank(Lines(scripts, newline))
  {
    if |scripts| > 0 {
      var init := scripts[..|scripts| - 1];
      var t := scripts[|scripts| - 1].originalText;
      assert forall k :: 0 <= k < |init| ==> init[k] == scripts[k];
      LinesJoined(init, newline);
      assert !IsBlank(t) by {
        assert !IsWhiteSpace(t[0]);
      }
      if |init| == 0 {
        assert Lines(init, newline) == "";
        assert "" + t == t;
      } else {
        NotBlankAppend(Lines(init, newline) + newline, t);
      }
      NotBlankAppend(if !IsBlank(Lines(init, newline)) then Lines(init, newline) + newline else Lines(init, newline), t);
    }
  }

  lemma {:induction false} ScriptsHeaded(groups: seq<NoteGroup>, host: Host)
    ensures forall k :: 0 <= k < |ScriptsOf(groups, host)| ==> Headed(ScriptsOf(groups, host)[k].originalText)
  {
    if |groups| > 0 {
      var i := |groups| - 1;
      ScriptsHeaded(groups[..i], host);
    }
  }

  /**
   * The text `MakeScripts` returns is the kept scripts' texts joined by
   * new lines, since every script's text starts with `ポ` or `フ`.
   */
  lemma ConvertedText(notes: Option<seq<Note>>, host: Host)
    requires notes.Some? && |notes.value| > 0
    ensures var scripts := ScriptsOf(Groups(Preprocessed(notes.value, host.near)), host);
      Converted(notes, host) == Some((JoinLines(scripts, host.newline), scripts))
  {
    var scripts := ScriptsOf(Groups(Preprocessed(notes.value, host.near)), host);
    ScriptsHeaded(Groups(Preprocessed(notes.value, host.near)), host);
    LinesJoined(scripts, host.newline);
  }

  /** Every phrase of the score gives a main script, and a pause script when its pause exceeds 0.2005 seconds. */
  lemma ConvertedCount(notes: seq<Note>, host: Host)
    requires |notes| > 0
    ensures var groups := Groups(Preprocessed(notes, host.near));
      |Converted(Some(notes), host).value.1| == |groups| + PausedGroups(groups)
  {
    var groups := Groups(Preprocessed(notes, host.near));
    GroupsShape(Preprocessed(notes, host.near));
    ScriptsCount(groups, host);
  }
}
