/**
 * The unit database: the alias search with its four tiers, the two key
 * normalisation tables, the retry chain and command dispatch of
 * `GetValue`, the typed queries built on it, and the loading of
 * `oto.ini`.
 */
module Library {
  import opened Wrappers
  import opened Text
  import opened Oto

  // ---------------------------------------------------------------------
  // Alias search
  // ---------------------------------------------------------------------

  /** The four search tiers, from strictest to loosest. */
  datatype Tier = Exact | Underscore | Space | Loose

  /** Whether alias `alias` passes tier `t` for `key`. */
  predicate Matches(alias: string, key: string, t: Tier) {
    match t
    case Exact => alias == key
    case Underscore => Contains(alias, key + "_")
    case Space => Contains(alias, key + " ")
    case Loose => Contains(alias, key)
  }

  /** Every tier implies the loose one: an alias passing any tier contains the key. */
  lemma MatchesImpliesLoose(alias: string, key: string, t: Tier)
    requires Matches(alias, key, t)
    ensures Contains(alias, key)
  {
    match t
    case Exact => ContainsSelf(alias);
    case Underscore => ContainsPrefix(alias, key, "_");
    case Space => ContainsPrefix(alias, key, " ");
    case Loose =>
  }

  /** `FirstOrDefault`: the index of the first record in list order that passes tier `t`. */
  function FirstMatch(list: seq<Oto>, key: string, t: Tier): (r: Option<nat>)
    ensures r.Some? ==> r.value < |list| && Matches(list[r.value].alias, key, t)
    ensures r.Some? ==> forall j :: 0 <= j < r.value ==> !Matches(list[j].alias, key, t)
    ensures r.None? <==> forall j :: 0 <= j < |list| ==> !Matches(list[j].alias, key, t)
  {
    if |list| == 0 then None
    else if Matches(list[0].alias, key, t) then Some(0)
    else
      match FirstMatch(list[1..], key, t)
      case None => None
      case Some(i) => Some(i + 1)
  }

  /**
   * `Where(contains).OrderBy(length).FirstOrDefault()`: among the records
   * whose alias contains `key`, one of least alias length, and since the
   * ordering is stable, the earliest such one in list order.
   */
  function ShortestContaining(list: seq<Oto>, key: string): (r: Option<nat>)
    ensures r.None? <==> forall j :: 0 <= j < |list| ==> !Contains(list[j].alias, key)
    ensures r.Some? ==> r.value < |list| && Contains(list[r.value].alias, key)
    ensures r.Some? ==> forall j :: 0 <= j < |list| && Contains(list[j].alias, key) ==>
      |list[r.value].alias| <= |list[j].alias|
    ensures r.Some? ==> forall j :: 0 <= j < r.value && Contains(list[j].alias, key) ==>
      |list[r.value].alias| < |list[j].alias|
  {
    if |list| == 0 then None
    else
      var rest := ShortestContaining(list[1..], key);
      if !Contains(list[0].alias, key) then
        (match rest case None => None case Some(i) => Some(i + 1))
      else if rest.Some? && |list[rest.value + 1].alias| < |list[0].alias| then Some(rest.value + 1)
      else Some(0)
  }

  /** `SearchOto` on indices: the tiers are tried in order and the first that finds a record wins. */
  function SearchIndex(list: seq<Oto>, key: string): (r: Option<nat>)
    ensures r.Some? ==> r.value < |list|
    ensures r.None? <==> forall j :: 0 <= j < |list| ==> !Contains(list[j].alias, key)
  {
    var exact := FirstMatch(list, key, Exact);
    if exact.Some? then
      MatchesImpliesLoose(list[exact.value].alias, key, Exact);
      exact
    else
      var underscore := FirstMatch(list, key, Underscore);
      if underscore.Some? then
        MatchesImpliesLoose(list[underscore.value].alias, key, Underscore);
        underscore
      else
        var space := FirstMatch(list, key, Space);
        if space.Some? then
          MatchesImpliesLoose(list[space.value].alias, key, Space);
          space
        else ShortestContaining(list, key)
  }

  /** A tier finds some record. */
  predicate AnyMatches(list: seq<Oto>, key: string, t: Tier) {
    exists j :: 0 <= j < |list| && Matches(list[j].alias, key, t)
  }

  /**
   * The tier order of `SearchOto`, stated record by record: an exact match
   * wins whenever one exists; otherwise the first alias containing
   * `key + "_"`; otherwise the first containing `key + " "`; otherwise the
   * shortest (then earliest) alias containing `key`.
   */
  lemma SearchIndexTiers(list: seq<Oto>, key: string)
    ensures AnyMatches(list, key, Exact) ==>
      var r := SearchIndex(list, key);
      r.Some? && list[r.value].alias == key
      && forall j :: 0 <= j < r.value ==> list[j].alias != key
    ensures !AnyMatches(list, key, Exact) && AnyMatches(list, key, Underscore) ==>
      var r := SearchIndex(list, key);
      r.Some? && Contains(list[r.value].alias, key + "_")
      && forall j :: 0 <= j < r.value ==> !Contains(list[j].alias, key + "_")
    ensures !AnyMatches(list, key, Exact) && !AnyMatches(list, key, Underscore) && AnyMatches(list, key, Space) ==>
      var r := SearchIndex(list, key);
      r.Some? && Contains(list[r.value].alias, key + " ")
      && forall j :: 0 <= j < r.value ==> !Contains(list[j].alias, key + " ")
    ensures !AnyMatches(list, key, Exact) && !AnyMatches(list, key, Underscore) && !AnyMatches(list, key, Space) ==>
      SearchIndex(list, key) == ShortestContaining(list, key)
  {
    if AnyMatches(list, key, Exact) {
      var j :| 0 <= j < |list| && Matches(list[j].alias, key, Exact);
      assert !(forall i :: 0 <= i < |list| ==> !Matches(list[i].alias, key, Exact));
    } else if AnyMatches(list, key, Underscore) {
      var j :| 0 <= j < |list| && Matches(list[j].alias, key, Underscore);
      assert !(forall i :: 0 <= i < |list| ==> !Matches(list[i].alias, key, Underscore));
    } else if AnyMatches(list, key, Space) {
      var j :| 0 <= j < |list| && Matches(list[j].alias, key, Space);
      assert !(forall i :: 0 <= i < |list| ==> !Matches(list[i].alias, key, Space));
    }
  }

  /** `UtaLibrary.SearchOto`: the record the tiered search finds, or none when no alias contains `key`. */
  function SearchOto(list: seq<Oto>, key: string): (r: Option<Oto>)
    ensures r.Some? ==> r.value in list
    ensures r.None? <==> forall o :: o in list ==> !Contains(o.alias, key)
  {
    match SearchIndex(list, key)
    case None => None
    case Some(i) => Some(list[i])
  }

  /** The empty key is contained in every alias, so it finds a record in any non-empty list. */
  lemma SearchEmptyKey(list: seq<Oto>)
    requires |list| > 0
    ensures SearchOto(list, "").Some?
  {
    ContainsEmpty(list[0].alias);
  }

  // ---------------------------------------------------------------------
  // Key normalisation
  // ---------------------------------------------------------------------

  /** The romanised vowels a preceding-vowel key starts with; `n` is the moraic nasal. */
  const Vowels: string := "aiueon"

  /** The katakana of a vowel letter. */
  function VowelKana(v: char): char {
    match v
    case 'a' => 'ア'
    case 'i' => 'イ'
    case 'u' => 'ウ'
    case 'e' => 'エ'
    case 'o' => 'オ'
    case _ => 'ン'
  }

  /** The small kana the first table rewrites. */
  const SmallKana: string := "ァィゥェォ"

  /** The full-size kana of a small one. */
  function BigKana(s: char): char {
    match s
    case 'ァ' => 'ア'
    case 'ィ' => 'イ'
    case 'ゥ' => 'ウ'
    case 'ェ' => 'エ'
    case _ => 'オ'
  }

  /** A key of the shape `"<vowel> <kana>"`. */
  predicate VowelKey(key: string) {
    |key| == 3 && key[0] in Vowels && key[1] == ' '
  }

  /** A key of the shape `"<x> <y>"`, the shape of every case of both tables. */
  predicate SpacedPair(key: string) {
    |key| == 3 && key[1] == ' '
  }

  /**
   * The cases of the first retry table. Every case of the source's switch
   * is a key `"<x> <y>"`, so the table is written over the pair of its
   * outer characters.
   */
  function FixCase(x: char, y: char): Option<string> {
    match (x, y)
    case ('a', 'ー') => Some("a ア")
    case ('i', 'ー') => Some("i イ")
    case ('u', 'ー') => Some("u ウ")
    case ('e', 'ー') => Some("e エ")
    case ('o', 'ー') => Some("o オ")
    case ('n', 'ー') => Some("u ン")
    case ('a', 'ッ') => Some("a R")
    case ('i', 'ッ') => Some("i R")
    case ('u', 'ッ') => Some("u R")
    case ('e', 'ッ') => Some("e R")
    case ('o', 'ッ') => Some("o R")
    case ('n', 'ッ') => Some("n R")
    case ('a', 'ァ') => Some("a ア")
    case ('i', 'ァ') => Some("i ア")
    case ('u', 'ァ') => Some("u ア")
    case ('e', 'ァ') => Some("e ア")
    case ('o', 'ァ') => Some("o ア")
    case ('n', 'ァ') => Some("n ア")
    case ('a', 'ィ') => Some("a イ")
    case ('i', 'ィ') => Some("i イ")
    case ('u', 'ィ') => Some("u イ")
    case ('e', 'ィ') => Some("e イ")
    case ('o', 'ィ') => Some("o イ")
    case ('n', 'ィ') => Some("n イ")
    case ('a', 'ゥ') => Some("a ウ")
    case ('i', 'ゥ') => Some("i ウ")
    case ('u', 'ゥ') => Some("u ウ")
    case ('e', 'ゥ') => Some("e ウ")
    case ('o', 'ゥ') => Some("o ウ")
    case ('n', 'ゥ') => Some("n ウ")
    case ('a', 'ェ') => Some("a エ")
    case ('i', 'ェ') => Some("i エ")
    case ('u', 'ェ') => Some("u エ")
    case ('e', 'ェ') => Some("e エ")
    case ('o', 'ェ') => Some("o エ")
    case ('n', 'ェ') => Some("n エ")
    case ('a', 'ォ') => Some("a オ")
    case ('i', 'ォ') => Some("i オ")
    case ('u', 'ォ') => Some("u オ")
    case ('e', 'ォ') => Some("e オ")
    case ('o', 'ォ') => Some("o オ")
    case ('n', 'ォ') => Some("n オ")
    case _ => None
  }

  /** The cases of the second retry table. */
  function FixCase2(x: char, y: char): Option<string> {
    match (x, y)
    case ('a', 'R') => Some("ア ・")
    case ('i', 'R') => Some("イ ・")
    case ('u', 'R') => Some("ウ ・")
    case ('e', 'R') => Some("エ ・")
    case ('o', 'R') => Some("オ ・")
    case ('n', 'R') => Some("ン ・")
    case _ => None
  }

  /** `UtaLibrary.FixKey`: rewrites a key the first table lists and returns every other key unchanged. */
  function FixKey(key: string): string {
    if SpacedPair(key) then FixCase(key[0], key[2]).GetOr(key) else key
  }

  /** `UtaLibrary.FixKey2`: the same with the second table. */
  function FixKey2(key: string): string {
    if SpacedPair(key) then FixCase2(key[0], key[2]).GetOr(key) else key
  }

  /**
   * `FixKey` against the rules its table spells out: a geminate `ッ`
   * after a vowel becomes the breath key `"<v> R"`; a small kana becomes
   * its full-size kana; an elongation `ー` becomes the vowel's own kana,
   * except after `n`, which has no `"n ン"` unit and becomes `"u ン"`;
   * and a key of any other shape is left unchanged.
   */
  lemma FixKeyRules(key: string)
    ensures VowelKey(key) && key[2] == 'ッ' ==> FixKey(key) == [key[0]] + " R"
    ensures VowelKey(key) && key[2] in SmallKana ==> FixKey(key) == [key[0], ' ', BigKana(key[2])]
    ensures VowelKey(key) && key[2] == 'ー' && key[0] != 'n' ==> FixKey(key) == [key[0], ' ', VowelKana(key[0])]
    ensures key == "n ー" ==> FixKey(key) == "u ン"
    ensures !(VowelKey(key) && (key[2] == 'ッ' || key[2] == 'ー' || key[2] in SmallKana)) ==> FixKey(key) == key
  {
  }

  /** `FixKey2` rewrites exactly the breath keys `"<v> R"`, to the vowel's kana followed by `" ・"`. */
  lemma FixKey2Rules(key: string)
    ensures VowelKey(key) && key[2] == 'R' ==> FixKey2(key) == [VowelKana(key[0]), ' ', '・']
    ensures !(VowelKey(key) && key[2] == 'R') ==> FixKey2(key) == key
  {
  }

  /**
   * The lookup of `GetValue`: the key as given; then the `FixKey` form;
   * then, only when that failed too and the fixed key contains `" R"`,
   * its `FixKey2` form.
   */
  function Resolve(list: seq<Oto>, key: string): Option<Oto> {
    var first := SearchOto(list, key);
    if first.Some? then first
    else
      var fixedKey := FixKey(key);
      var second := SearchOto(list, fixedKey);
      if second.None? && Contains(fixedKey, " R") then SearchOto(list, FixKey2(fixedKey))
      else second
  }

  /**
   * The retry chain finds a record of the list exactly when some alias
   * contains the key, or its `FixKey` form, or (when that form contains
   * `" R"`) its `FixKey2` form; a key found as given is never rewritten.
   */
  lemma ResolveSpec(list: seq<Oto>, key: string)
    ensures Resolve(list, key).Some? ==> Resolve(list, key).value in list
    ensures Resolve(list, key).Some? <==>
      (exists o :: o in list && Contains(o.alias, key))
      || (exists o :: o in list && Contains(o.alias, FixKey(key)))
      || (Contains(FixKey(key), " R") && exists o :: o in list && Contains(o.alias, FixKey2(FixKey(key))))
    ensures (exists o :: o in list && Contains(o.alias, key)) ==> Resolve(list, key) == SearchOto(list, key)
  {
  }

  /**
   * A geminate after `a` is found through both retries: with only the
   * unit `"ア ・"` in the list, `"a ッ"` becomes `"a R"`, then `"ア ・"`.
   */
  lemma GeminateFallsBackToBreathUnit(o: Oto)
    requires o.alias == "ア ・"
    ensures Resolve([o], "a ッ") == Some(o)
  {
    assert FixKey("a ッ") == "a R";
    assert FixKey2("a R") == "ア ・";
    assert OccursAt("a R", " R", 1) by { assert "a R"[1..3] == " R"; }
    forall k | 0 <= k <= |o.alias|
      ensures !OccursAt(o.alias, "a ッ", k) && !OccursAt(o.alias, "a R", k)
    {
      if k == 0 { assert o.alias[0] != 'a'; assert o.alias[..3][0] != 'a'; }
    }
    ContainsSelf(o.alias);
  }

  // ---------------------------------------------------------------------
  // Values and commands
  // ---------------------------------------------------------------------

  /** A value `GetValue` hands back: a sample array or an integer. */
  datatype Value = Wave(samples: seq<real>) | Int(n: int)

  /** The type argument of the typed queries: `double[]`, `int`, or any other type. */
  datatype Kind = WaveArray | Int32 | OtherKind

  /** The commands `GetValue` answers, compared after lower-casing. */
  const Commands: set<string> := {"wave", "timing", "start", "fixed", "fs"}

  /** The integer commands the typed query accepts. */
  const IntCommands: set<string> := {"timing", "start", "fixed", "fs"}

  /** The breath volume: the `breath` double setting, or 0 when the settings, their doubles or the entry are absent. */
  function BreathVolume(doubles: Option<map<string, real>>): real {
    if doubles.Some? && "breath" in doubles.value then doubles.value["breath"] else 0.0
  }

  /** What `GetValue` answers for a record it found. */
  function Dispatch(o: Oto, fs: int, files: map<string, Recording>, breath: real, command: string): Option<Value> {
    var c := ToLower(command);
    if c == "wave" then Some(Wave(ExtractedWave(o, files, breath)))
    else if c == "timing" then Some(Int(PrecedingSample(o)))
    else if c == "start" then Some(Int(OverlapSample(o)))
    else if c == "fixed" then Some(Int(FixedSample(o)))
    else if c == "fs" then Some(Int(fs))
    else None
  }

  /**
   * The answer of `GetValue`: nothing when no record is found or the
   * command is unknown; a wave command answers samples and the other
   * commands answer integers.
   */
  function ValueOf(list: seq<Oto>, fs: int, doubles: Option<map<string, real>>, files: map<string, Recording>,
                   command: string, key: string): (r: Option<Value>)
    ensures r.Some? <==> ToLower(command) in Commands && Resolve(list, key).Some?
    ensures r.Some? ==> (r.value.Wave? <==> ToLower(command) == "wave")
    ensures r.Some? && ToLower(command) == "fs" ==> r.value == Int(fs)
  {
    match Resolve(list, key)
    case None => None
    case Some(o) => Dispatch(o, fs, files, BreathVolume(doubles), command)
  }

  /**
   * Command dispatch once the retry chain found record `o`: `timing`,
   * `start` and `fixed` give its preceding, overlap and fixed anchors in
   * samples, and `wave` its extracted window with the breath setting.
   */
  lemma ValueOfFound(list: seq<Oto>, fs: int, doubles: Option<map<string, real>>, files: map<string, Recording>,
                     command: string, key: string, o: Oto)
    requires Resolve(list, key) == Some(o)
    ensures ToLower(command) == "timing" ==> ValueOf(list, fs, doubles, files, command, key) == Some(Int(PrecedingSample(o)))
    ensures ToLower(command) == "start" ==> ValueOf(list, fs, doubles, files, command, key) == Some(Int(OverlapSample(o)))
    ensures ToLower(command) == "fixed" ==> ValueOf(list, fs, doubles, files, command, key) == Some(Int(FixedSample(o)))
    ensures ToLower(command) == "wave" ==>
      ValueOf(list, fs, doubles, files, command, key) == Some(Wave(ExtractedWave(o, files, BreathVolume(doubles))))
  {
  }

  /** The wave command is safe: the breath scaling of the record found never starts below index zero. */
  predicate WaveSafe(list: seq<Oto>, files: map<string, Recording>, command: string, key: string) {
    ToLower(command) == "wave" && Resolve(list, key).Some? ==>
      var o := Resolve(list, key).value;
      o.wavPath in files && IsBreath(o.alias) ==> PrecedingSample(o) >= 0
  }

  /** The default value of a query type: 0 for `int`, null otherwise. */
  function DefaultOf(kind: Kind): Option<Value> {
    if kind == Int32 then Some(Int(0)) else None
  }

  /** What `TryGetValue` returns: whether it succeeded, and the value handed out. */
  function TryValue(list: seq<Oto>, fs: int, doubles: Option<map<string, real>>, files: map<string, Recording>,
                    command: string, key: string, kind: Kind): (r: (bool, Option<Value>))
    ensures r.0 ==> r.1.Some?
  {
    var result := ValueOf(list, fs, doubles, files, command, key);
    var c := ToLower(command);
    if c == "wave" && kind == WaveArray then (result.Some?, result)
    else if kind == Int32 && result.Some? && c in IntCommands then (true, result)
    else (false, DefaultOf(kind))
  }

  /**
   * The typed query succeeds exactly when the command answers the
   * requested type and a record is found, and then the cast it performs
   * is sound: an array for `double[]`, an integer for `int`.
   */
  lemma TryValueSound(list: seq<Oto>, fs: int, doubles: Option<map<string, real>>, files: map<string, Recording>,
                      command: string, key: string, kind: Kind)
    ensures var (ok, value) := TryValue(list, fs, doubles, files, command, key, kind);
      && (ok <==> Resolve(list, key).Some? &&
                  ((kind == WaveArray && ToLower(command) == "wave") || (kind == Int32 && ToLower(command) in IntCommands)))
      && (ok ==> value == ValueOf(list, fs, doubles, files, command, key) && value.Some?)
      && (ok && kind == WaveArray ==> value.value.Wave?)
      && (ok && kind == Int32 ==> value.value.Int?)
      && (!ok ==> value == DefaultOf(kind))
  {
    var c := ToLower(command);
    if kind == Int32 && c in IntCommands {
      assert c in Commands;
    }
  }

  // ---------------------------------------------------------------------
  // Key lists
  // ---------------------------------------------------------------------

  /**
   * The dictionary the `TryGetValues` loop builds over `keys`: each key
   * whose typed query succeeds, with the value it hands out.
   */
  function Collected(list: seq<Oto>, fs: int, doubles: Option<map<string, real>>, files: map<string, Recording>,
                     command: string, keys: seq<string>, kind: Kind): map<string, Value>
  {
    if |keys| == 0 then map[]
    else
      var m := Collected(list, fs, doubles, files, command, keys[..|keys| - 1], kind);
      var r := TryValue(list, fs, doubles, files, command, keys[|keys| - 1], kind);
      if r.0 then m[keys[|keys| - 1] := r.1.value] else m
  }

  /** The dictionary holds exactly the keys whose typed query succeeds, each with the value that query hands out. */
  lemma {:induction false} CollectedSpec(list: seq<Oto>, fs: int, doubles: Option<map<string, real>>,
                                         files: map<string, Recording>, command: string, keys: seq<string>, kind: Kind)
    ensures var m := Collected(list, fs, doubles, files, command, keys, kind);
      && (forall k :: k in m <==> k in keys && TryValue(list, fs, doubles, files, command, k, kind).0)
      && (forall k :: k in m ==> Some(m[k]) == TryValue(list, fs, doubles, files, command, k, kind).1)
  {
    if |keys| > 0 {
      var init := keys[..|keys| - 1];
      CollectedSpec(list, fs, doubles, files, command, init, kind);
      assert keys == init + [keys[|keys| - 1]];
    }
  }

  /** `Distinct()`: the first occurrence of every element, in order. */
  function Distinct<T(==,!new)>(s: seq<T>): (r: seq<T>)
    ensures forall x :: x in r <==> x in s
    ensures forall i, j :: 0 <= i < j < |r| ==> r[i] != r[j]
    ensures |r| <= |s|
  {
    if |s| == 0 then []
    else
      var d := Distinct(s[..|s| - 1]);
      assert s == s[..|s| - 1] + [s[|s| - 1]];
      if s[|s| - 1] in d then d else d + [s[|s| - 1]]
  }

  // ---------------------------------------------------------------------
  // Loading oto.ini
  // ---------------------------------------------------------------------

  /** The records of the lines that parse, in line order. */
  function ParseLines(lines: seq<string>, directory: string, host: Host): (r: seq<Oto>)
    ensures |r| <= |lines|
  {
    if |lines| == 0 then []
    else
      match CreateOto(lines[0], directory, host)
      case None => ParseLines(lines[1..], directory, host)
      case Some(o) => [o] + ParseLines(lines[1..], directory, host)
  }

  /** Parsing is line by line: the records of two blocks of lines are the records of each. */
  lemma {:induction false} ParseLinesAppend(a: seq<string>, b: seq<string>, directory: string, host: Host)
    ensures ParseLines(a + b, directory, host) == ParseLines(a, directory, host) + ParseLines(b, directory, host)
  {
    if |a| > 0 {
      assert (a + b)[1..] == a[1..] + b;
      ParseLinesAppend(a[1..], b, directory, host);
    } else {
      assert a + b == b;
    }
  }

  /** Every loaded record is the parse of some line, so its recording exists and its alias is not blank. */
  lemma {:induction false} ParseLinesSound(lines: seq<string>, directory: string, host: Host)
    ensures forall o :: o in ParseLines(lines, directory, host) ==>
      exists k :: 0 <= k < |lines| && CreateOto(lines[k], directory, host) == Some(o)
    ensures forall o :: o in ParseLines(lines, directory, host) ==> o.wavPath in host.files && !IsBlank(o.alias)
  {
    if |lines| > 0 {
      ParseLinesSound(lines[1..], directory, host);
      forall o | o in ParseLines(lines, directory, host)
        ensures exists k :: 0 <= k < |lines| && CreateOto(lines[k], directory, host) == Some(o)
      {
        if CreateOto(lines[0], directory, host) != Some(o) {
          var k :| 0 <= k < |lines[1..]| && CreateOto(lines[1..][k], directory, host) == Some(o);
          assert CreateOto(lines[k + 1], directory, host) == Some(o);
        }
      }
      forall o | o in ParseLines(lines, directory, host)
        ensures o.wavPath in host.files && !IsBlank(o.alias)
      {
        var k :| 0 <= k < |lines| && CreateOto(lines[k], directory, host) == Some(o);
        var texts := Split(lines[k], ',');
        var pair := Split(texts[0], '=');
        assert o.alias == host.toKatakana(pair[1]);
      }
    }
  }

  /** The state of the unit database that the queries read. */
  class UtaLibrary {
    var voiceDirectory: string
    var otoList: seq<Oto>
    var fs: int
    var stateText: string
    /** The double settings, `Settings?.Doubles`; absent when either is null. */
    var doubles: Option<map<string, real>>

    /** A library whose voice directory is known and which has no records yet. */
    constructor (voiceDirectory: string, doubles: Option<map<string, real>>)
      ensures this.voiceDirectory == voiceDirectory && this.doubles == doubles
      ensures otoList == [] && fs == 44100 && stateText == ""
    {
      this.voiceDirectory := voiceDirectory;
      this.doubles := doubles;
      otoList := [];
      fs := 44100;
      stateText := "";
    }

    /**
     * `LoadOtoIni`: `lines` is the file's content, absent when the path is
     * blank or the file does not exist, in which case nothing changes.
     * Otherwise the list is cleared and refilled with the records of the
     * lines that parse, and the sample rate becomes the first record's.
     */
    method LoadOtoIni(lines: Option<seq<string>>, host: Host)
      modifies this`otoList, this`fs
      ensures lines.None? ==> otoList == old(otoList) && fs == old(fs)
      ensures lines.Some? ==> otoList == ParseLines(lines.value, voiceDirectory, host)
      ensures lines.Some? ==> fs == if |otoList| > 0 then otoList[0].fs else old(fs)
    {
      if lines.None? {
        return;
      }
      var all := lines.value;
      otoList := [];
      var i := 0;
      while i < |all|
        invariant 0 <= i <= |all|
        invariant otoList == ParseLines(all[..i], voiceDirectory, host)
        invariant fs == old(fs)
      {
        ParseLinesAppend(all[..i], [all[i]], voiceDirectory, host);
        assert all[..i + 1] == all[..i] + [all[i]];
        var oto := CreateOto(all[i], voiceDirectory, host);
        if oto.Some? {
          otoList := otoList + [oto.value];
        }
        i := i + 1;
      }
      assert all[..i] == all;
      if |otoList| > 0 {
        fs := otoList[0].fs;
      }
    }

    /** The state text a call of `GetValue` leaves. */
    function CallText(command: string, key: string): string {
      "呼び出されました。command = " + command + ", key = " + key
    }

    /** The state text after calls for each of `keys` in turn, starting from `before`. */
    function LastCallText(before: string, command: string, keys: seq<string>): string {
      if |keys| == 0 then before else CallText(command, keys[|keys| - 1])
    }

    /**
     * `GetValue`: records the call in the state text, resolves the key
     * through the retry chain and answers the command.
     */
    method GetValue(command: string, key: string, files: map<string, Recording>) returns (result: Option<Value>)
      requires WaveSafe(otoList, files, command, key)
      modifies this`stateText
      ensures stateText == CallText(command, key)
      ensures result == ValueOf(otoList, fs, doubles, files, command, key)
    {
      stateText := CallText(command, key);
      var oto := Resolve(otoList, key);
      if oto.None? {
        return None;
      }
      var breathVolume := BreathVolume(doubles);
      var c := ToLower(command);
      if c == "wave" {
        var wave := GetWave(oto.value, files, breathVolume);
        result := Some(Wave(wave));
      } else if c == "timing" {
        result := Some(Int(PrecedingSample(oto.value)));
      } else if c == "start" {
        result := Some(Int(OverlapSample(oto.value)));
      } else if c == "fixed" {
        result := Some(Int(FixedSample(oto.value)));
      } else if c == "fs" {
        result := Some(Int(fs));
      } else {
        result := None;
      }
    }

    /**
     * `TryGetValue<T>`: asks `GetValue`, and hands the answer out only when
     * it has the requested type; an integer answer is asked for a second time.
     */
    method TryGetValue(command: string, key: string, kind: Kind, files: map<string, Recording>)
      returns (ok: bool, value: Option<Value>)
      requires WaveSafe(otoList, files, command, key)
      modifies this`stateText
      ensures stateText == CallText(command, key)
      ensures (ok, value) == TryValue(otoList, fs, doubles, files, command, key, kind)
    {
      var result := GetValue(command, key, files);
      var c := ToLower(command);
      if c == "wave" && kind == WaveArray {
        value := result;
        ok := value.Some?;
        return;
      }
      if kind == Int32 && result.Some? {
        if c in IntCommands {
          value := GetValue(command, key, files);
          ok := true;
          return;
        }
      }
      value := DefaultOf(kind);
      ok := false;
    }

    /** `GetValues`: the answer for every distinct key. */
    method GetValues(command: string, keys: seq<string>, files: map<string, Recording>)
      returns (dict: map<string, Option<Value>>)
      requires forall k :: k in keys ==> WaveSafe(otoList, files, command, k)
      modifies this`stateText
      ensures dict.Keys == set k | k in keys
      ensures forall k :: k in dict ==> dict[k] == ValueOf(otoList, fs, doubles, files, command, k)
      ensures stateText == LastCallText(old(stateText), command, Distinct(keys))
    {
      dict := map[];
      var distinct := Distinct(keys);
      var i := 0;
      while i < |distinct|
        invariant 0 <= i <= |distinct|
        invariant stateText == LastCallText(old(stateText), command, distinct[..i])
        invariant dict.Keys == set j | 0 <= j < i :: distinct[j]
        invariant forall k :: k in dict ==> dict[k] == ValueOf(otoList, fs, doubles, files, command, k)
      {
        var value := GetValue(command, distinct[i], files);
        dict := dict[distinct[i] := value];
        i := i + 1;
      }
      assert forall k :: k in keys ==> k in distinct;
    }

    /** Whether the typed query of `key` succeeds on the current state. */
    predicate Succeeds(command: string, key: string, kind: Kind, files: map<string, Recording>)
      reads this`otoList, this`fs, this`doubles
    {
      TryValue(otoList, fs, doubles, files, command, key, kind).0
    }

    /** One round of the `TryGetValues` loop: adds `key` with its value when its typed query succeeds. */
    method CollectOne(command: string, key: string, kind: Kind, files: map<string, Recording>,
                      values: map<string, Value>) returns (values': map<string, Value>)
      requires WaveSafe(otoList, files, command, key)
      modifies this`stateText
      ensures var r := TryValue(otoList, fs, doubles, files, command, key, kind);
        values' == if r.0 then values[key := r.1.value] else values
      ensures stateText == CallText(command, key)
    {
      var found, value := TryGetValue(command, key, kind, files);
      values' := values;
      if found {
        TryValueSound(otoList, fs, doubles, files, command, key, kind);
        values' := values[key := value.value];
      }
    }

    /** The loop of `TryGetValues`: the keys of `keys` whose typed query succeeds, with their values. */
    method CollectTyped(command: string, keys: seq<string>, kind: Kind, files: map<string, Recording>)
      returns (values: map<string, Value>)
      requires forall k :: k in keys ==> WaveSafe(otoList, files, command, k)
      modifies this`stateText
      ensures values == Collected(otoList, fs, doubles, files, command, keys, kind)
      ensures stateText == LastCallText(old(stateText), command, keys)
    {
      ghost var list, rate, settings := otoList, fs, doubles;
      values := map[];
      var i := 0;
      while i < |keys|
        invariant 0 <= i <= |keys|
        invariant stateText == LastCallText(old(stateText), command, keys[..i])
        invariant otoList == list && fs == rate && doubles == settings
        invariant values == Collected(list, rate, settings, files, command, keys[..i], kind)
      {
        assert keys[..i + 1][..i] == keys[..i];
        values := CollectOne(command, keys[i], kind, files, values);
        i := i + 1;
      }
      assert keys[..i] == keys;
    }

    /** `TryGetValues<T>`: the distinct keys whose typed query succeeds, with their values; true iff there is one. */
    method TryGetValues(command: string, keys: seq<string>, kind: Kind, files: map<string, Recording>)
      returns (ok: bool, values: map<string, Value>)
      requires forall k :: k in keys ==> WaveSafe(otoList, files, command, k)
      modifies this`stateText
      ensures forall k :: k in values <==> k in keys && Succeeds(command, k, kind, files)
      ensures forall k :: k in values ==> Some(values[k]) == TryValue(otoList, fs, doubles, files, command, k, kind).1
      ensures ok <==> exists k :: k in keys && Succeeds(command, k, kind, files)
      ensures stateText == LastCallText(old(stateText), command, Distinct(keys))
    {
      var distinct := Distinct(keys);
      values := CollectTyped(command, distinct, kind, files);
      CollectedSpec(otoList, fs, doubles, files, command, distinct, kind);
      ok := |values| > 0;
      assert forall k :: k in values <==> k in keys && Succeeds(command, k, kind, files);
      if exists k :: k in keys && Succeeds(command, k, kind, files) {
        var k :| k in keys && Succeeds(command, k, kind, files);
        assert k in values;
      }
    }
  }
}
