/** `$gameMap.layerSettings` as the object that owns it, with the `LAYER` and
    `LAYER_S` commands, `layerConfig` and the map-note bootstrap that
    `Game_Map.setup` runs. */
module LayerRegistry {
  import opened Wrappers
  import opened JsNumber
  import opened JsString
  import opened LayerCommands

  // ---------------------------------------------------------------------------
  // Map-note bootstrap, as functions
  // ---------------------------------------------------------------------------

  /** The command a note line stands for: the map id is put in front of what
      is left after removing the first occurrence of the verb, and the result
      is split at spaces. */
  function NoteConfig(mapId: int, line: string, verb: string): (config: seq<string>)
    ensures |config| >= 1 && |config[0]| >= 1
    ensures IsDigit(config[0][0]) || config[0][0] == '-'
  {
    var t := IntToString(mapId) + RemoveFirst(line, verb);
    assert t[0] == IntToString(mapId)[0] && t[0] != ' ';
    Split(t, {' '})
  }

  /** Which record the bootstrap looks at before applying a note line.
      `ByNumber` is the test as written: `Number(config[1])` in the table of
      the map being set up. `ByResolvedKey` looks where the command will write:
      `num(config[0])`, `num(config[1])`. */
  datatype NoteCheck = ByNumber | ByResolvedKey

  /** Whether the note line's layer is missing; `None` when the test itself
      throws (the map has no table). Records are objects, so any record,
      `{}` included, counts as existing. */
  function LayerMissing(s: Settings, mapId: int, config: seq<string>, vars: VarStore, check: NoteCheck): (r: Option<bool>)
    ensures r.None? <==> check == ByNumber && Val(mapId as real) !in s
  {
    match check
    case ByNumber =>
      var m := Val(mapId as real);
      if m !in s then None
      else Some((if |config| > 1 then ToNumber(config[1]) else NaN) !in s[m])
    case ByResolvedKey =>
      Some(!(|config| >= 2 && Present(s, Resolve(config[0], vars), Resolve(config[1], vars))))
  }

  /** One verb of one note line: run the command only when its layer is missing.
      The result says whether the bootstrap goes on (false: something threw). */
  function NoteCommand(s: Settings, mapId: int, config: seq<string>, vars: VarStore,
                       check: NoteCheck, isStatic: bool): (r: (bool, Settings))
    ensures LayerMissing(s, mapId, config, vars, check) == Some(false) ==> r == (true, s)
    ensures LayerMissing(s, mapId, config, vars, check).None? ==> r == (false, s)
    ensures LayerMissing(s, mapId, config, vars, check) == Some(true) ==>
      var c := if isStatic then UpsertStatic(s, config, vars) else LayerCommand(s, config, vars);
      r == (c.0 != Crashed, c.1)
  {
    var missing := LayerMissing(s, mapId, config, vars, check);
    if missing.None? then (false, s)
    else if !missing.value then (true, s)
    else
      var r := if isStatic then UpsertStatic(s, config, vars) else LayerCommand(s, config, vars);
      (r.0 != Crashed, r.1)
  }

  /** A line that holds neither `LAYER ` nor `LAYER_S `. */
  predicate Ignored(line: string) {
    !Contains(line, "LAYER ") && !Contains(line, "LAYER_S ")
  }

  /** One note line: a line containing `LAYER ` and then one containing
      `LAYER_S ` is applied, both tests being made on every line. Any other
      line of the note is no command at all. */
  function NoteLine(s: Settings, mapId: int, line: string, vars: VarStore, check: NoteCheck): (r: (bool, Settings))
    ensures Ignored(line) ==> r == (true, s)
  {
    var r := if Contains(line, "LAYER ")
             then NoteCommand(s, mapId, NoteConfig(mapId, line, "LAYER"), vars, check, false)
             else (true, s);
    if !r.0 then r
    else if Contains(line, "LAYER_S ")
    then NoteCommand(r.1, mapId, NoteConfig(mapId, line, "LAYER_S"), vars, check, true)
    else r
  }

  /** Every record of `a` is still in `b`, unchanged. */
  ghost predicate Keeps(a: Settings, b: Settings) {
    forall m, k :: m in a && k in a[m] ==> m in b && k in b[m] && b[m][k] == a[m][k]
  }

  /** `createNoteLayers`, line by line until one throws. */
  function NoteLines(s: Settings, mapId: int, lines: seq<string>, vars: VarStore, check: NoteCheck): (r: (bool, Settings))
    ensures (forall i :: 0 <= i < |lines| ==> Ignored(lines[i])) ==> r == (true, s)
    decreases |lines|
  {
    if lines == [] then (true, s)
    else
      var r := NoteLine(s, mapId, lines[0], vars, check);
      if !r.0 then r
      else
        assert forall i :: 0 <= i < |lines[1..]| ==> lines[1..][i] == lines[i + 1];
        NoteLines(r.1, mapId, lines[1..], vars, check)
  }

  /** No map table ever disappears during the bootstrap. With the corrected
      test no record that existed before is touched; with the test as
      written that holds too when no line gives a variable token as its
      layer id. */
  lemma {:induction false} NoteLinesKeep(s: Settings, mapId: int, lines: seq<string>, vars: VarStore, check: NoteCheck)
    ensures s.Keys <= NoteLines(s, mapId, lines, vars, check).1.Keys
    ensures check == ByResolvedKey ==> Keeps(s, NoteLines(s, mapId, lines, vars, check).1)
    ensures check == ByNumber && Val(mapId as real) in s && PlainNote(mapId, lines) ==>
      Keeps(s, NoteLines(s, mapId, lines, vars, check).1)
    decreases |lines|
  {
    if lines != [] {
      var r := NoteLine(s, mapId, lines[0], vars, check);
      NoteLineKeys(s, mapId, lines[0], vars, check);
      if check == ByNumber && Val(mapId as real) in s && PlainNote(mapId, lines) {
        NoteLineChecksAgree(s, mapId, lines[0], vars);
        NoteLineKeys(s, mapId, lines[0], vars, ByResolvedKey);
      }
      assert PlainNote(mapId, lines) ==> PlainNote(mapId, lines[1..]) by {
        assert forall i :: 0 <= i < |lines[1..]| ==> lines[1..][i] == lines[i + 1];
      }
      if r.0 {
        NoteLinesKeep(r.1, mapId, lines[1..], vars, check);
      }
    }
  }

  /** The bootstrap from line `i` on is line `i`, then the lines after it. */
  lemma NoteLinesStep(s: Settings, mapId: int, lines: seq<string>, i: nat, vars: VarStore, check: NoteCheck)
    requires i < |lines|
    ensures var r := NoteLine(s, mapId, lines[i], vars, check);
      NoteLines(s, mapId, lines[i..], vars, check)
      == if !r.0 then r else NoteLines(r.1, mapId, lines[i + 1..], vars, check)
  {
    assert lines[i..][0] == lines[i] && lines[i..][1..] == lines[i + 1..];
  }

  /** A command of the note whose layer id both tests read alike: it starts
      with the map id, then a layer id that is not a variable token. */
  predicate PlainCommand(mapId: int, config: seq<string>) {
    |config| >= 2 && config[0] == IntToString(mapId) && !(|config[1]| > 0 && config[1][0] == 'v')
  }

  /** Every command a note line carries is plain. */
  predicate PlainNoteLine(mapId: int, line: string) {
    && (Contains(line, "LAYER ") ==> PlainCommand(mapId, NoteConfig(mapId, line, "LAYER")))
    && (Contains(line, "LAYER_S ") ==> PlainCommand(mapId, NoteConfig(mapId, line, "LAYER_S")))
  }

  predicate PlainNote(mapId: int, lines: seq<string>) {
    forall i :: 0 <= i < |lines| ==> PlainNoteLine(mapId, lines[i])
  }

  /** For a plain command, once the map has a table, the test as written
      (`Number(config[1])` in the table of `mapId`) and the test at the key
      the command writes give the same answer. */
  lemma NoteChecksAgree(s: Settings, mapId: int, config: seq<string>, vars: VarStore)
    requires Val(mapId as real) in s && PlainCommand(mapId, config)
    ensures LayerMissing(s, mapId, config, vars, ByNumber) == LayerMissing(s, mapId, config, vars, ByResolvedKey)
  {
    ResolveLiteralToken(mapId, vars);
  }

  /** A plain command has the same effect under both tests, and the map
      keeps its table. */
  lemma NoteCommandChecksAgree(s: Settings, mapId: int, config: seq<string>, vars: VarStore, isStatic: bool)
    requires Val(mapId as real) in s && PlainCommand(mapId, config)
    ensures NoteCommand(s, mapId, config, vars, ByNumber, isStatic)
         == NoteCommand(s, mapId, config, vars, ByResolvedKey, isStatic)
    ensures Val(mapId as real) in NoteCommand(s, mapId, config, vars, ByResolvedKey, isStatic).1
  {
    NoteChecksAgree(s, mapId, config, vars);
    NoteCommandKeys(s, mapId, config, vars, ByResolvedKey, isStatic);
  }

  /** A plain note line has the same effect under both tests. */
  lemma NoteLineChecksAgree(s: Settings, mapId: int, line: string, vars: VarStore)
    requires Val(mapId as real) in s && PlainNoteLine(mapId, line)
    ensures NoteLine(s, mapId, line, vars, ByNumber) == NoteLine(s, mapId, line, vars, ByResolvedKey)
  {
    var c1 := NoteConfig(mapId, line, "LAYER");
    var c2 := NoteConfig(mapId, line, "LAYER_S");
    var r := (true, s);
    if Contains(line, "LAYER ") {
      NoteCommandChecksAgree(s, mapId, c1, vars, false);
      r := NoteCommand(s, mapId, c1, vars, ByResolvedKey, false);
    }
    if r.0 && Contains(line, "LAYER_S ") {
      NoteCommandChecksAgree(r.1, mapId, c2, vars, true);
    }
  }

  /** A plain note has the same effect under both tests. */
  lemma {:induction false} NoteLinesChecksAgree(s: Settings, mapId: int, lines: seq<string>, vars: VarStore)
    requires Val(mapId as real) in s && PlainNote(mapId, lines)
    ensures NoteLines(s, mapId, lines, vars, ByNumber) == NoteLines(s, mapId, lines, vars, ByResolvedKey)
    decreases |lines|
  {
    if lines != [] {
      NoteLineChecksAgree(s, mapId, lines[0], vars);
      NoteLineKeys(s, mapId, lines[0], vars, ByResolvedKey);
      var r := NoteLine(s, mapId, lines[0], vars, ByResolvedKey);
      assert forall i :: 0 <= i < |lines[1..]| ==> lines[1..][i] == lines[i + 1];
      if r.0 {
        NoteLinesChecksAgree(r.1, mapId, lines[1..], vars);
      }
    }
  }

  /** `settings[m] = settings[m] || {}`: the table of map `m`, created empty
      when the map has none; every other table is untouched. */
  function EnsureTable(s: Settings, m: Num): (r: Settings)
    ensures m in r && r.Keys == s.Keys + {m}
    ensures r[m] == (if m in s then s[m] else map[])
    ensures forall k :: k in s ==> r[k] == s[k]
  {
    if m in s then s else s[m := map[]]
  }

  /** `Game_Map.setup`'s part: reserve the map's table, then run the note
      bootstrap on it. The loop that follows in the source assigns to the
      characters of key strings, so it resets nothing and is not here. */
  function SetupLayers(s: Settings, mapId: int, note: string, vars: VarStore, check: NoteCheck): (r: (bool, Settings))
    ensures (forall i :: 0 <= i < |Lines(note)| ==> Ignored(Lines(note)[i])) ==>
      r == (true, EnsureTable(s, Val(mapId as real)))
  {
    NoteLines(EnsureTable(s, Val(mapId as real)), mapId, Lines(note), vars, check)
  }

  /** After setup the map has a table, every table that existed still does,
      and every record that existed is unchanged, so accumulators survive
      re-entering a map and tombstones stay in place. That holds with the
      corrected test for every note, and with the test as written for every
      note whose lines give no variable token as a layer id. */
  lemma SetupKeeps(s: Settings, mapId: int, note: string, vars: VarStore, check: NoteCheck)
    ensures var r := SetupLayers(s, mapId, note, vars, check);
      && Val(mapId as real) in r.1
      && s.Keys <= r.1.Keys
      && (check == ByResolvedKey ==> Keeps(s, r.1))
      && (check == ByNumber && PlainNote(mapId, Lines(note)) ==> Keeps(s, r.1))
  {
    NoteLinesKeep(EnsureTable(s, Val(mapId as real)), mapId, Lines(note), vars, check);
  }

  lemma NoteLineKeys(s: Settings, mapId: int, line: string, vars: VarStore, check: NoteCheck)
    ensures s.Keys <= NoteLine(s, mapId, line, vars, check).1.Keys
    ensures check == ByResolvedKey ==> Keeps(s, NoteLine(s, mapId, line, vars, check).1)
  {
    var c1 := NoteConfig(mapId, line, "LAYER");
    var c2 := NoteConfig(mapId, line, "LAYER_S");
    NoteCommandKeys(s, mapId, c1, vars, check, false);
    var r := if Contains(line, "LAYER ") then NoteCommand(s, mapId, c1, vars, check, false) else (true, s);
    NoteCommandKeys(r.1, mapId, c2, vars, check, true);
  }

  lemma NoteCommandKeys(s: Settings, mapId: int, config: seq<string>, vars: VarStore, check: NoteCheck, isStatic: bool)
    requires |config| >= 1 && |config[0]| >= 1 && (IsDigit(config[0][0]) || config[0][0] == '-')
    ensures s.Keys <= NoteCommand(s, mapId, config, vars, check, isStatic).1.Keys
    ensures check == ByResolvedKey ==> Keeps(s, NoteCommand(s, mapId, config, vars, check, isStatic).1)
  {
    assert config[0] != "REMOVE" && config[0] != "REFRESH";
  }

  /** A note line `<verb> <tokens>` is the plugin command `<verb>` with the
      map id put in front of its tokens. */
  lemma NoteConfigOfCommandLine(mapId: int, verb: string, tokens: seq<string>)
    requires |tokens| >= 1
    requires forall i, j :: 0 <= i < |tokens| && 0 <= j < |tokens[i]| ==> tokens[i][j] != ' '
    ensures NoteConfig(mapId, verb + " " + Join(tokens, ' '), verb) == [IntToString(mapId)] + tokens
  {
    var rest := Join(tokens, ' ');
    var line := verb + " " + rest;
    assert line[0..|verb|] == verb;
    assert IndexOf(line, verb) == 0;
    assert RemoveFirst(line, verb) == [' '] + rest;
    SplitFree(IntToString(mapId), rest, ' ');
    SplitJoin(tokens, ' ');
  }

  /** A line made of a head without line breaks and tokens without line
      breaks is a note of one line, and it holds its head. */
  lemma CommandLineIsOneLine(head: string, tokens: seq<string>)
    requires |head| > 0 && |tokens| >= 1
    requires forall j :: 0 <= j < |head| ==> head[j] !in {'\r', '\n'}
    requires forall i, j :: 0 <= i < |tokens| && 0 <= j < |tokens[i]| ==> tokens[i][j] !in {' ', '\r', '\n'}
    ensures var note := head + Join(tokens, ' ');
      Lines(note) == [note] && Contains(note, head)
  {
    var note := head + Join(tokens, ' ');
    JoinAvoids(tokens, ' ', {'\r', '\n'});
    assert forall j :: 0 <= j < |note| ==> note[j] !in {'\r', '\n'};
    LinesOfOneLine(note);
    assert note[0..|head|] == head;
    assert OccursAt(note, head, 0);
  }

  /** A note holding the single line `LAYER <tokens>` is read as the one
      tiling command `[<map id>] + tokens`. */
  lemma LayerLineShape(mapId: int, tokens: seq<string>)
    requires |tokens| >= 1
    requires forall i, j :: 0 <= i < |tokens| && 0 <= j < |tokens[i]| ==> tokens[i][j] !in {' ', '\r', '\n'}
    ensures var note := "LAYER " + Join(tokens, ' ');
      && Lines(note) == [note]
      && Contains(note, "LAYER ")
      && NoteConfig(mapId, note, "LAYER") == [IntToString(mapId)] + tokens
  {
    CommandLineIsOneLine("LAYER ", tokens);
    assert "LAYER" + " " == "LAYER ";
    NoteConfigOfCommandLine(mapId, "LAYER", tokens);
  }

  /** Without `_` in any token, a `LAYER` line never holds `LAYER_S `. */
  lemma UnderscoreFreeLineNotStatic(tokens: seq<string>)
    requires |tokens| >= 1
    requires forall i, j :: 0 <= i < |tokens| && 0 <= j < |tokens[i]| ==> tokens[i][j] != '_'
    ensures !Contains("LAYER " + Join(tokens, ' '), "LAYER_S ")
  {
    var note := "LAYER " + Join(tokens, ' ');
    JoinAvoids(tokens, ' ', {'_'});
    assert forall j :: 0 <= j < |note| ==> note[j] != '_';
    MissingCharNotContained(note, "LAYER_S ", 5);
  }

  /** The same shape for a line without `_`, which never holds `LAYER_S `. */
  lemma LayerNoteShape(mapId: int, tokens: seq<string>)
    requires |tokens| >= 1
    requires forall i, j :: 0 <= i < |tokens| && 0 <= j < |tokens[i]| ==> tokens[i][j] !in {' ', '\r', '\n', '_'}
    ensures var note := "LAYER " + Join(tokens, ' ');
      && Lines(note) == [note]
      && Contains(note, "LAYER ")
      && !Contains(note, "LAYER_S ")
      && NoteConfig(mapId, note, "LAYER") == [IntToString(mapId)] + tokens
  {
    LayerLineShape(mapId, tokens);
    UnderscoreFreeLineNotStatic(tokens);
  }

  /** A note that is the single line `LAYER <tokens>`, whose layer id is
      not a variable token, is plain: as written, setup leaves a layer
      already at that id alone. */
  lemma LiteralLayerLineIsPlain(mapId: int, tokens: seq<string>)
    requires |tokens| >= 1 && !(|tokens[0]| > 0 && tokens[0][0] == 'v')
    requires forall i, j :: 0 <= i < |tokens| && 0 <= j < |tokens[i]| ==> tokens[i][j] !in {' ', '\r', '\n'}
    requires !Contains("LAYER " + Join(tokens, ' '), "LAYER_S ")
    ensures PlainNote(mapId, Lines("LAYER " + Join(tokens, ' ')))
  {
    LayerLineShape(mapId, tokens);
  }

  /** A note that is the single line `LAYER_S <tokens>` is read as the
      static command `[<map id>] + tokens`. */
  lemma StaticNoteShape(mapId: int, tokens: seq<string>)
    requires |tokens| >= 1
    requires forall i, j :: 0 <= i < |tokens| && 0 <= j < |tokens[i]| ==> tokens[i][j] !in {' ', '\r', '\n'}
    ensures var note := "LAYER_S " + Join(tokens, ' ');
      && Lines(note) == [note]
      && Contains(note, "LAYER_S ")
      && NoteConfig(mapId, note, "LAYER_S") == [IntToString(mapId)] + tokens
  {
    CommandLineIsOneLine("LAYER_S ", tokens);
    assert "LAYER_S" + " " == "LAYER_S ";
    NoteConfigOfCommandLine(mapId, "LAYER_S", tokens);
  }

  /** Setup on a note of one line is that line, on the map's table. */
  lemma SetupOfOneLine(s: Settings, mapId: int, note: string, vars: VarStore, check: NoteCheck)
    requires Lines(note) == [note]
    ensures SetupLayers(s, mapId, note, vars, check) == NoteLine(EnsureTable(s, Val(mapId as real)), mapId, note, vars, check)
  {
    var s0 := EnsureTable(s, Val(mapId as real));
    var r := NoteLine(s0, mapId, note, vars, check);
    assert NoteLines(s0, mapId, [note], vars, check) == if !r.0 then r else NoteLines(r.1, mapId, [], vars, check);
  }

  /** A command `[<map id>, <k>, ...]` of a note whose layer `k` is missing
      from the map's table is run, under either existence test. */
  lemma MissingLayerRuns(s0: Settings, mapId: int, k: int, config: seq<string>, vars: VarStore,
                         check: NoteCheck, isStatic: bool)
    requires |config| >= 2 && config[0] == IntToString(mapId) && config[1] == IntToString(k)
    requires Val(mapId as real) in s0 && !Present(s0, Val(mapId as real), Val(k as real))
    ensures var c := if isStatic then UpsertStatic(s0, config, vars) else LayerCommand(s0, config, vars);
      NoteCommand(s0, mapId, config, vars, check, isStatic) == (c.0 != Crashed, c.1)
  {
    ResolveLiteralToken(mapId, vars);
    ResolveLiteralToken(k, vars);
    ToNumberOfIntToString(k);
    assert LayerMissing(s0, mapId, config, vars, check) == Some(true);
  }

  /** A one-line note carrying one command, whose layer `k` is missing,
      runs that command on the map's table. */
  lemma SetupOfMissingLine(s: Settings, mapId: int, k: int, note: string, config: seq<string>,
                           vars: VarStore, check: NoteCheck, isStatic: bool)
    requires Lines(note) == [note]
    requires Contains(note, "LAYER ") <==> !isStatic
    requires Contains(note, "LAYER_S ") <==> isStatic
    requires NoteConfig(mapId, note, if isStatic then "LAYER_S" else "LAYER") == config
    requires |config| >= 2 && config[0] == IntToString(mapId) && config[1] == IntToString(k)
    requires !Present(s, Val(mapId as real), Val(k as real))
    ensures var s0 := EnsureTable(s, Val(mapId as real));
      var c := if isStatic then UpsertStatic(s0, config, vars) else UpsertTiling(s0, config, vars);
      SetupLayers(s, mapId, note, vars, check) == (c.0 != Crashed, c.1)
  {
    var s0 := EnsureTable(s, Val(mapId as real));
    SetupOfOneLine(s, mapId, note, vars, check);
    MissingLayerRuns(s0, mapId, k, config, vars, check, isStatic);
    NumericCommandUpserts(s0, config, vars);
  }

  /** A `LAYER` command whose first token is a number is the tiling upsert. */
  lemma NumericCommandUpserts(s: Settings, config: seq<string>, vars: VarStore)
    requires |config| >= 1 && |config[0]| >= 1 && (IsDigit(config[0][0]) || config[0][0] == '-')
    ensures LayerCommand(s, config, vars) == UpsertTiling(s, config, vars)
  {
    assert config[0] != "REMOVE" && config[0] != "REFRESH";
  }

  /** Writing one new key keeps every record that existed. */
  lemma NewKeyKeeps(s: Settings, s1: Settings, m: Num, id: Num)
    requires !Present(s, m, id) && OnlyKeyChanged(EnsureTable(s, m), s1, m, id)
    ensures Keeps(s, s1)
  {
  }

  /** `LAYER` on a key that is missing creates a tiling record with the
      command's settings and scroll offsets at 0, keeping every record. */
  lemma UpsertCreatesTiling(s: Settings, mapId: int, k: int, config: seq<string>, vars: VarStore)
    requires |config| >= 10 && config[0] == IntToString(mapId) && config[1] == IntToString(k)
    requires !Present(s, Val(mapId as real), Val(k as real))
    ensures var m, id := Val(mapId as real), Val(k as real);
      var r := UpsertTiling(EnsureTable(s, m), config, vars);
      && r.0 == Applied && Present(r.1, m, id)
      && r.1[m][id] == Tiling(config[2], Resolve(config[3], vars), Resolve(config[4], vars),
                              Resolve(config[5], vars), Resolve(config[6], vars),
                              Resolve(config[7], vars), Resolve(config[8], vars),
                              Resolve(config[9], vars), Val(0.0), Val(0.0))
      && Keeps(s, r.1)
  {
    var m, id := Val(mapId as real), Val(k as real);
    ResolveLiteralToken(mapId, vars);
    ResolveLiteralToken(k, vars);
    NewKeyKeeps(s, UpsertTiling(EnsureTable(s, m), config, vars).1, m, id);
  }

  /** `LAYER_S` on a key that is missing creates a static record with all
      of the command's settings, keeping every record. */
  lemma UpsertCreatesStatic(s: Settings, mapId: int, k: int, config: seq<string>, vars: VarStore)
    requires |config| >= 8 && config[0] == IntToString(mapId) && config[1] == IntToString(k)
    requires !Present(s, Val(mapId as real), Val(k as real))
    ensures var m, id := Val(mapId as real), Val(k as real);
      var r := UpsertStatic(EnsureTable(s, m), config, vars);
      && r.0 == Applied && Present(r.1, m, id)
      && r.1[m][id] == Static(config[2], Resolve(config[3], vars), Resolve(config[4], vars),
                              Resolve(config[5], vars), Resolve(config[6], vars),
                              Resolve(config[7], vars),
                              OptionalField(config, 8, vars), OptionalField(config, 9, vars),
                              OptionalField(config, 10, vars), OptionalField(config, 11, vars))
      && Keeps(s, r.1)
  {
    var m, id := Val(mapId as real), Val(k as real);
    ResolveLiteralToken(mapId, vars);
    ResolveLiteralToken(k, vars);
    NewKeyKeeps(s, UpsertStatic(EnsureTable(s, m), config, vars).1, m, id);
  }

  /** The other direction of the bootstrap: a note line `LAYER <k> <graphic>
      ...` whose layer `k` is missing creates it, under either existence
      test, as a tiling record with every setting of the line and its
      scroll offsets at 0; every record that existed is kept. */
  lemma SetupCreatesMissingLayer(s: Settings, mapId: int, k: int, tokens: seq<string>, vars: VarStore, check: NoteCheck)
    requires |tokens| >= 9 && tokens[0] == IntToString(k)
    requires forall i, j :: 0 <= i < |tokens| && 0 <= j < |tokens[i]| ==> tokens[i][j] !in {' ', '\r', '\n'}
    requires !Contains("LAYER " + Join(tokens, ' '), "LAYER_S ")
    requires !Present(s, Val(mapId as real), Val(k as real))
    ensures var m, id := Val(mapId as real), Val(k as real);
      var r := SetupLayers(s, mapId, "LAYER " + Join(tokens, ' '), vars, check);
      && r.0 && Present(r.1, m, id)
      && r.1[m][id] == Tiling(tokens[1], Resolve(tokens[2], vars), Resolve(tokens[3], vars),
                              Resolve(tokens[4], vars), Resolve(tokens[5], vars),
                              Resolve(tokens[6], vars), Resolve(tokens[7], vars),
                              Resolve(tokens[8], vars), Val(0.0), Val(0.0))
      && Keeps(s, r.1)
  {
    var config := [IntToString(mapId)] + tokens;
    LayerLineShape(mapId, tokens);
    SetupOfMissingLine(s, mapId, k, "LAYER " + Join(tokens, ' '), config, vars, check, false);
    UpsertCreatesTiling(s, mapId, k, config, vars);
  }

  /** The same for a static layer: a note line `LAYER_S <k> <graphic> ...`
      whose layer `k` is missing creates it as a static record with every
      setting of the line, the optional ones reading 0 when absent; every
      record that existed is kept. */
  lemma SetupCreatesMissingStaticLayer(s: Settings, mapId: int, k: int, tokens: seq<string>, vars: VarStore, check: NoteCheck)
    requires |tokens| >= 7 && tokens[0] == IntToString(k)
    requires forall i, j :: 0 <= i < |tokens| && 0 <= j < |tokens[i]| ==> tokens[i][j] !in {' ', '\r', '\n'}
    requires !Contains("LAYER_S " + Join(tokens, ' '), "LAYER ")
    requires !Present(s, Val(mapId as real), Val(k as real))
    ensures var m, id, config := Val(mapId as real), Val(k as real), [IntToString(mapId)] + tokens;
      var r := SetupLayers(s, mapId, "LAYER_S " + Join(tokens, ' '), vars, check);
      && r.0 && Present(r.1, m, id)
      && r.1[m][id] == Static(tokens[1], Resolve(tokens[2], vars), Resolve(tokens[3], vars),
                              Resolve(tokens[4], vars), Resolve(tokens[5], vars),
                              Resolve(tokens[6], vars),
                              OptionalField(config, 8, vars), OptionalField(config, 9, vars),
                              OptionalField(config, 10, vars), OptionalField(config, 11, vars))
      && Keeps(s, r.1)
  {
    var config := [IntToString(mapId)] + tokens;
    StaticNoteShape(mapId, tokens);
    SetupOfMissingLine(s, mapId, k, "LAYER_S " + Join(tokens, ' '), config, vars, check, true);
    UpsertCreatesStatic(s, mapId, k, config, vars);
  }

  /** `Number("v<k>")` is NaN. */
  lemma VariableTokenNotANumber(k: nat)
    ensures ToNumber("v" + NatToString(k)) == NaN
  {
    var t := "v" + NatToString(k);
    assert t[0] == 'v';
    assert LeadingDigits(t) == 0;
  }

  /** The as-written test misses an existing layer whose note line gives
      its id as a variable token `v<k>`: the test looks up `Number("v<k>")`,
      which is NaN, so every setup runs the line again and replaces the layer
      that variable `k` names (its graphic becomes the line's). With the
      corrected test that layer stays exactly as it was. */
  lemma NoteCheckByNumberMissesVariableIds(s: Settings, mapId: int, k: nat, tokens: seq<string>, vars: VarStore)
    requires |tokens| >= 9 && tokens[0] == "v" + NatToString(k)
    requires forall i, j :: 0 <= i < |tokens| && 0 <= j < |tokens[i]| ==> tokens[i][j] !in {' ', '\r', '\n', '_'}
    requires Present(s, Val(mapId as real), Val(if k in vars then vars[k] else 0.0))
    requires NaN !in s[Val(mapId as real)]
    ensures
      var m, id := Val(mapId as real), Val(if k in vars then vars[k] else 0.0);
      var r := SetupLayers(s, mapId, "LAYER " + Join(tokens, ' '), vars, ByNumber).1;
      Present(r, m, id) && r[m][id].Graphic() == Some(tokens[1])
    ensures
      var m, id := Val(mapId as real), Val(if k in vars then vars[k] else 0.0);
      var r := SetupLayers(s, mapId, "LAYER " + Join(tokens, ' '), vars, ByResolvedKey).1;
      Present(r, m, id) && r[m][id] == s[m][id]
  {
    var note := "LAYER " + Join(tokens, ' ');
    LayerNoteShape(mapId, tokens);
    VariableTokenNotANumber(k);
    ResolveLiteralToken(mapId, vars);
    ResolveVariableToken(k, vars);
    var config := [IntToString(mapId)] + tokens;
    assert config[1] == tokens[0];
    var up := UpsertTiling(s, config, vars);
    assert NoteCommand(s, mapId, config, vars, ByNumber, false) == (true, up.1);
    assert NoteLine(s, mapId, note, vars, ByNumber) == (true, up.1);
    assert NoteLines(s, mapId, [note], vars, ByNumber) == (true, up.1);
    SetupKeeps(s, mapId, note, vars, ByResolvedKey);
  }

  // ---------------------------------------------------------------------------
  // The owner of the registry
  // ---------------------------------------------------------------------------

  /** The layer part of `$gameMap`: the current map id and `layerSettings`. */
  class GameMapLayers {
    var mapId: int
    var layerSettings: Settings

    /** `Game_Map.initialize`: no map yet, an empty registry. */
    constructor ()
      ensures mapId == 0 && layerSettings == map[]
    {
      mapId := 0;
      layerSettings := map[];
    }

    /** `Galv.LG.createLayer(config)`: the `LAYER` plugin command. */
    method CreateLayer(config: seq<string>, vars: VarStore) returns (outcome: Outcome)
      modifies this`layerSettings
      ensures (outcome, layerSettings) == LayerCommand(old(layerSettings), config, vars)
    {
      if |config| >= 1 && config[0] == "REFRESH" {
        return Refreshed;
      }
      if |config| >= 1 && config[0] == "REMOVE" {
        if |config| < 3 {
          return Crashed;
        }
        var m := Resolve(config[1], vars);
        var id := Resolve(config[2], vars);
        if Truthy(id) {
          if m !in layerSettings {
            return Crashed;
          }
          layerSettings := layerSettings[m := layerSettings[m][id := Removed]];
        } else {
          layerSettings := layerSettings[m := map[]];
        }
        return Applied;
      }
      if |config| < 2 {
        return Crashed;
      }
      var m := Resolve(config[0], vars);
      var id := Resolve(config[1], vars);
      if m !in layerSettings {
        layerSettings := layerSettings[m := map[]];
      }
      if id !in layerSettings[m] {
        layerSettings := layerSettings[m := layerSettings[m][id := Removed]];
      }
      var xExist := OrZero(layerSettings[m][id].Get(CurrentX));
      var yExist := OrZero(layerSettings[m][id].Get(CurrentY));
      if |config| < 10 {
        return Crashed;
      }
      var rec := Tiling(config[2], Resolve(config[3], vars), Resolve(config[4], vars),
                        Resolve(config[5], vars), Resolve(config[6], vars),
                        Resolve(config[7], vars), Resolve(config[8], vars),
                        Resolve(config[9], vars), Val(xExist), Val(yExist));
      layerSettings := layerSettings[m := layerSettings[m][id := rec]];
      return Applied;
    }

    /** `Galv.LG.createLayerS(config)`: the `LAYER_S` plugin command. */
    method CreateLayerS(config: seq<string>, vars: VarStore) returns (outcome: Outcome)
      modifies this`layerSettings
      ensures (outcome, layerSettings) == UpsertStatic(old(layerSettings), config, vars)
    {
      if |config| < 2 {
        return Crashed;
      }
      var m := Resolve(config[0], vars);
      var id := Resolve(config[1], vars);
      if m !in layerSettings {
        layerSettings := layerSettings[m := map[]];
      }
      if id !in layerSettings[m] {
        layerSettings := layerSettings[m := layerSettings[m][id := Removed]];
      }
      if |config| < 8 {
        return Crashed;
      }
      var rec := Static(config[2], Resolve(config[3], vars), Resolve(config[4], vars),
                        Resolve(config[5], vars), Resolve(config[6], vars),
                        Resolve(config[7], vars),
                        OptionalField(config, 8, vars), OptionalField(config, 9, vars),
                        OptionalField(config, 10, vars), OptionalField(config, 11, vars));
      layerSettings := layerSettings[m := layerSettings[m][id := rec]];
      return Applied;
    }

    /** `Game_Map.layerConfig()`: the current map's table, created empty when
        the map has none. */
    method LayerConfig() returns (layers: map<Num, Layer>)
      modifies this`layerSettings
      ensures layerSettings == EnsureTable(old(layerSettings), Val(mapId as real))
      ensures layers == layerSettings[Val(mapId as real)]
    {
      var m := Val(mapId as real);
      if m !in layerSettings {
        layerSettings := layerSettings[m := map[]];
      }
      layers := layerSettings[m];
    }

    /** `Game_Map.setup(mapId)`: the engine's own setup (which makes `mapId`
        current), then the map's table is reserved and its note bootstrapped.
        `check` is the existence test of the bootstrap: `ByNumber` is the
        program as written, `ByResolvedKey` the corrected one. */
    method Setup(newMapId: int, note: string, vars: VarStore, check: NoteCheck) returns (ok: bool)
      modifies this
      ensures mapId == newMapId
      ensures (ok, layerSettings) == SetupLayers(old(layerSettings), newMapId, note, vars, check)
    {
      mapId := newMapId;
      var m := Val(newMapId as real);
      if m !in layerSettings {
        layerSettings := layerSettings[m := map[]];
      }
      ok := CreateNoteLayers(newMapId, note, vars, check);
    }

    /** `Game_Map.createNoteLayers(mapId)`, with the existence test `check`. */
    method CreateNoteLayers(forMap: int, note: string, vars: VarStore, check: NoteCheck) returns (ok: bool)
      modifies this`layerSettings
      ensures (ok, layerSettings) == NoteLines(old(layerSettings), forMap, Lines(note), vars, check)
    {
      var lines := Lines(note);
      var i := 0;
      while i < |lines|
        invariant 0 <= i <= |lines|
        invariant NoteLines(old(layerSettings), forMap, lines, vars, check)
               == NoteLines(layerSettings, forMap, lines[i..], vars, check)
      {
        NoteLinesStep(layerSettings, forMap, lines, i, vars, check);
        ok := ApplyNoteLine(forMap, lines[i], vars, check);
        if !ok {
          return;
        }
        i := i + 1;
      }
      return true;
    }

    /** One line of the note loop: the `LAYER ` test, then the `LAYER_S `
        test, each running its command only when `check` finds the layer
        missing; the test itself throws when the map has no table. */
    method ApplyNoteLine(forMap: int, line: string, vars: VarStore, check: NoteCheck) returns (ok: bool)
      modifies this`layerSettings
      ensures (ok, layerSettings) == NoteLine(old(layerSettings), forMap, line, vars, check)
    {
      if Contains(line, "LAYER ") {
        var config := NoteConfig(forMap, line, "LAYER");
        var missing := LayerMissing(layerSettings, forMap, config, vars, check);
        if missing.None? {
          return false;
        }
        if missing.value {
          var outcome := CreateLayer(config, vars);
          if outcome == Crashed {
            return false;
          }
        }
      }
      if Contains(line, "LAYER_S ") {
        var config := NoteConfig(forMap, line, "LAYER_S");
        var missing := LayerMissing(layerSettings, forMap, config, vars, check);
        if missing.None? {
          return false;
        }
        if missing.value {
          var outcome := CreateLayerS(config, vars);
          if outcome == Crashed {
            return false;
          }
        }
      }
      return true;
    }
  }
}
