/** The laws of the .env rewriting, and the loops of `main` that perform it. */
module EnvRewriting {
  import opened Wrappers
  import opened EnvFile

  type Generator = (string, nat) -> string

  /** `secrets.token_urlsafe` never returns anything else. */
  ghost predicate Fresh(generate: Generator) {
    forall key, at :: UrlSafe(generate(key, at))
  }

  lemma Assembled(reader: Reader, prefix: string, name: string, value: string)
    requires Faithful(reader) && reader.fits(prefix) && ValidName(name)
    ensures reader.parse(AssignmentLine(prefix, name, value)) == Some(Assignment(prefix, name, reader.strip(value)))
  {
  }

  lemma PartsFit(reader: Reader, line: string)
    requires Faithful(reader) && reader.parse(line).Some?
    ensures reader.fits(reader.parse(line).value.prefix) && ValidName(reader.parse(line).value.name)
  {
  }

  // ---- Lines that a pass leaves alone ----

  predicate Settled(reader: Reader, example: map<string, string>, line: string) {
    var parsed := reader.parse(line);
    parsed.Some? && reader.bare(parsed.value.value) == "" ==>
      && parsed.value.name !in FILL_IF_EMPTY && parsed.value.name != "GROQ_API_KEY"
      && (parsed.value.name in DEMO_KEYS && Get(example, parsed.value.name) != "" ==>
            line == AssignmentLine(parsed.value.prefix, parsed.value.name, Get(example, parsed.value.name)))
  }

  lemma SettledStays(reader: Reader, example: map<string, string>, generate: Generator, line: string, at: nat)
    requires Settled(reader, example, line)
    ensures FillLine(reader, example, generate, line, at) == line
  {
  }

  lemma PlaceholderIsUrlSafe()
    ensures UrlSafe(GROQ_PLACEHOLDER)
  {
  }

  /** An assembled line is settled if its value is read back non-empty, or is what
      the pass would write. */
  lemma AssembledIsSettled(reader: Reader, example: map<string, string>, prefix: string, name: string, value: string)
    requires Faithful(reader) && reader.fits(prefix) && ValidName(name)
    requires name in FILL_IF_EMPTY || name == "GROQ_API_KEY" ==> UrlSafe(value)
    requires name in DEMO_KEYS && Get(example, name) != "" ==> value == Get(example, name)
    ensures Settled(reader, example, AssignmentLine(prefix, name, value))
    ensures Named(reader, AssignmentLine(prefix, name, value)) == Some(name)
  {
    Assembled(reader, prefix, name, value);
  }

  lemma KeysAreApart(name: string)
    ensures name in FILL_IF_EMPTY ==> name !in DEMO_KEYS && name != "GROQ_API_KEY"
    ensures name in DEMO_KEYS ==> name != "GROQ_API_KEY"
    ensures name == STACK_DB_DSN || name == STACK_DB_MIGRATION_DSN ==>
              name !in FILL_IF_EMPTY && name !in DEMO_KEYS && name != "GROQ_API_KEY"
  {
    if name in FILL_IF_EMPTY {
      assert |name| == 10 || |name| == 15 || |name| == 17;
      assert name[0] == 'S' || name[0] == 'L' || name[0] == 'P' || name[0] == 'A';
      assert name[1] == 'E' ==> name[2] == 'C';
    }
    if name in DEMO_KEYS {
      assert name[0] == 'S' && name[1] == 'E' && name[2] == 'E';
    }
  }

  lemma FilledIsSettled(reader: Reader, example: map<string, string>, generate: Generator, line: string, at: nat)
    requires Faithful(reader) && Fresh(generate)
    ensures Settled(reader, example, FillLine(reader, example, generate, line, at))
    ensures Named(reader, FillLine(reader, example, generate, line, at)) == Named(reader, line)
  {
    var parsed := reader.parse(line);
    if parsed.Some? && reader.bare(parsed.value.value) == "" {
      var name := parsed.value.name;
      var filling := Filling(example, generate, name, at);
      PartsFit(reader, line);
      KeysAreApart(name);
      PlaceholderIsUrlSafe();
      if filling.Some? {
        AssembledIsSettled(reader, example, parsed.value.prefix, name, filling.value);
      }
    }
  }

  ghost predicate AllSettled(reader: Reader, example: map<string, string>, lines: seq<string>) {
    forall i | 0 <= i < |lines| :: Settled(reader, example, lines[i])
  }

  lemma FillKeepsNames(reader: Reader, example: map<string, string>, generate: Generator, lines: seq<string>)
    requires Faithful(reader) && Fresh(generate)
    ensures AllSettled(reader, example, Fill(reader, example, generate, lines))
    ensures Names(reader, Fill(reader, example, generate, lines)) == Names(reader, lines)
  {
    var filled := Fill(reader, example, generate, lines);
    forall i | 0 <= i < |lines|
      ensures Settled(reader, example, filled[i]) && Named(reader, filled[i]) == Named(reader, lines[i])
    {
      FilledIsSettled(reader, example, generate, lines[i], i);
    }
    assert forall i | 0 <= i < |lines| :: Names(reader, filled)[i] == Names(reader, lines)[i];
  }

  lemma FillOfSettled(reader: Reader, example: map<string, string>, generate: Generator, lines: seq<string>)
    requires AllSettled(reader, example, lines)
    ensures Fill(reader, example, generate, lines) == lines
  {
    forall i | 0 <= i < |lines| ensures FillLine(reader, example, generate, lines[i], i) == lines[i] {
      SettledStays(reader, example, generate, lines[i], i);
    }
  }

  lemma NamesOfConcat(reader: Reader, lines: seq<string>, more: seq<string>)
    ensures Names(reader, lines + more) == Names(reader, lines) + Names(reader, more)
  {
  }

  // ---- The appended lines ----

  lemma FillKeysAreNames()
    ensures forall key | key in FILL_IF_EMPTY :: ValidName(key)
  {
    assert ValidName("SECRET_KEY") && ValidName("LOCK_KEY_SECRET");
    assert ValidName("POSTGRES_PASSWORD") && ValidName("APP_DB_PASSWORD");
  }

  lemma DemoKeysAreNames()
    ensures forall key | key in DEMO_KEYS :: ValidName(key)
  {
    assert ValidName("SEED_SUPERADMIN_PASSWORD") && ValidName("SEED_ADMIN_PASSWORD");
    assert ValidName("SEED_ANALYST_PASSWORD") && ValidName("SEED_VIEWER_PASSWORD");
  }

  lemma DsnKeysAreNames()
    ensures ValidName(STACK_DB_DSN) && ValidName(STACK_DB_MIGRATION_DSN)
  {
  }

  lemma KeysAreNames(key: string)
    requires key in FILL_IF_EMPTY || key in DEMO_KEYS || key == STACK_DB_DSN || key == STACK_DB_MIGRATION_DSN
    ensures ValidName(key)
  {
    FillKeysAreNames();
    DemoKeysAreNames();
    DsnKeysAreNames();
  }

  lemma GeneratedLine(reader: Reader, example: map<string, string>, key: string, value: string)
    requires Faithful(reader) && (key in FILL_IF_EMPTY || key in DEMO_KEYS)
    requires if key in FILL_IF_EMPTY then UrlSafe(value) else value == Get(example, key)
    ensures Settled(reader, example, AssignmentLine("", key, value)) && Named(reader, AssignmentLine("", key, value)) == Some(key)
  {
    KeysAreNames(key);
    KeysAreApart(key);
    AssembledIsSettled(reader, example, "", key, value);
  }

  lemma SettledConcat(reader: Reader, example: map<string, string>, lines: seq<string>, more: seq<string>)
    requires AllSettled(reader, example, lines) && AllSettled(reader, example, more)
    ensures AllSettled(reader, example, lines + more)
  {
  }

  lemma SettledOne(reader: Reader, example: map<string, string>, line: string)
    requires Settled(reader, example, line)
    ensures AllSettled(reader, example, [line]) && Names(reader, [line]) == [Named(reader, line)]
  {
    assert [line][..0] == [];
  }

  lemma {:induction false} GeneratedLines(reader: Reader, example: map<string, string>, generate: Generator, keys: seq<string>, at: nat)
    requires Faithful(reader) && Fresh(generate) && forall key | key in keys :: key in FILL_IF_EMPTY
    ensures AllSettled(reader, example, Generated(generate, keys, at))
    ensures forall key | key in keys :: Some(key) in Names(reader, Generated(generate, keys, at))
    decreases |keys|
  {
    if keys != [] {
      var line := AssignmentLine("", keys[0], generate(keys[0], at));
      var rest := Generated(generate, keys[1..], at + 1);
      assert keys[0] in keys;
      GeneratedLine(reader, example, keys[0], generate(keys[0], at));
      GeneratedLines(reader, example, generate, keys[1..], at + 1);
      PrependLine(reader, example, line, rest, keys[0]);
      assert forall key | key in keys :: key == keys[0] || key in keys[1..];
    }
  }

  lemma PrependLine(reader: Reader, example: map<string, string>, line: string, rest: seq<string>, key: string)
    requires Settled(reader, example, line) && Named(reader, line) == Some(key) && AllSettled(reader, example, rest)
    ensures AllSettled(reader, example, [line] + rest)
    ensures Names(reader, [line] + rest) == [Some(key)] + Names(reader, rest)
  {
    SettledOne(reader, example, line);
    SettledConcat(reader, example, [line], rest);
    NamesOfConcat(reader, [line], rest);
  }

  lemma {:induction false} DemoLinesAre(reader: Reader, example: map<string, string>, keys: seq<string>, seen: set<string>)
    requires Faithful(reader) && forall key | key in keys :: key in DEMO_KEYS
    ensures AllSettled(reader, example, DemoLines(example, keys, seen))
    ensures forall key | key in keys && key !in seen && Get(example, key) != "" ::
              Some(key) in Names(reader, DemoLines(example, keys, seen))
    decreases |keys|
  {
    if keys != [] {
      DemoLinesAre(reader, example, keys[1..], seen);
      var rest := DemoLines(example, keys[1..], seen);
      assert keys[0] in keys && forall key | key in keys :: key == keys[0] || key in keys[1..];
      if keys[0] !in seen && Get(example, keys[0]) != "" {
        KeysAreApart(keys[0]);
        GeneratedLine(reader, example, keys[0], Get(example, keys[0]));
        PrependLine(reader, example, AssignmentLine("", keys[0], Get(example, keys[0])), rest, keys[0]);
      } else {
        assert DemoLines(example, keys, seen) == rest;
      }
    }
  }

  lemma {:induction false} MissingKeys(keys: seq<string>, seen: set<string>)
    ensures forall key :: key in Missing(keys, seen) <==> key in keys && key !in seen
  {
    if keys != [] {
      MissingKeys(keys[1..], seen);
    }
  }

  lemma HeaderIsSettled(reader: Reader, example: map<string, string>)
    requires Faithful(reader)
    ensures AllSettled(reader, example, ["", SECTION_HEADER])
  {
  }

  /** After the appending every required key has an assignment. */
  predicate Complete(example: map<string, string>, seen: set<string>) {
    && (forall key | key in FILL_IF_EMPTY :: key in seen)
    && (forall key | key in DEMO_KEYS && Get(example, key) != "" :: key in seen)
  }

  lemma AdditionsAre(reader: Reader, example: map<string, string>, generate: Generator, seen: set<string>, at: nat)
    requires Faithful(reader) && Fresh(generate)
    ensures var more := Additions(example, generate, seen, at);
            && AllSettled(reader, example, more)
            && (forall key | key in FILL_IF_EMPTY && key !in seen :: Some(key) in Names(reader, more))
            && (forall key | key in DEMO_KEYS && key !in seen && Get(example, key) != "" :: Some(key) in Names(reader, more))
  {
    var missing, demo := Missing(FILL_IF_EMPTY, seen), DemoLines(example, DEMO_KEYS, seen);
    var made := Generated(generate, missing, at + 2);
    MissingKeys(FILL_IF_EMPTY, seen);
    GeneratedLines(reader, example, generate, missing, at + 2);
    DemoLinesAre(reader, example, DEMO_KEYS, seen);
    HeaderIsSettled(reader, example);
    SettledConcat(reader, example, ["", SECTION_HEADER], made);
    NamesOfConcat(reader, ["", SECTION_HEADER], made);
    var head := if missing == [] then [] else ["", SECTION_HEADER] + made;
    SettledConcat(reader, example, head, demo);
    NamesOfConcat(reader, head, demo);
  }

  lemma AdditionsComplete(reader: Reader, example: map<string, string>, generate: Generator, names: seq<Option<string>>, at: nat)
    requires Faithful(reader) && Fresh(generate)
    ensures var more := Additions(example, generate, Seen(names), at);
            AllSettled(reader, example, more) && Complete(example, Seen(names + Names(reader, more)))
  {
    AdditionsAre(reader, example, generate, Seen(names), at);
    var more := Names(reader, Additions(example, generate, Seen(names), at));
    forall key | Some(key) in names || Some(key) in more ensures key in Seen(names + more) {
      assert Some(key) in names + more;
    }
    assert forall key | key in Seen(names) :: Some(key) in names;
  }

  lemma {:induction false} NoDemoLines(example: map<string, string>, keys: seq<string>, seen: set<string>)
    requires forall key | key in keys && Get(example, key) != "" :: key in seen
    ensures DemoLines(example, keys, seen) == []
  {
    if keys != [] {
      NoDemoLines(example, keys[1..], seen);
    }
  }

  lemma {:induction false} NoneMissing(keys: seq<string>, seen: set<string>)
    requires forall key | key in keys :: key in seen
    ensures Missing(keys, seen) == []
  {
    if keys != [] {
      NoneMissing(keys[1..], seen);
    }
  }

  lemma NothingToAdd(example: map<string, string>, generate: Generator, seen: set<string>, at: nat)
    requires Complete(example, seen)
    ensures Additions(example, generate, seen, at) == []
  {
    NoneMissing(FILL_IF_EMPTY, seen);
    NoDemoLines(example, DEMO_KEYS, seen);
  }

  // ---- The derived lines ----

  /** The first assignment of `key` holds exactly `value`. */
  predicate Derived(reader: Reader, lines: seq<string>, key: string, value: string) {
    var n := FirstOf(Names(reader, lines), key);
    n < |lines| && reader.parse(lines[n]).Some? && lines[n] == AssignmentLine(reader.parse(lines[n]).value.prefix, key, value)
  }

  lemma DerivedStays(reader: Reader, lines: seq<string>, key: string, value: string)
    requires Derived(reader, lines, key, value)
    ensures Derive(reader, lines, key, value) == lines
  {
  }

  lemma FirstIsUnique(names: seq<Option<string>>, key: string, n: nat)
    requires n < |names| && names[n] == Some(key) && forall i | 0 <= i < n :: names[i] != Some(key)
    ensures FirstOf(names, key) == n
  {
    var k := FirstOf(names, key);
    assert k <= n;
  }

  lemma DerivedLine(reader: Reader, lines: seq<string>, key: string, value: string)
    requires Faithful(reader) && ValidName(key)
    ensures var n, after := FirstOf(Names(reader, lines), key), Derive(reader, lines, key, value);
            && |after| == (if n < |lines| then |lines| else |lines| + 1)
            && n < |after| && Named(reader, after[n]) == Some(key) && reader.parse(after[n]).Some?
            && after[n] == AssignmentLine(reader.parse(after[n]).value.prefix, key, value)
            && forall i | 0 <= i < |lines| && i != n :: after[i] == lines[i]
  {
    var n := FirstOf(Names(reader, lines), key);
    if n < |lines| {
      PartsFit(reader, lines[n]);
      Assembled(reader, reader.parse(lines[n]).value.prefix, key, value);
    } else {
      Assembled(reader, "", key, value);
    }
  }

  lemma SameNames(reader: Reader, lines: seq<string>, after: seq<string>)
    requires |lines| <= |after| && forall i | 0 <= i < |lines| :: Named(reader, after[i]) == Named(reader, lines[i])
    ensures forall i | 0 <= i < |lines| :: Names(reader, after)[i] == Names(reader, lines)[i]
  {
  }

  /** What deriving one URL changes: one line, whose name stays. */
  lemma DeriveShape(reader: Reader, lines: seq<string>, key: string, value: string)
    requires Faithful(reader) && ValidName(key)
    ensures var n, after := FirstOf(Names(reader, lines), key), Derive(reader, lines, key, value);
            && Derived(reader, after, key, value)
            && |after| == (if n < |lines| then |lines| else |lines| + 1)
            && Names(reader, after) == Names(reader, lines) + (if n < |lines| then [] else [Some(key)])
            && n < |after| && Named(reader, after[n]) == Some(key)
            && forall i | 0 <= i < |lines| && i != n :: after[i] == lines[i]
  {
    var names := Names(reader, lines);
    var n, after := FirstOf(names, key), Derive(reader, lines, key, value);
    DerivedLine(reader, lines, key, value);
    SameNames(reader, lines, after);
    assert Names(reader, after) == names + (if n < |lines| then [] else [Some(key)]);
    FirstIsUnique(Names(reader, after), key, n);
  }

  lemma DeriveKeepsSettled(reader: Reader, example: map<string, string>, lines: seq<string>, key: string, value: string)
    requires Faithful(reader) && AllSettled(reader, example, lines) && (key == STACK_DB_DSN || key == STACK_DB_MIGRATION_DSN)
    ensures AllSettled(reader, example, Derive(reader, lines, key, value))
  {
    KeysAreNames(key);
    KeysAreApart(key);
    DeriveShape(reader, lines, key, value);
    var n, after := FirstOf(Names(reader, lines), key), Derive(reader, lines, key, value);
    assert Settled(reader, example, after[n]);
    assert forall i | 0 <= i < |after| && i != n :: after[i] == lines[i];
  }

  /** Deriving another URL leaves a derived one as it is. */
  lemma DeriveKeepsDerived(reader: Reader, lines: seq<string>, key: string, value: string, other: string, text: string)
    requires Faithful(reader) && ValidName(other) && key != other && Derived(reader, lines, key, value)
    ensures Derived(reader, Derive(reader, lines, other, text), key, value)
  {
    DeriveShape(reader, lines, other, text);
    var n, after := FirstOf(Names(reader, lines), key), Derive(reader, lines, other, text);
    assert n != FirstOf(Names(reader, lines), other);
    assert Names(reader, after)[n] == Some(key);
    assert forall i | 0 <= i < n :: Names(reader, after)[i] == Names(reader, lines)[i];
    FirstIsUnique(Names(reader, after), key, n);
  }

  lemma LastValue(reader: Reader, lines: seq<string>, key: string)
    requires lines != []
    ensures var n := |lines| - 1;
            Get(Values(reader, lines), key)
            == if Named(reader, lines[n]) == Some(key) then reader.bare(reader.parse(lines[n]).value.value)
               else Get(Values(reader, lines[..n]), key)
  {
  }

  lemma {:induction false} ValuesOfOthers(reader: Reader, lines: seq<string>, n: nat, line: string, key: string)
    requires n < |lines| && Named(reader, line) == Named(reader, lines[n]) && Named(reader, line) != Some(key)
    ensures Get(Values(reader, lines[n := line]), key) == Get(Values(reader, lines), key)
    decreases |lines|
  {
    var m := |lines| - 1;
    LastValue(reader, lines, key);
    LastValue(reader, lines[n := line], key);
    if n < m {
      ValuesOfOthers(reader, lines[..m], n, line, key);
      assert lines[n := line][..m] == lines[..m][n := line];
    } else {
      assert lines[n := line][..m] == lines[..m];
    }
  }

  lemma DeriveKeepsValues(reader: Reader, lines: seq<string>, key: string, value: string, other: string)
    requires Faithful(reader) && ValidName(key) && key != other
    ensures Get(Values(reader, Derive(reader, lines, key, value)), other) == Get(Values(reader, lines), other)
  {
    DeriveShape(reader, lines, key, value);
    var n, after := FirstOf(Names(reader, lines), key), Derive(reader, lines, key, value);
    if n < |lines| {
      ValuesOfOthers(reader, lines, n, after[n], other);
    } else {
      assert after[..|lines|] == lines;
    }
  }

  // ---- The whole program ----

  lemma CompletedIsSettled(reader: Reader, example: map<string, string>, generate: Generator, lines: seq<string>)
    requires Faithful(reader) && Fresh(generate)
    ensures var done := Completed(reader, example, generate, lines);
            AllSettled(reader, example, done) && Complete(example, Seen(Names(reader, done)))
  {
    var filled, names := Fill(reader, example, generate, lines), Names(reader, lines);
    var more := Additions(example, generate, Seen(names), |lines|);
    FillKeepsNames(reader, example, generate, lines);
    AdditionsComplete(reader, example, generate, names, |lines|);
    NamesOfConcat(reader, filled, more);
  }

  lemma CompletedStays(reader: Reader, example: map<string, string>, generate: Generator, lines: seq<string>)
    requires AllSettled(reader, example, lines) && Complete(example, Seen(Names(reader, lines)))
    ensures Completed(reader, example, generate, lines) == lines
  {
    FillOfSettled(reader, example, generate, lines);
    NothingToAdd(example, generate, Seen(Names(reader, lines)), |lines|);
  }

  lemma CompleteGrows(example: map<string, string>, names: seq<Option<string>>, more: seq<Option<string>>)
    requires Complete(example, Seen(names))
    ensures Complete(example, Seen(names + more))
  {
    forall key | key in Seen(names) ensures key in Seen(names + more) {
      assert Some(key) in names;
      assert Some(key) in names + more;
    }
  }

  lemma DeriveKeepsCompleted(reader: Reader, example: map<string, string>, lines: seq<string>, key: string, value: string)
    requires Faithful(reader) && AllSettled(reader, example, lines) && Complete(example, Seen(Names(reader, lines)))
    requires key == STACK_DB_DSN || key == STACK_DB_MIGRATION_DSN
    ensures var after := Derive(reader, lines, key, value);
            AllSettled(reader, example, after) && Complete(example, Seen(Names(reader, after)))
    ensures Derived(reader, Derive(reader, lines, key, value), key, value)
    ensures forall other | other in {"APP_DB_NAME", "APP_DB_PASSWORD", "POSTGRES_PASSWORD"} ::
              Get(Values(reader, Derive(reader, lines, key, value)), other) == Get(Values(reader, lines), other)
  {
    KeysAreNames(key);
    DeriveShape(reader, lines, key, value);
    DeriveKeepsSettled(reader, example, lines, key, value);
    CompleteGrows(example, Names(reader, lines), if FirstOf(Names(reader, lines), key) < |lines| then [] else [Some(key)]);
    DeriveKeepsValues(reader, lines, key, value, "APP_DB_NAME");
    DeriveKeepsValues(reader, lines, key, value, "APP_DB_PASSWORD");
    DeriveKeepsValues(reader, lines, key, value, "POSTGRES_PASSWORD");
  }

  /** A file the program has nothing left to do for. */
  ghost predicate Finished(reader: Reader, example: map<string, string>, lines: seq<string>) {
    && AllSettled(reader, example, lines) && Complete(example, Seen(Names(reader, lines)))
    && Derived(reader, lines, STACK_DB_DSN, AppDsn(Values(reader, lines)))
    && Derived(reader, lines, STACK_DB_MIGRATION_DSN, OwnerDsn(Values(reader, lines)))
  }

  lemma DsnsDependOnThreeKeys(v: map<string, string>, w: map<string, string>)
    requires forall key | key in {"APP_DB_NAME", "APP_DB_PASSWORD", "POSTGRES_PASSWORD"} :: Get(v, key) == Get(w, key)
    ensures AppDsn(v) == AppDsn(w) && OwnerDsn(v) == OwnerDsn(w)
  {
    assert Get(v, "APP_DB_NAME") == Get(w, "APP_DB_NAME");
    assert Get(v, "APP_DB_PASSWORD") == Get(w, "APP_DB_PASSWORD");
    assert Get(v, "POSTGRES_PASSWORD") == Get(w, "POSTGRES_PASSWORD");
  }

  lemma DeriveBothFinishes(reader: Reader, example: map<string, string>, done: seq<string>, app: string, owner: string)
    requires Faithful(reader) && AllSettled(reader, example, done) && Complete(example, Seen(Names(reader, done)))
    requires app == AppDsn(Values(reader, done)) && owner == OwnerDsn(Values(reader, done))
    ensures Finished(reader, example, Derive(reader, Derive(reader, done, STACK_DB_DSN, app), STACK_DB_MIGRATION_DSN, owner))
  {
    var first := Derive(reader, done, STACK_DB_DSN, app);
    DeriveKeepsCompleted(reader, example, done, STACK_DB_DSN, app);
    DsnsDependOnThreeKeys(Values(reader, first), Values(reader, done));
    DeriveKeepsCompleted(reader, example, first, STACK_DB_MIGRATION_DSN, owner);
    DsnsDependOnThreeKeys(Values(reader, Derive(reader, first, STACK_DB_MIGRATION_DSN, owner)), Values(reader, first));
    KeysAreNames(STACK_DB_MIGRATION_DSN);
    DeriveKeepsDerived(reader, first, STACK_DB_DSN, app, STACK_DB_MIGRATION_DSN, owner);
  }

  lemma RewrittenIsFinished(reader: Reader, example: map<string, string>, generate: Generator, lines: seq<string>)
    requires Faithful(reader) && Fresh(generate)
    ensures Finished(reader, example, Rewritten(reader, example, generate, lines))
  {
    var done := Completed(reader, example, generate, lines);
    CompletedIsSettled(reader, example, generate, lines);
    DeriveBothFinishes(reader, example, done, AppDsn(Values(reader, done)), OwnerDsn(Values(reader, done)));
  }

  lemma FinishedStays(reader: Reader, example: map<string, string>, generate: Generator, lines: seq<string>)
    requires Finished(reader, example, lines)
    ensures Rewritten(reader, example, generate, lines) == lines
  {
    CompletedStays(reader, example, generate, lines);
    DerivedStays(reader, lines, STACK_DB_DSN, AppDsn(Values(reader, lines)));
    DerivedStays(reader, lines, STACK_DB_MIGRATION_DSN, OwnerDsn(Values(reader, lines)));
  }

  /** Running on its own output changes no line, whatever secrets the second run
      would generate. */
  lemma RewritingIsIdempotent(b: Blanks, example: map<string, string>, first: Generator, second: Generator,
                              lines: seq<string>)
    requires b.Valid() && Fresh(first)
    ensures var once := Rewritten(ReaderOf(b), example, first, lines);
            Rewritten(ReaderOf(b), example, second, once) == once
  {
    ReaderIsFaithful(b);
    var reader := ReaderOf(b);
    RewrittenIsFinished(reader, example, first, lines);
    FinishedStays(reader, example, second, Rewritten(reader, example, first, lines));
  }

  predicate IsDsn(name: Option<string>) {
    name == Some(STACK_DB_DSN) || name == Some(STACK_DB_MIGRATION_DSN)
  }

  /** Apart from the derived lines a line is changed only by the filling of an
      empty value, in its place; a line with a value, and one that is no
      assignment, stays. */
  lemma LinesKeepTheirValues(b: Blanks, example: map<string, string>, generate: Generator, lines: seq<string>, i: nat)
    requires b.Valid() && i < |lines| && !IsDsn(Named(ReaderOf(b), lines[i]))
    ensures var after := Rewritten(ReaderOf(b), example, generate, lines);
            && i < |after| && after[i] == FillLine(ReaderOf(b), example, generate, lines[i], i)
            && (Parse(b, lines[i]).None? || Bare(b, Parse(b, lines[i]).value.value) != "" ==> after[i] == lines[i])
  {
    ReaderIsFaithful(b);
    LinesStay(ReaderOf(b), example, generate, lines, i);
  }

  lemma LinesStay(reader: Reader, example: map<string, string>, generate: Generator, lines: seq<string>, i: nat)
    requires Faithful(reader) && i < |lines| && !IsDsn(Named(reader, lines[i]))
    ensures var after := Rewritten(reader, example, generate, lines);
            && i < |after| && after[i] == FillLine(reader, example, generate, lines[i], i)
            && (reader.parse(lines[i]).None? || reader.bare(reader.parse(lines[i]).value.value) != "" ==> after[i] == lines[i])
  {
    var done := Completed(reader, example, generate, lines);
    CompletedAt(reader, example, generate, lines, i);
    FillKeepsName(reader, example, generate, lines[i], i);
    DeriveTwice(reader, done, AppDsn(Values(reader, done)), OwnerDsn(Values(reader, done)), i);
  }

  lemma CompletedAt(reader: Reader, example: map<string, string>, generate: Generator, lines: seq<string>, i: nat)
    requires i < |lines|
    ensures var done := Completed(reader, example, generate, lines);
            && i < |done| && done[i] == FillLine(reader, example, generate, lines[i], i)
            && (reader.parse(lines[i]).None? || reader.bare(reader.parse(lines[i]).value.value) != "" ==> done[i] == lines[i])
  {
  }

  lemma DeriveTwice(reader: Reader, lines: seq<string>, app: string, owner: string, i: nat)
    requires Faithful(reader) && i < |lines| && !IsDsn(Named(reader, lines[i]))
    ensures var after := Derive(reader, Derive(reader, lines, STACK_DB_DSN, app), STACK_DB_MIGRATION_DSN, owner);
            i < |after| && after[i] == lines[i]
  {
    KeysAreNames(STACK_DB_DSN);
    KeysAreNames(STACK_DB_MIGRATION_DSN);
    DeriveOther(reader, lines, STACK_DB_DSN, app, i);
    DeriveOther(reader, Derive(reader, lines, STACK_DB_DSN, app), STACK_DB_MIGRATION_DSN, owner, i);
  }

  lemma FillKeepsName(reader: Reader, example: map<string, string>, generate: Generator, line: string, at: nat)
    requires Faithful(reader)
    ensures Named(reader, FillLine(reader, example, generate, line, at)) == Named(reader, line)
  {
    var parsed := reader.parse(line);
    if parsed.Some? {
      PartsFit(reader, line);
      var filling := Filling(example, generate, parsed.value.name, at);
      if filling.Some? {
        Assembled(reader, parsed.value.prefix, parsed.value.name, filling.value);
      }
    }
  }

  lemma DeriveOther(reader: Reader, lines: seq<string>, key: string, value: string, i: nat)
    requires Faithful(reader) && i < |lines| && Named(reader, lines[i]) != Some(key) && ValidName(key)
    ensures var after := Derive(reader, lines, key, value); i < |after| && after[i] == lines[i]
  {
    DeriveShape(reader, lines, key, value);
  }

  // ---- The loops ----

  lemma SeenMore(names: seq<Option<string>>, name: Option<string>)
    ensures Seen(names + [name]) == Seen(names) + (if name.Some? then {name.value} else {})
  {
    forall x | x in Seen(names) ensures x in Seen(names + [name]) {
      assert Some(x) in names + [name];
    }
    if name.Some? {
      assert name in names + [name];
    }
  }

  lemma SeenStep(reader: Reader, lines: seq<string>, n: nat)
    requires n < |lines|
    ensures Seen(Names(reader, lines[..n + 1]))
            == Seen(Names(reader, lines[..n])) + (if reader.parse(lines[n]).Some? then {reader.parse(lines[n]).value.name} else {})
  {
    assert lines[..n + 1][..n] == lines[..n];
    SeenMore(Names(reader, lines[..n]), Named(reader, lines[n]));
  }

  /** The first pass: fill empty values in place and note every name. */
  method FillLines(reader: Reader, example: map<string, string>, generate: Generator, input: seq<string>)
    returns (lines: seq<string>, seen: set<string>)
    ensures lines == Fill(reader, example, generate, input)
    ensures seen == Seen(Names(reader, input))
  {
    lines, seen := input, {};
    for index := 0 to |input|
      invariant |lines| == |input| && seen == Seen(Names(reader, input[..index]))
      invariant forall j | 0 <= j < index :: lines[j] == FillLine(reader, example, generate, input[j], j)
      invariant forall j | index <= j < |input| :: lines[j] == input[j]
    {
      SeenStep(reader, input, index);
      var line := lines[index];
      var parsed := reader.parse(line);
      if parsed.Some? {
        seen := seen + {parsed.value.name};
        if reader.bare(parsed.value.value) == "" {
          var filling := Filling(example, generate, parsed.value.name, index);
          if filling.Some? {
            line := AssignmentLine(parsed.value.prefix, parsed.value.name, filling.value);
          }
        }
      }
      assert line == FillLine(reader, example, generate, input[index], index);
      lines := lines[index := line];
    }
    assert input[..|input|] == input;
  }

  /** The second pass: append what has no assignment at all. */
  method AppendMissing(example: map<string, string>, generate: Generator, input: seq<string>, seen: set<string>)
    returns (lines: seq<string>)
    ensures lines == input + Additions(example, generate, seen, |input|)
  {
    lines := input;
    var missing := Missing(FILL_IF_EMPTY, seen);
    if missing != [] {
      lines := lines + ["", SECTION_HEADER];
      for i := 0 to |missing|
        invariant |lines| == |input| + 2 + i
        invariant lines + Generated(generate, missing[i..], |input| + 2 + i)
               == input + ["", SECTION_HEADER] + Generated(generate, missing, |input| + 2)
      {
        var line := AssignmentLine("", missing[i], generate(missing[i], |lines|));
        Regroup(lines, [line], Generated(generate, missing[i + 1..], |input| + 3 + i));
        assert missing[i..][1..] == missing[i + 1..];
        lines := lines + [line];
      }
    }
    ghost var head := if missing == [] then [] else ["", SECTION_HEADER] + Generated(generate, missing, |input| + 2);
    Regroup(input, ["", SECTION_HEADER], Generated(generate, missing, |input| + 2));
    assert missing != [] ==> lines + Generated(generate, missing[|missing|..], |lines|) == lines;
    assert lines == input + head;
    for i := 0 to |DEMO_KEYS|
      invariant lines + DemoLines(example, DEMO_KEYS[i..], seen) == input + head + DemoLines(example, DEMO_KEYS, seen)
    {
      var key := DEMO_KEYS[i];
      assert DEMO_KEYS[i..][1..] == DEMO_KEYS[i + 1..];
      if key in seen || Get(example, key) == "" {
        assert DemoLines(example, DEMO_KEYS[i..], seen) == DemoLines(example, DEMO_KEYS[i + 1..], seen);
        continue;
      }
      var line := AssignmentLine("", key, Get(example, key));
      Regroup(lines, [line], DemoLines(example, DEMO_KEYS[i + 1..], seen));
      lines := lines + [line];
    }
    Regroup(input, head, DemoLines(example, DEMO_KEYS, seen));
  }

  lemma Regroup(a: seq<string>, b: seq<string>, c: seq<string>)
    ensures (a + b) + c == a + (b + c)
  {
  }

  /** The dictionary of values; the last assignment of a name wins. */
  method ReadValues(reader: Reader, lines: seq<string>) returns (values: map<string, string>)
    ensures values == Values(reader, lines)
  {
    values := map[];
    for i := 0 to |lines|
      invariant values == Values(reader, lines[..i])
    {
      assert lines[..i + 1][..i] == lines[..i];
      var parsed := reader.parse(lines[i]);
      if parsed.Some? {
        values := values[parsed.value.name := reader.bare(parsed.value.value)];
      }
    }
    assert lines[..|lines|] == lines;
  }

  method FindName(names: seq<Option<string>>, key: string) returns (n: nat)
    ensures n == FirstOf(names, key)
  {
    n := 0;
    while n < |names| && names[n] != Some(key)
      invariant n <= |names|
      invariant forall j | 0 <= j < n :: names[j] != Some(key)
    {
      n := n + 1;
    }
    if n < |names| {
      FirstIsUnique(names, key, n);
    }
  }

  /** The last pass for one URL: rewrite its first assignment or append one. */
  method DeriveLine(reader: Reader, input: seq<string>, key: string, value: string) returns (lines: seq<string>)
    ensures lines == Derive(reader, input, key, value)
  {
    var n := FindName(Names(reader, input), key);
    if n < |input| {
      lines := input[n := AssignmentLine(reader.parse(input[n]).value.prefix, key, value)];
    } else {
      lines := input + [AssignmentLine("", key, value)];
    }
  }

  datatype BootstrapError = ExampleNotFound

  /** `main`, between reading the two files and writing one. */
  method Bootstrap(b: Blanks, generate: Generator, env: Option<seq<string>>, example: Option<seq<string>>)
    returns (r: Result<seq<string>, BootstrapError>)
    ensures r == if example.None? then Err(ExampleNotFound)
                 else Ok(Rewritten(ReaderOf(b), Values(ReaderOf(b), example.value), generate,
                                   if env.Some? then env.value else example.value))
  {
    var reader := ReaderOf(b);
    if example.None? {
      return Err(ExampleNotFound);
    }
    var input := if env.Some? then env.value else example.value;
    var examples := ReadValues(reader, example.value);
    var filled, seen := FillLines(reader, examples, generate, input);
    var completed := AppendMissing(examples, generate, filled, seen);
    var values := ReadValues(reader, completed);
    var app := DeriveLine(reader, completed, STACK_DB_DSN, AppDsn(values));
    var owner := DeriveLine(reader, app, STACK_DB_MIGRATION_DSN, OwnerDsn(values));
    r := Ok(owner);
  }
}
