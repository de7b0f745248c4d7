/** What the bootstrap leaves in the .env, key by key and character by character
    (scripts/demo_bootstrap.py). */
module EnvOutput {
  import opened Wrappers
  import opened EnvFile
  import opened EnvRewriting

  const SECRETS: set<string> := {"SECRET_KEY", "LOCK_KEY_SECRET", "POSTGRES_PASSWORD", "APP_DB_PASSWORD"}
  const LOGINS: set<string> :=
    {"SEED_SUPERADMIN_PASSWORD", "SEED_ADMIN_PASSWORD", "SEED_ANALYST_PASSWORD", "SEED_VIEWER_PASSWORD"}

  lemma KeysAre()
    ensures forall key :: key in FILL_IF_EMPTY <==> key in SECRETS
    ensures forall key :: key in DEMO_KEYS <==> key in LOGINS
  {
  }

  /** The line assigns the key an empty value. */
  predicate Empty(b: Blanks, line: string) {
    Parse(b, line).Some? && Bare(b, Parse(b, line).value.value) == ""
  }

  /** What an empty value of this name becomes, if anything. */
  function Filler(example: map<string, string>, generate: Generator, name: string, at: nat): Option<string> {
    if name in SECRETS then Some(generate(name, at))
    else if name == "GROQ_API_KEY" then Some("gsk_demo_placeholder_enrichment_disabled")
    else if name in LOGINS && name in example && example[name] != "" then Some(example[name])
    else None
  }

  lemma FillingIs(example: map<string, string>, generate: Generator, name: string, at: nat)
    ensures Filling(example, generate, name, at) == Filler(example, generate, name, at)
  {
    KeysAre();
  }

  lemma FilledWith(b: Blanks, example: map<string, string>, generate: Generator, line: string, at: nat, filler: Option<string>)
    requires Parse(b, line).Some? ==> filler == Filling(example, generate, Parse(b, line).value.name, at)
    ensures FillLine(ReaderOf(b), example, generate, line, at)
         == if !Empty(b, line) || filler.None? then line
            else AssignmentLine(Parse(b, line).value.prefix, Parse(b, line).value.name, filler.value)
  {
  }

  /** A line of the input: empty secrets are generated, an empty provider key becomes the
      placeholder, an empty login the one of the example; every other line, the
      connection URLs apart, stays as it is. */
  lemma EveryLineIsKeptOrFilled(b: Blanks, example: map<string, string>, generate: Generator, lines: seq<string>, i: nat)
    requires b.Valid() && i < |lines|
    requires Parse(b, lines[i]).Some? ==> Parse(b, lines[i]).value.name !in {"STACK_DB_DSN", "STACK_DB_MIGRATION_DSN"}
    ensures var after := Rewritten(ReaderOf(b), example, generate, lines);
            && i < |after|
            && if !Empty(b, lines[i]) then after[i] == lines[i]
               else
                 var Assignment(prefix, name, _) := Parse(b, lines[i]).value;
                 var filler := Filler(example, generate, name, i);
                 after[i] == if filler.Some? then prefix + name + "=" + filler.value else lines[i]
  {
    LinesKeepTheirValues(b, example, generate, lines, i);
    if Parse(b, lines[i]).Some? {
      var name := Parse(b, lines[i]).value.name;
      FillingIs(example, generate, name, i);
      FilledWith(b, example, generate, lines[i], i, Filler(example, generate, name, i));
    }
  }

  /** The first assignment of the key is this text, after whatever stands before the name. */
  ghost predicate FirstIs(b: Blanks, lines: seq<string>, key: string, text: string) {
    exists i | 0 <= i < |lines| ::
      && Parse(b, lines[i]).Some? && Parse(b, lines[i]).value.name == key
      && lines[i] == Parse(b, lines[i]).value.prefix + text
      && forall j | 0 <= j < i :: Parse(b, lines[j]).Some? ==> Parse(b, lines[j]).value.name != key
  }

  function Value(b: Blanks, lines: seq<string>, key: string): string {
    var values := Values(ReaderOf(b), lines);
    if key in values then values[key] else ""
  }

  function NameOfDatabase(b: Blanks, lines: seq<string>): string {
    if Value(b, lines, "APP_DB_NAME") != "" then Value(b, lines, "APP_DB_NAME") else "soc360"
  }

  lemma LineText(prefix: string, key: string, value: string)
    ensures AssignmentLine(prefix, key, value) == prefix + (key + "=" + value)
  {
  }

  lemma NamedIs(b: Blanks, lines: seq<string>, i: nat, key: string)
    requires i < |lines|
    ensures Names(ReaderOf(b), lines)[i] == Some(key) <==> Parse(b, lines[i]).Some? && Parse(b, lines[i]).value.name == key
  {
    assert Names(ReaderOf(b), lines)[i] == Named(ReaderOf(b), lines[i]);
  }

  lemma DerivedAtFirst(b: Blanks, lines: seq<string>, key: string, value: string) returns (n: nat)
    requires Derived(ReaderOf(b), lines, key, value)
    ensures n < |lines| && Parse(b, lines[n]).Some? && Names(ReaderOf(b), lines)[n] == Some(key)
    ensures lines[n] == AssignmentLine(Parse(b, lines[n]).value.prefix, key, value)
    ensures forall j | 0 <= j < n :: Names(ReaderOf(b), lines)[j] != Some(key)
  {
    n := FirstOf(Names(ReaderOf(b), lines), key);
  }

  lemma DerivedIsFirst(b: Blanks, lines: seq<string>, key: string, value: string)
    requires Derived(ReaderOf(b), lines, key, value)
    ensures FirstIs(b, lines, key, key + "=" + value)
  {
    var n := DerivedAtFirst(b, lines, key, value);
    NamedIs(b, lines, n, key);
    LineText(Parse(b, lines[n]).value.prefix, key, value);
    forall j | 0 <= j < n ensures Parse(b, lines[j]).Some? ==> Parse(b, lines[j]).value.name != key {
      NamedIs(b, lines, j, key);
    }
  }

  lemma DsnText(role: string, value: string, database: string)
    ensures Dsn(role, value, database) == "postgresql+asyncpg://" + role + ":" + value + "@postgres:5432/" + database
  {
    assert "@" + "postgres" + ":" + "5432" + "/" == "@postgres:5432/";
    assert "postgresql+asyncpg" + "://" == "postgresql+asyncpg://";
    var head := "postgresql+asyncpg://" + role + ":" + value;
    assert Dsn(role, value, database) == head + ("@" + "postgres" + ":" + "5432" + "/") + database;
  }

  /** The text of a URL: who connects, with which of the values, to which database. */
  function UrlText(role: string, value: string, database: string): string {
    "postgresql+asyncpg://" + role + ":" + value + "@postgres:5432/" + database
  }

  lemma AppUrl(b: Blanks, lines: seq<string>)
    ensures AppDsn(Values(ReaderOf(b), lines))
         == UrlText("soc360_app", Value(b, lines, "APP_DB_PASSWORD"), NameOfDatabase(b, lines))
  {
    DsnText("soc360_app", Value(b, lines, "APP_DB_PASSWORD"), NameOfDatabase(b, lines));
  }

  lemma OwnerUrl(b: Blanks, lines: seq<string>)
    ensures OwnerDsn(Values(ReaderOf(b), lines))
         == UrlText("soc360_migration", Value(b, lines, "POSTGRES_PASSWORD"), NameOfDatabase(b, lines))
  {
    DsnText("soc360_migration", Value(b, lines, "POSTGRES_PASSWORD"), NameOfDatabase(b, lines));
  }

  lemma FinishedHasUrls(reader: Reader, example: map<string, string>, lines: seq<string>)
    requires Finished(reader, example, lines)
    ensures Derived(reader, lines, STACK_DB_DSN, AppDsn(Values(reader, lines)))
    ensures Derived(reader, lines, STACK_DB_MIGRATION_DSN, OwnerDsn(Values(reader, lines)))
  {
  }

  lemma DerivedUrls(b: Blanks, lines: seq<string>, app: string, owner: string)
    requires Derived(ReaderOf(b), lines, STACK_DB_DSN, app) && Derived(ReaderOf(b), lines, STACK_DB_MIGRATION_DSN, owner)
    ensures FirstIs(b, lines, STACK_DB_DSN, STACK_DB_DSN + "=" + app)
    ensures FirstIs(b, lines, STACK_DB_MIGRATION_DSN, STACK_DB_MIGRATION_DSN + "=" + owner)
  {
    DerivedIsFirst(b, lines, STACK_DB_DSN, app);
    DerivedIsFirst(b, lines, STACK_DB_MIGRATION_DSN, owner);
  }

  /** The two connection URLs: the application role with its own password, the owner
      with the database's, the database named by the file, each read back from the
      lines written. */
  lemma UrlsAreDerived(b: Blanks, example: map<string, string>, generate: Generator, lines: seq<string>)
    requires b.Valid() && Fresh(generate)
    ensures var after := Rewritten(ReaderOf(b), example, generate, lines);
            var database := NameOfDatabase(b, after);
            && FirstIs(b, after, "STACK_DB_DSN",
                       "STACK_DB_DSN" + "=" + UrlText("soc360_app", Value(b, after, "APP_DB_PASSWORD"), database))
            && FirstIs(b, after, "STACK_DB_MIGRATION_DSN",
                       "STACK_DB_MIGRATION_DSN" + "="
                       + UrlText("soc360_migration", Value(b, after, "POSTGRES_PASSWORD"), database))
  {
    ReaderIsFaithful(b);
    var after := Rewritten(ReaderOf(b), example, generate, lines);
    RewrittenIsFinished(ReaderOf(b), example, generate, lines);
    FinishedHasUrls(ReaderOf(b), example, after);
    UrlsOf(b, after);
  }

  lemma UrlsOf(b: Blanks, after: seq<string>)
    requires Derived(ReaderOf(b), after, STACK_DB_DSN, AppDsn(Values(ReaderOf(b), after)))
    requires Derived(ReaderOf(b), after, STACK_DB_MIGRATION_DSN, OwnerDsn(Values(ReaderOf(b), after)))
    ensures var database := NameOfDatabase(b, after);
            && FirstIs(b, after, STACK_DB_DSN,
                       STACK_DB_DSN + "=" + UrlText("soc360_app", Value(b, after, "APP_DB_PASSWORD"), database))
            && FirstIs(b, after, STACK_DB_MIGRATION_DSN,
                       STACK_DB_MIGRATION_DSN + "="
                       + UrlText("soc360_migration", Value(b, after, "POSTGRES_PASSWORD"), database))
  {
    AppUrl(b, after);
    OwnerUrl(b, after);
    DerivedUrls(b, after, AppDsn(Values(ReaderOf(b), after)), OwnerDsn(Values(ReaderOf(b), after)));
  }

  /** The line assigns the key. */
  predicate Assigns(b: Blanks, line: string, key: string) {
    Parse(b, line).Some? && Parse(b, line).value.name == key
  }

  lemma SeenIsAssigned(b: Blanks, lines: seq<string>, key: string)
    requires key in Seen(Names(ReaderOf(b), lines))
    ensures exists i | 0 <= i < |lines| :: Assigns(b, lines[i], key)
  {
    var names := Names(ReaderOf(b), lines);
    assert Some(key) in names;
    var i :| 0 <= i < |names| && names[i] == Some(key);
    assert Named(ReaderOf(b), lines[i]) == Some(key) && Assigns(b, lines[i], key);
  }

  lemma SettledSecret(b: Blanks, example: map<string, string>, line: string, key: string)
    requires Settled(ReaderOf(b), example, line) && key in SECRETS && Assigns(b, line, key)
    ensures !Empty(b, line)
  {
    KeysAre();
  }

  /** The file has to assign the key. */
  predicate Wanted(example: map<string, string>, key: string) {
    key in SECRETS || (key in LOGINS && key in example && example[key] != "")
  }

  /** Every secret is assigned, none of its assignments is empty, and every login the
      example documents is assigned. */
  lemma NothingIsLeftEmpty(b: Blanks, example: map<string, string>, generate: Generator, lines: seq<string>, key: string)
    requires b.Valid() && Fresh(generate)
    ensures var after := Rewritten(ReaderOf(b), example, generate, lines);
            && (Wanted(example, key) ==> exists i | 0 <= i < |after| :: Assigns(b, after[i], key))
            && (key in SECRETS ==> forall i | 0 <= i < |after| && Assigns(b, after[i], key) :: !Empty(b, after[i]))
  {
    ReaderIsFaithful(b);
    RewrittenIsFinished(ReaderOf(b), example, generate, lines);
    var after := Rewritten(ReaderOf(b), example, generate, lines);
    if Wanted(example, key) {
      WantedIsSeen(example, Seen(Names(ReaderOf(b), after)), key);
      SeenIsAssigned(b, after, key);
    }
    forall i | 0 <= i < |after| && Assigns(b, after[i], key) && key in SECRETS ensures !Empty(b, after[i]) {
      SecretsAreFull(b, example, after, key, i);
    }
  }

  lemma WantedIsSeen(example: map<string, string>, seen: set<string>, key: string)
    requires Complete(example, seen) && Wanted(example, key)
    ensures key in seen
  {
    KeysAre();
  }

  lemma SecretsAreFull(b: Blanks, example: map<string, string>, after: seq<string>, key: string, i: nat)
    requires AllSettled(ReaderOf(b), example, after) && key in SECRETS && i < |after| && Assigns(b, after[i], key)
    ensures !Empty(b, after[i])
  {
    SettledSecret(b, example, after[i], key);
  }

  // ---- The lines behind the input ----

  ghost predicate AssignedIn(b: Blanks, lines: seq<string>, key: string) {
    exists i | 0 <= i < |lines| :: Assigns(b, lines[i], key)
  }

  /** A secret the input assigns nowhere. */
  ghost predicate NewSecret(b: Blanks, secrets: set<string>, generate: Generator, lines: seq<string>, line: string, at: nat) {
    exists key | key in secrets :: !AssignedIn(b, lines, key) && line == key + "=" + generate(key, at)
  }

  /** A login of the example that the input assigns nowhere. */
  ghost predicate NewLogin(b: Blanks, logins: set<string>, example: map<string, string>, lines: seq<string>, line: string) {
    exists key | key in logins && key in example ::
      !AssignedIn(b, lines, key) && example[key] != "" && line == key + "=" + example[key]
  }

  predicate Heading(line: string) {
    line == "" || line == "#" + " Generated by scripts/demo_bootstrap.py for the product stack."
  }

  lemma LineOf(key: string, value: string)
    ensures AssignmentLine("", key, value) == key + "=" + value
  {
    assert "" + key == key;
  }

  lemma {:induction false} GeneratedAt(generate: Generator, keys: seq<string>, at: nat, j: nat)
    requires j < |keys|
    ensures var made := Generated(generate, keys, at);
            |made| == |keys| && made[j] == keys[j] + "=" + generate(keys[j], at + j)
    decreases |keys|
  {
    GeneratedCount(generate, keys, at);
    LineOf(keys[0], generate(keys[0], at));
    if j > 0 {
      GeneratedAt(generate, keys[1..], at + 1, j - 1);
    }
  }

  lemma {:induction false} GeneratedCount(generate: Generator, keys: seq<string>, at: nat)
    ensures |Generated(generate, keys, at)| == |keys|
    decreases |keys|
  {
    if keys != [] {
      GeneratedCount(generate, keys[1..], at + 1);
    }
  }

  lemma {:induction false} DemoLinesFrom(example: map<string, string>, keys: seq<string>, seen: set<string>, line: string)
    returns (key: string)
    requires line in DemoLines(example, keys, seen)
    ensures key in keys && key !in seen && key in example && example[key] != "" && line == key + "=" + example[key]
    decreases |keys|
  {
    if line in DemoLines(example, keys[1..], seen) {
      key := DemoLinesFrom(example, keys[1..], seen, line);
    } else {
      key := keys[0];
      LineOf(key, Get(example, key));
    }
  }

  lemma NotSeen(b: Blanks, lines: seq<string>, key: string)
    requires key !in Seen(Names(ReaderOf(b), lines))
    ensures !AssignedIn(b, lines, key)
  {
    var names := Names(ReaderOf(b), lines);
    assert Some(key) !in names;
    forall i | 0 <= i < |lines| ensures !Assigns(b, lines[i], key) {
      assert names[i] in names && names[i] == Named(ReaderOf(b), lines[i]);
    }
  }

  /** The keys of the two tables. */
  ghost predicate Tables(secrets: set<string>, logins: set<string>) {
    && (forall key | key in FILL_IF_EMPTY :: key in secrets)
    && (forall key | key in DEMO_KEYS :: key in logins)
  }

  lemma MissingIsSecret(b: Blanks, secrets: set<string>, logins: set<string>, lines: seq<string>, key: string)
    requires Tables(secrets, logins) && key in Missing(FILL_IF_EMPTY, Seen(Names(ReaderOf(b), lines)))
    ensures key in secrets && !AssignedIn(b, lines, key)
  {
    MissingKeys(FILL_IF_EMPTY, Seen(Names(ReaderOf(b), lines)));
    NotSeen(b, lines, key);
  }

  lemma DemoIsNew(b: Blanks, secrets: set<string>, logins: set<string>, example: map<string, string>, lines: seq<string>,
                  line: string)
    requires Tables(secrets, logins) && line in DemoLines(example, DEMO_KEYS, Seen(Names(ReaderOf(b), lines)))
    ensures NewLogin(b, logins, example, lines, line)
  {
    var key := DemoLinesFrom(example, DEMO_KEYS, Seen(Names(ReaderOf(b), lines)), line);
    NotSeen(b, lines, key);
  }

  lemma InThree(a: seq<string>, made: seq<string>, c: seq<string>, j: nat)
    requires |a| == 2 && j < |(a + made) + c|
    ensures ((a + made) + c)[j] == if j < 2 then a[j] else if j < 2 + |made| then made[j - 2] else c[j - 2 - |made|]
  {
  }

  lemma Parts(b: Blanks, secrets: set<string>, logins: set<string>, example: map<string, string>, generate: Generator,
              lines: seq<string>) returns (missing: seq<string>, demo: seq<string>)
    requires Tables(secrets, logins)
    ensures Additions(example, generate, Seen(Names(ReaderOf(b), lines)), |lines|)
         == (if missing == [] then [] else ["", SECTION_HEADER] + Generated(generate, missing, |lines| + 2)) + demo
    ensures forall key | key in missing :: key in secrets && !AssignedIn(b, lines, key)
    ensures forall line | line in demo :: NewLogin(b, logins, example, lines, line)
  {
    var seen := Seen(Names(ReaderOf(b), lines));
    missing, demo := Missing(FILL_IF_EMPTY, seen), DemoLines(example, DEMO_KEYS, seen);
    forall key | key in missing ensures key in secrets && !AssignedIn(b, lines, key) {
      MissingIsSecret(b, secrets, logins, lines, key);
    }
    forall line | line in demo ensures NewLogin(b, logins, example, lines, line) {
      DemoIsNew(b, secrets, logins, example, lines, line);
    }
  }

  lemma PartIsNew(b: Blanks, secrets: set<string>, logins: set<string>, example: map<string, string>, generate: Generator,
                  lines: seq<string>, missing: seq<string>, demo: seq<string>, more: seq<string>, j: nat)
    requires more == (if missing == [] then [] else ["", SECTION_HEADER] + Generated(generate, missing, |lines| + 2)) + demo
    requires forall key | key in missing :: key in secrets && !AssignedIn(b, lines, key)
    requires forall line | line in demo :: NewLogin(b, logins, example, lines, line)
    requires j < |more|
    ensures || Heading(more[j]) || NewSecret(b, secrets, generate, lines, more[j], |lines| + j)
            || NewLogin(b, logins, example, lines, more[j])
  {
    if missing == [] {
      assert more[j] in demo;
    } else {
      var made := Generated(generate, missing, |lines| + 2);
      InThree(["", SECTION_HEADER], made, demo, j);
      GeneratedCount(generate, missing, |lines| + 2);
      if j >= 2 + |made| {
        assert demo[j - 2 - |made|] in demo;
      } else if j >= 2 {
        GeneratedAt(generate, missing, |lines| + 2, j - 2);
        assert missing[j - 2] in missing;
      }
    }
  }

  ghost predicate AllNew(b: Blanks, secrets: set<string>, logins: set<string>, example: map<string, string>,
                         generate: Generator, lines: seq<string>, more: seq<string>) {
    forall j | 0 <= j < |more| ::
      || Heading(more[j]) || NewSecret(b, secrets, generate, lines, more[j], |lines| + j)
      || NewLogin(b, logins, example, lines, more[j])
  }

  lemma PartsAreNew(b: Blanks, secrets: set<string>, logins: set<string>, example: map<string, string>,
                    generate: Generator, lines: seq<string>, missing: seq<string>, demo: seq<string>, more: seq<string>)
    requires more == (if missing == [] then [] else ["", SECTION_HEADER] + Generated(generate, missing, |lines| + 2)) + demo
    requires forall key | key in missing :: key in secrets && !AssignedIn(b, lines, key)
    requires forall line | line in demo :: NewLogin(b, logins, example, lines, line)
    ensures AllNew(b, secrets, logins, example, generate, lines, more)
  {
    forall j | 0 <= j < |more|
      ensures || Heading(more[j]) || NewSecret(b, secrets, generate, lines, more[j], |lines| + j)
              || NewLogin(b, logins, example, lines, more[j])
    {
      PartIsNew(b, secrets, logins, example, generate, lines, missing, demo, more, j);
    }
  }

  lemma AdditionsAreNew(b: Blanks, secrets: set<string>, logins: set<string>, example: map<string, string>,
                        generate: Generator, lines: seq<string>)
    requires Tables(secrets, logins)
    ensures AllNew(b, secrets, logins, example, generate, lines,
                   Additions(example, generate, Seen(Names(ReaderOf(b), lines)), |lines|))
  {
    var missing, demo := Parts(b, secrets, logins, example, generate, lines);
    PartsAreNew(b, secrets, logins, example, generate, lines, missing, demo,
                Additions(example, generate, Seen(Names(ReaderOf(b), lines)), |lines|));
  }

  lemma CompletedIs(reader: Reader, example: map<string, string>, generate: Generator, lines: seq<string>)
    returns (filled: seq<string>, more: seq<string>)
    ensures |filled| == |lines| && Completed(reader, example, generate, lines) == filled + more
    ensures more == Additions(example, generate, Seen(Names(reader, lines)), |lines|)
  {
    filled := Fill(reader, example, generate, lines);
    more := Additions(example, generate, Seen(Names(reader, lines)), |lines|);
  }

  lemma DerivedIsNew(b: Blanks, secrets: set<string>, logins: set<string>, example: map<string, string>, generate: Generator,
                     lines: seq<string>, filled: seq<string>, more: seq<string>, app: string, owner: string, i: nat)
    requires b.Valid() && |filled| == |lines| && AllNew(b, secrets, logins, example, generate, lines, more)
    requires |lines| <= i < |Derive(ReaderOf(b), Derive(ReaderOf(b), filled + more, STACK_DB_DSN, app), STACK_DB_MIGRATION_DSN, owner)|
    ensures var line := Derive(ReaderOf(b), Derive(ReaderOf(b), filled + more, STACK_DB_DSN, app), STACK_DB_MIGRATION_DSN, owner)[i];
            || Heading(line) || NewSecret(b, secrets, generate, lines, line, i) || NewLogin(b, logins, example, lines, line)
            || Assigns(b, line, STACK_DB_DSN) || Assigns(b, line, STACK_DB_MIGRATION_DSN)
  {
    DerivedAt(b, filled + more, app, owner, i);
    LineIsNew(b, secrets, logins, example, generate, lines, filled, more,
              Derive(ReaderOf(b), Derive(ReaderOf(b), filled + more, STACK_DB_DSN, app), STACK_DB_MIGRATION_DSN, owner)[i], i);
  }

  lemma LineIsNew(b: Blanks, secrets: set<string>, logins: set<string>, example: map<string, string>, generate: Generator,
                  lines: seq<string>, filled: seq<string>, more: seq<string>, line: string, i: nat)
    requires |filled| == |lines| && AllNew(b, secrets, logins, example, generate, lines, more) && |lines| <= i
    requires || (i < |filled + more| && line == (filled + more)[i])
             || Assigns(b, line, STACK_DB_DSN) || Assigns(b, line, STACK_DB_MIGRATION_DSN)
    ensures || Heading(line) || NewSecret(b, secrets, generate, lines, line, i) || NewLogin(b, logins, example, lines, line)
            || Assigns(b, line, STACK_DB_DSN) || Assigns(b, line, STACK_DB_MIGRATION_DSN)
  {
    if i < |filled + more| {
      assert (filled + more)[i] == more[i - |lines|];
    }
  }

  lemma AppendedIsNew(b: Blanks, secrets: set<string>, logins: set<string>, example: map<string, string>,
                      generate: Generator, lines: seq<string>, i: nat)
    requires b.Valid() && Tables(secrets, logins)
    requires |lines| <= i < |Rewritten(ReaderOf(b), example, generate, lines)|
    ensures var line := Rewritten(ReaderOf(b), example, generate, lines)[i];
            || Heading(line) || NewSecret(b, secrets, generate, lines, line, i) || NewLogin(b, logins, example, lines, line)
            || Assigns(b, line, STACK_DB_DSN) || Assigns(b, line, STACK_DB_MIGRATION_DSN)
  {
    var filled, more := CompletedIs(ReaderOf(b), example, generate, lines);
    var values := Values(ReaderOf(b), filled + more);
    AdditionsAreNew(b, secrets, logins, example, generate, lines);
    DerivedIsNew(b, secrets, logins, example, generate, lines, filled, more, AppDsn(values), OwnerDsn(values), i);
  }

  /** Behind the lines of the input stand only what it lacks: a blank line and the
      header, secrets and documented logins that it assigns nowhere, and the
      connection URLs. */
  lemma NothingElseIsAppended(b: Blanks, example: map<string, string>, generate: Generator, lines: seq<string>, i: nat)
    requires b.Valid()
    requires |lines| <= i < |Rewritten(ReaderOf(b), example, generate, lines)|
    ensures var line := Rewritten(ReaderOf(b), example, generate, lines)[i];
            || Heading(line) || NewSecret(b, SECRETS, generate, lines, line, i) || NewLogin(b, LOGINS, example, lines, line)
            || Assigns(b, line, "STACK_DB_DSN") || Assigns(b, line, "STACK_DB_MIGRATION_DSN")
  {
    KeysAre();
    AppendedIsNew(b, SECRETS, LOGINS, example, generate, lines, i);
  }

  /** Deriving both URLs leaves a line as it is or makes it one of them. */
  lemma DerivedAt(b: Blanks, lines: seq<string>, app: string, owner: string, i: nat)
    requires b.Valid()
    requires i < |Derive(ReaderOf(b), Derive(ReaderOf(b), lines, STACK_DB_DSN, app), STACK_DB_MIGRATION_DSN, owner)|
    ensures var line := Derive(ReaderOf(b), Derive(ReaderOf(b), lines, STACK_DB_DSN, app), STACK_DB_MIGRATION_DSN, owner)[i];
            || (i < |lines| && line == lines[i])
            || Assigns(b, line, STACK_DB_DSN) || Assigns(b, line, STACK_DB_MIGRATION_DSN)
  {
    ReaderIsFaithful(b);
    KeysAreNames(STACK_DB_DSN);
    KeysAreNames(STACK_DB_MIGRATION_DSN);
    var reader := ReaderOf(b);
    var first := Derive(reader, lines, STACK_DB_DSN, app);
    DerivedOnce(b, first, STACK_DB_MIGRATION_DSN, owner, i);
    if i < |first| {
      DerivedOnce(b, lines, STACK_DB_DSN, app, i);
    }
  }

  lemma DerivedOnce(b: Blanks, lines: seq<string>, key: string, value: string, i: nat)
    requires Faithful(ReaderOf(b)) && ValidName(key) && i < |Derive(ReaderOf(b), lines, key, value)|
    ensures var line := Derive(ReaderOf(b), lines, key, value)[i]; (i < |lines| && line == lines[i]) || Assigns(b, line, key)
  {
    DerivedLine(ReaderOf(b), lines, key, value);
  }
}
