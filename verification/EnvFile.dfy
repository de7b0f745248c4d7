/** Preparing the local .env (scripts/demo_bootstrap.py): the line parser and the
    rewriting passes. Lines hold no line break. */
module EnvFile {
  import opened Wrappers

  /** `\s` and `str.strip` know more blanks than ASCII; these facts are what counts. */
  datatype Blanks = Blanks(space: char -> bool) {
    ghost predicate Valid() {
      && space(' ')
      && (forall c | NameChar(c) || c in {'=', '#', '-', '\'', '"'} :: !space(c))
    }
  }

  predicate NameStart(c: char) {
    'A' <= c <= 'Z' || 'a' <= c <= 'z' || c == '_'
  }

  predicate NameChar(c: char) {
    NameStart(c) || '0' <= c <= '9'
  }

  // ---- The parser ----

  function SpaceRun(b: Blanks, s: string): (n: nat)
    ensures n <= |s|
  {
    if s == [] || !b.space(s[0]) then 0 else 1 + SpaceRun(b, s[1..])
  }

  lemma {:induction false} SpaceRunIs(b: Blanks, s: string)
    ensures var n := SpaceRun(b, s); (forall i | 0 <= i < n :: b.space(s[i])) && (n < |s| ==> !b.space(s[n]))
  {
    if s != [] && b.space(s[0]) {
      SpaceRunIs(b, s[1..]);
    }
  }

  function NameRun(s: string): (n: nat)
    ensures n <= |s| && (forall i | 0 <= i < n :: NameChar(s[i])) && (n < |s| ==> !NameChar(s[n]))
  {
    if s == [] || !NameChar(s[0]) then 0 else 1 + NameRun(s[1..])
  }

  function LStrip(b: Blanks, s: string): string {
    s[SpaceRun(b, s)..]
  }

  datatype Assignment = Assignment(prefix: string, name: string, value: string)

  /** The pattern after its prefix: name, equals sign, value. */
  function ParseName(b: Blanks, prefix: string, s: string): Option<Assignment> {
    if s == [] || !NameStart(s[0]) then None
    else
      var n := NameRun(s);
      var rest := LStrip(b, s[n..]);
      if rest == [] || rest[0] != '=' then None
      else Some(Assignment(prefix, s[..n], LStrip(b, rest[1..])))
  }

  predicate StartsWith(s: string, t: string) {
    |t| <= |s| && s[..|t|] == t
  }

  predicate Exports(s: string) {
    |s| >= 6 && s[0] == 'e' && s[1] == 'x' && s[2] == 'p' && s[3] == 'o' && s[4] == 'r' && s[5] == 't'
  }

  /** Where the blanks after a leading `export` end; 0 if there is none. */
  function ExportEnd(b: Blanks, line: string): (e: nat)
    ensures e <= |line|
  {
    var a := SpaceRun(b, line);
    var rest := line[a..];
    if Exports(rest) && SpaceRun(b, rest[6..]) > 0 then a + 6 + SpaceRun(b, rest[6..]) else 0
  }

  function ParseAt(b: Blanks, line: string, at: nat): Option<Assignment>
    requires at <= |line|
  {
    ParseName(b, line[..at], line[at..])
  }

  /** `_assignment`: the optional `export` is tried first, and given up when no
      assignment follows it. */
  function Parse(b: Blanks, line: string): Option<Assignment> {
    var e := ExportEnd(b, line);
    if e > 0 && ParseAt(b, line, e).Some? then ParseAt(b, line, e) else ParseAt(b, line, SpaceRun(b, line))
  }

  /** `_assignment_line`. */
  function AssignmentLine(prefix: string, key: string, value: string): string {
    prefix + key + "=" + value
  }

  predicate AllSpace(b: Blanks, s: string) {
    forall i | 0 <= i < |s| :: b.space(s[i])
  }

  /** Blanks, `export`, blanks. */
  predicate ExportsAt(b: Blanks, p: string, a: nat) {
    a + 6 < |p| && AllSpace(b, p[..a]) && Exports(p[a..]) && AllSpace(b, p[a + 6..])
  }

  predicate ValidPrefix(b: Blanks, p: string) {
    AllSpace(b, p) || exists a | 0 <= a < |p| :: ExportsAt(b, p, a)
  }

  predicate ValidName(s: string) {
    s != [] && NameStart(s[0]) && forall i | 0 <= i < |s| :: NameChar(s[i])
  }

  /** The run of blanks, and the run of name characters, before something else. */
  lemma {:induction false} SpaceRunOf(b: Blanks, s: string, t: string)
    requires AllSpace(b, s) && (t == [] || !b.space(t[0]))
    ensures SpaceRun(b, s + t) == |s|
  {
    SpaceRunIs(b, s + t);
    assert forall i | 0 <= i < |s| :: (s + t)[i] == s[i];
    assert t != [] ==> (s + t)[|s|] == t[0];
  }

  lemma {:induction false} NameRunOf(s: string, t: string)
    requires (forall i | 0 <= i < |s| :: NameChar(s[i])) && (t == [] || !NameChar(t[0]))
    ensures NameRun(s + t) == |s|
  {
    var n := NameRun(s + t);
    assert forall i | 0 <= i < |s| :: (s + t)[i] == s[i];
    assert t != [] ==> (s + t)[|s|] == t[0];
  }

  lemma ParseNameOf(b: Blanks, prefix: string, name: string, value: string)
    requires b.Valid() && ValidName(name)
    ensures ParseName(b, prefix, name + "=" + value) == Some(Assignment(prefix, name, LStrip(b, value)))
  {
    var s := name + "=" + value;
    assert s == name + ("=" + value);
    NameRunOf(name, "=" + value);
    var rest := s[|name|..];
    assert rest == "=" + value && SpaceRun(b, rest) == 0;
    assert rest[1..] == value;
    assert s[..|name|] == name && s[0] == name[0];
  }

  lemma Cut(s: string, t: string)
    ensures (s + t)[..|s|] == s && (s + t)[|s|..] == t
  {
  }

  /** A name is not read as `export` and another name. */
  lemma NameIsNoExport(b: Blanks, name: string, value: string)
    requires b.Valid() && ValidName(name)
    ensures var tail := name + "=" + value; !(Exports(tail) && SpaceRun(b, tail[6..]) > 0)
  {
    var tail := name + "=" + value;
    assert tail[|name|] == '=';
    assert forall i | 0 <= i < |name| :: tail[i] == name[i];
    if Exports(tail) && |tail| > 6 {
      assert tail[6..][0] == tail[6] && (tail[6] == '=' || NameChar(tail[6]));
    }
  }

  lemma PlainEnd(b: Blanks, prefix: string, tail: string)
    requires AllSpace(b, prefix) && tail != [] && !b.space(tail[0]) && !(Exports(tail) && SpaceRun(b, tail[6..]) > 0)
    ensures SpaceRun(b, prefix + tail) == |prefix| && ExportEnd(b, prefix + tail) == 0
  {
    SpaceRunOf(b, prefix, tail);
    Cut(prefix, tail);
  }

  lemma PlainParse(b: Blanks, prefix: string, tail: string)
    requires AllSpace(b, prefix) && tail != [] && !b.space(tail[0]) && !(Exports(tail) && SpaceRun(b, tail[6..]) > 0)
    ensures Parse(b, prefix + tail) == ParseName(b, prefix, tail)
  {
    PlainEnd(b, prefix, tail);
    Cut(prefix, tail);
  }

  lemma ExportedEnd(b: Blanks, front: string, word: string, back: string, tail: string)
    requires AllSpace(b, front) && AllSpace(b, back) && back != [] && |word| == 6 && Exports(word) && !b.space('e')
    requires tail != [] && !b.space(tail[0])
    ensures ExportEnd(b, front + (word + (back + tail))) == |front| + 6 + |back|
  {
    var rest := word + (back + tail);
    SpaceRunOf(b, front, rest);
    Cut(front, rest);
    Cut(word, back + tail);
    SpaceRunOf(b, back, tail);
  }

  lemma InThree(prefix: string, a: nat, tail: string)
    requires a + 6 <= |prefix|
    ensures prefix + tail == prefix[..a] + (prefix[a..][..6] + (prefix[a + 6..] + tail))
  {
    var front, word, back := prefix[..a], prefix[a..][..6], prefix[a + 6..];
    assert prefix == (front + word) + back;
    assert (front + word) + back + tail == (front + word) + (back + tail);
    assert (front + word) + (back + tail) == front + (word + (back + tail));
  }

  lemma ParseAfterExport(b: Blanks, prefix: string, tail: string)
    requires prefix != [] && ExportEnd(b, prefix + tail) == |prefix| && ParseName(b, prefix, tail).Some?
    ensures Parse(b, prefix + tail) == ParseName(b, prefix, tail)
  {
    Cut(prefix, tail);
  }

  lemma ExportedParse(b: Blanks, prefix: string, a: nat, tail: string)
    requires b.Valid() && ExportsAt(b, prefix, a) && tail != [] && !b.space(tail[0])
    requires ParseName(b, prefix, tail).Some?
    ensures Parse(b, prefix + tail) == ParseName(b, prefix, tail)
  {
    ExportedEnd(b, prefix[..a], prefix[a..][..6], prefix[a + 6..], tail);
    InThree(prefix, a, tail);
    ParseAfterExport(b, prefix, tail);
  }

  /** Parsing an assembled line gives back its parts, the value without its leading
      blanks. */
  lemma ParseInvertsAssembly(b: Blanks, prefix: string, name: string, value: string)
    requires b.Valid() && ValidPrefix(b, prefix) && ValidName(name)
    ensures Parse(b, AssignmentLine(prefix, name, value)) == Some(Assignment(prefix, name, LStrip(b, value)))
  {
    var tail := name + "=" + value;
    assert AssignmentLine(prefix, name, value) == prefix + tail;
    assert tail[0] == name[0];
    ParseNameOf(b, prefix, name, value);
    if AllSpace(b, prefix) {
      NameIsNoExport(b, name, value);
      PlainParse(b, prefix, tail);
    } else {
      var a :| 0 <= a < |prefix| && ExportsAt(b, prefix, a);
      ExportedParse(b, prefix, a, tail);
    }
  }

  lemma ParseNameParts(b: Blanks, prefix: string, s: string)
    ensures ParseName(b, prefix, s).Some? ==>
              ParseName(b, prefix, s).value.prefix == prefix && ValidName(ParseName(b, prefix, s).value.name)
  {
    if s != [] && NameStart(s[0]) {
      assert NameRun(s) > 0;
    }
  }

  lemma ExportEndIsValid(b: Blanks, line: string)
    requires ExportEnd(b, line) > 0
    ensures ValidPrefix(b, line[..ExportEnd(b, line)])
  {
    var a := SpaceRun(b, line);
    var rest := line[a..];
    var back := rest[6..];
    var k := SpaceRun(b, back);
    SpaceRunIs(b, line);
    SpaceRunIs(b, back);
    ExportPiece(b, line, a, k);
  }

  lemma ExportPiece(b: Blanks, line: string, a: nat, k: nat)
    requires a + 6 + k <= |line| && AllSpace(b, line[..a]) && StartsWith(line[a..], "export")
    requires k > 0 && AllSpace(b, line[a..][6..][..k])
    ensures ValidPrefix(b, line[..a + 6 + k])
  {
    var rest := line[a..];
    var back := rest[6..];
    var p := line[..a + 6 + k];
    assert p[..a] == line[..a] && p[a + 6..] == back[..k];
    assert forall i | 0 <= i < 6 :: p[a..][i] == rest[i];
    assert ExportsAt(b, p, a);
  }

  lemma ParsedPartsAreValid(b: Blanks, line: string)
    requires Parse(b, line).Some?
    ensures ValidPrefix(b, Parse(b, line).value.prefix) && ValidName(Parse(b, line).value.name)
  {
    var a, e := SpaceRun(b, line), ExportEnd(b, line);
    SpaceRunIs(b, line);
    assert AllSpace(b, line[..a]);
    ParseNameParts(b, line[..a], line[a..]);
    ParseNameParts(b, line[..e], line[e..]);
    if e > 0 {
      ExportEndIsValid(b, line);
    }
  }

  // ---- Values ----

  /** Where the first " #" starts, or the length. */
  function CommentAt(s: string): (n: nat)
    ensures n <= |s|
  {
    if s == [] then 0 else if StartsWith(s, " #") then 0 else 1 + CommentAt(s[1..])
  }

  function RStrip(b: Blanks, s: string): string {
    if s == [] || !b.space(s[|s| - 1]) then s else RStrip(b, s[..|s| - 1])
  }

  /** `_bare_value`. */
  function Bare(b: Blanks, raw: string): string {
    var value := RStrip(b, LStrip(b, raw[..CommentAt(raw)]));
    if |value| >= 2 && value[0] == value[|value| - 1] && value[0] in {'\'', '"'} then value[1..|value| - 1] else value
  }

  /** The alphabet of generated secrets. */
  predicate UrlSafe(s: string) {
    s != [] && forall i | 0 <= i < |s| :: NameChar(s[i]) || s[i] == '-'
  }

  lemma {:induction false} NoCommentIn(s: string)
    requires forall i | 0 <= i < |s| :: s[i] != ' '
    ensures CommentAt(s) == |s|
  {
    if s != [] {
      NoCommentIn(s[1..]);
      assert |s| >= 2 ==> s[..2][0] == s[0] != " #"[0];
    }
  }

  /** A generated secret is read back as it is. */
  lemma UrlSafeIsBare(b: Blanks, s: string)
    requires b.Valid() && UrlSafe(s)
    ensures Bare(b, s) == s && LStrip(b, s) == s
  {
    NoCommentIn(s);
    assert s[..|s|] == s;
  }

  // ---- The passes ----

  /** The two functions the passes read lines with, and what is known of them. */
  datatype Reader = Reader(parse: string -> Option<Assignment>, bare: string -> string, strip: string -> string,
                           fits: string -> bool)

  function ReaderOf(b: Blanks): Reader {
    Reader(line => Parse(b, line), raw => Bare(b, raw), s => LStrip(b, s), p => ValidPrefix(b, p))
  }

  ghost predicate Faithful(reader: Reader) {
    && (forall prefix, name, value | reader.fits(prefix) && ValidName(name) ::
          reader.parse(AssignmentLine(prefix, name, value)) == Some(Assignment(prefix, name, reader.strip(value))))
    && (forall line :: reader.parse(line).Some? ==>
          reader.fits(reader.parse(line).value.prefix) && ValidName(reader.parse(line).value.name))
    && reader.fits("") && reader.parse("") == None && reader.parse(SECTION_HEADER) == None
    && (forall s | UrlSafe(s) :: reader.bare(reader.strip(s)) == s)
  }

  lemma ReaderIsFaithful(b: Blanks)
    requires b.Valid()
    ensures Faithful(ReaderOf(b))
  {
    var reader := ReaderOf(b);
    forall prefix, name, value | reader.fits(prefix) && ValidName(name)
      ensures reader.parse(AssignmentLine(prefix, name, value)) == Some(Assignment(prefix, name, reader.strip(value)))
    {
      ParseInvertsAssembly(b, prefix, name, value);
    }
    forall line | reader.parse(line).Some?
      ensures reader.fits(reader.parse(line).value.prefix) && ValidName(reader.parse(line).value.name)
    {
      ParsedPartsAreValid(b, line);
    }
    forall s | UrlSafe(s) ensures reader.bare(reader.strip(s)) == s {
      UrlSafeIsBare(b, s);
    }
    NoAssignment(b, "");
    assert SECTION_HEADER[0] == '#';
    NoAssignment(b, SECTION_HEADER);
  }

  /** A blank line and a comment are no assignments. */
  lemma NoAssignment(b: Blanks, line: string)
    requires line == "" || (!NameStart(line[0]) && !b.space(line[0]))
    ensures Parse(b, line) == None
  {
    assert SpaceRun(b, line) == 0 && line[0..] == line;
  }

  const FILL_IF_EMPTY := ["SECRET_KEY", "LOCK_KEY_SECRET", "POSTGRES_PASSWORD", "APP_DB_PASSWORD"]
  const DEMO_KEYS := ["SEED_SUPERADMIN_PASSWORD", "SEED_ADMIN_PASSWORD", "SEED_ANALYST_PASSWORD", "SEED_VIEWER_PASSWORD"]
  const GROQ_PLACEHOLDER := "gsk_demo_placeholder_enrichment_disabled"
  const STACK_DB_DSN := "STACK_DB_DSN"
  const STACK_DB_MIGRATION_DSN := "STACK_DB_MIGRATION_DSN"
  const SECTION_HEADER := "#" + " Generated by scripts/demo_bootstrap.py for the product stack."

  function Dsn(role: string, value: string, database: string): string {
    "postgresql+asyncpg" + "://" + role + ":" + value + "@" + "postgres" + ":" + "5432" + "/" + database
  }

  /** The values of the assignments; the last one of a name counts. */
  function Values(reader: Reader, lines: seq<string>): map<string, string> {
    if lines == [] then map[]
    else
      var n := |lines| - 1;
      var parsed := reader.parse(lines[n]);
      if parsed.None? then Values(reader, lines[..n])
      else Values(reader, lines[..n])[parsed.value.name := reader.bare(parsed.value.value)]
  }

  function Get(m: map<string, string>, key: string): string {
    if key in m then m[key] else ""
  }

  function Named(reader: Reader, line: string): Option<string> {
    var parsed := reader.parse(line);
    if parsed.Some? then Some(parsed.value.name) else None
  }

  function Names(reader: Reader, lines: seq<string>): (names: seq<Option<string>>)
    ensures |names| == |lines| && forall i | 0 <= i < |lines| :: names[i] == Named(reader, lines[i])
  {
    if lines == [] then [] else Names(reader, lines[..|lines| - 1]) + [Named(reader, lines[|lines| - 1])]
  }

  function Seen(names: seq<Option<string>>): set<string> {
    set name | name in names && name.Some? :: name.value
  }

  /** What an empty assignment is filled with: a fresh secret, the placeholder or
      the documented demo login. */
  function Filling(example: map<string, string>, generate: (string, nat) -> string, name: string, at: nat): Option<string> {
    if name in FILL_IF_EMPTY then Some(generate(name, at))
    else if name == "GROQ_API_KEY" then Some(GROQ_PLACEHOLDER)
    else if name in DEMO_KEYS && Get(example, name) != "" then Some(Get(example, name))
    else None
  }

  function FillLine(reader: Reader, example: map<string, string>, generate: (string, nat) -> string, line: string, at: nat): string {
    var parsed := reader.parse(line);
    if parsed.None? || reader.bare(parsed.value.value) != "" then line
    else
      var filling := Filling(example, generate, parsed.value.name, at);
      if filling.None? then line else AssignmentLine(parsed.value.prefix, parsed.value.name, filling.value)
  }

  function Fill(reader: Reader, example: map<string, string>, generate: (string, nat) -> string, lines: seq<string>)
    : (filled: seq<string>)
    ensures |filled| == |lines|
    ensures forall i | 0 <= i < |lines| :: filled[i] == FillLine(reader, example, generate, lines[i], i)
  {
    if lines == [] then []
    else
      var n := |lines| - 1;
      Fill(reader, example, generate, lines[..n]) + [FillLine(reader, example, generate, lines[n], n)]
  }

  function Missing(keys: seq<string>, seen: set<string>): seq<string> {
    if keys == [] then []
    else (if keys[0] in seen then [] else [keys[0]]) + Missing(keys[1..], seen)
  }

  function Generated(generate: (string, nat) -> string, keys: seq<string>, at: nat): seq<string> {
    if keys == [] then []
    else [AssignmentLine("", keys[0], generate(keys[0], at))] + Generated(generate, keys[1..], at + 1)
  }

  function DemoLines(example: map<string, string>, keys: seq<string>, seen: set<string>): seq<string> {
    if keys == [] then []
    else
      (if keys[0] in seen || Get(example, keys[0]) == "" then [] else [AssignmentLine("", keys[0], Get(example, keys[0]))])
      + DemoLines(example, keys[1..], seen)
  }

  function Additions(example: map<string, string>, generate: (string, nat) -> string, seen: set<string>, at: nat)
    : seq<string>
  {
    var missing := Missing(FILL_IF_EMPTY, seen);
    (if missing == [] then [] else ["", SECTION_HEADER] + Generated(generate, missing, at + 2))
    + DemoLines(example, DEMO_KEYS, seen)
  }

  /** The first assignment of `key`, or the length. */
  function FirstOf(names: seq<Option<string>>, key: string): (n: nat)
    ensures n <= |names| && (n < |names| ==> names[n] == Some(key))
    ensures forall i | 0 <= i < n :: names[i] != Some(key)
  {
    if names == [] || names[0] == Some(key) then 0 else 1 + FirstOf(names[1..], key)
  }

  function Derive(reader: Reader, lines: seq<string>, key: string, value: string): seq<string> {
    var n := FirstOf(Names(reader, lines), key);
    if n < |lines| then lines[n := AssignmentLine(reader.parse(lines[n]).value.prefix, key, value)]
    else lines + [AssignmentLine("", key, value)]
  }

  function Database(values: map<string, string>): string {
    if Get(values, "APP_DB_NAME") != "" then Get(values, "APP_DB_NAME") else "soc360"
  }

  function AppDsn(values: map<string, string>): string {
    Dsn("soc360_app", Get(values, "APP_DB_PASSWORD"), Database(values))
  }

  function OwnerDsn(values: map<string, string>): string {
    Dsn("soc360_migration", Get(values, "POSTGRES_PASSWORD"), Database(values))
  }

  function Completed(reader: Reader, example: map<string, string>, generate: (string, nat) -> string, lines: seq<string>)
    : seq<string>
  {
    Fill(reader, example, generate, lines) + Additions(example, generate, Seen(Names(reader, lines)), |lines|)
  }

  function Rewritten(reader: Reader, example: map<string, string>, generate: (string, nat) -> string, lines: seq<string>)
    : seq<string>
  {
    var completed := Completed(reader, example, generate, lines);
    var values := Values(reader, completed);
    Derive(reader, Derive(reader, completed, STACK_DB_DSN, AppDsn(values)), STACK_DB_MIGRATION_DSN, OwnerDsn(values))
  }
}
