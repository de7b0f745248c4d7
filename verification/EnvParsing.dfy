/** What a line of the .env means: exactly the language of the assignment pattern, and
    the value as its consumer reads it (scripts/demo_bootstrap.py). */
module EnvParsing {
  import opened Wrappers
  import opened EnvFile

  /** The pattern: prefix, name, blanks, equals sign, blanks, and the value. */
  ghost predicate Spells(b: Blanks, line: string, a: Assignment, gap: string, space: string) {
    && ValidPrefix(b, a.prefix) && ValidName(a.name) && AllSpace(b, gap) && AllSpace(b, space)
    && (a.value == "" || !b.space(a.value[0]))
    && line == a.prefix + (a.name + (gap + ("=" + (space + a.value))))
  }

  predicate Letter(c: char) {
    'a' <= c <= 'z' || 'A' <= c <= 'Z' || c == '_'
  }

  /** What a name is made of, and what a generated secret. */
  lemma AlphabetsInFull(s: string)
    ensures ValidName(s) <==>
            s != [] && Letter(s[0]) && forall i | 0 < i < |s| :: Letter(s[i]) || s[i] in {'0', '1', '2', '3', '4', '5', '6', '7', '8', '9'}
    ensures UrlSafe(s) <==>
            s != [] && forall i | 0 <= i < |s| ::
              Letter(s[i]) || s[i] in {'0', '1', '2', '3', '4', '5', '6', '7', '8', '9', '-'}
  {
    forall c: char ensures NameChar(c) <==> Letter(c) || c in {'0', '1', '2', '3', '4', '5', '6', '7', '8', '9'} {
    }
  }

  lemma StripOf(b: Blanks, space: string, value: string)
    requires AllSpace(b, space) && (value == "" || !b.space(value[0]))
    ensures LStrip(b, space + value) == value
  {
    SpaceRunOf(b, space, value);
    Cut(space, value);
  }

  lemma NameThenGap(b: Blanks, prefix: string, name: string, gap: string, rest: string)
    requires b.Valid() && ValidName(name) && AllSpace(b, gap)
    ensures ParseName(b, prefix, name + (gap + ("=" + rest))) == Some(Assignment(prefix, name, LStrip(b, rest)))
  {
    var tail := gap + ("=" + rest);
    assert tail[0] == '=' || b.space(tail[0]);
    NameRunOf(name, tail);
    Cut(name, tail);
    SpaceRunOf(b, gap, "=" + rest);
    Cut(gap, "=" + rest);
    assert ("=" + rest)[1..] == rest;
    assert (name + tail)[0] == name[0];
  }

  /** A name that reads `export` and blanks: what follows them is no name. */
  lemma ExportAsName(b: Blanks, name: string, gap: string, rest: string)
    requires b.Valid() && ValidName(name) && AllSpace(b, gap)
    requires var tail := name + (gap + ("=" + rest)); Exports(tail) && SpaceRun(b, tail[6..]) > 0
    ensures |name| == 6 && gap != []
    ensures var tail := name + (gap + ("=" + rest)); tail[6 + SpaceRun(b, tail[6..])..] == "=" + rest
  {
    var tail := name + (gap + ("=" + rest));
    var after := gap + ("=" + rest);
    SpaceRunIs(b, tail[6..]);
    assert b.space(tail[6..][0]) && tail[6..][0] == tail[6];
    assert forall i | 0 <= i < |name| :: tail[i] == name[i];
    assert |name| <= 6;
    if |name| < 6 {
      assert tail[|name|] == after[0] && NameChar(tail[|name|]);
    }
    Cut(name, after);
    SpaceRunOf(b, gap, "=" + rest);
    assert tail[6..] == after;
    assert tail[6 + |gap|..] == after[|gap|..];
    Cut(gap, "=" + rest);
  }

  lemma SpacesThen(b: Blanks, prefix: string, tail: string)
    requires AllSpace(b, prefix) && tail != [] && !b.space(tail[0])
    ensures SpaceRun(b, prefix + tail) == |prefix|
    ensures ExportEnd(b, prefix + tail)
            == if Exports(tail) && SpaceRun(b, tail[6..]) > 0 then |prefix| + 6 + SpaceRun(b, tail[6..]) else 0
  {
    SpaceRunOf(b, prefix, tail);
    Cut(prefix, tail);
  }

  /** Behind blanks the name is read even if it is the word `export`. */
  lemma PlainWithGap(b: Blanks, prefix: string, name: string, gap: string, rest: string)
    requires b.Valid() && AllSpace(b, prefix) && ValidName(name) && AllSpace(b, gap)
    ensures var line := prefix + (name + (gap + ("=" + rest)));
            Parse(b, line) == Some(Assignment(prefix, name, LStrip(b, rest)))
  {
    var tail := name + (gap + ("=" + rest));
    assert tail[0] == name[0];
    NameThenGap(b, prefix, name, gap, rest);
    if Exports(tail) && SpaceRun(b, tail[6..]) > 0 {
      ExportAsName(b, name, gap, rest);
      GivesUp(b, prefix, tail, rest);
    } else {
      PlainParse(b, prefix, tail);
    }
  }

  /** The word is given up as `export` if an equals sign follows it. */
  lemma GivesUp(b: Blanks, prefix: string, tail: string, rest: string)
    requires AllSpace(b, prefix) && tail != [] && !b.space(tail[0])
    requires Exports(tail) && SpaceRun(b, tail[6..]) > 0 && tail[6 + SpaceRun(b, tail[6..])..] == "=" + rest
    ensures Parse(b, prefix + tail) == ParseName(b, prefix, tail)
  {
    SpacesThen(b, prefix, tail);
    Cut(prefix, tail);
    var line, e := prefix + tail, |prefix| + 6 + SpaceRun(b, tail[6..]);
    DropBoth(prefix, tail, 6 + SpaceRun(b, tail[6..]));
    assert line[e..][0] == '=';
    assert ParseName(b, line[..e], line[e..]) == None;
  }

  lemma DropBoth(s: string, t: string, n: nat)
    requires n <= |t|
    ensures (s + t)[|s| + n..] == t[n..]
  {
  }

  lemma SpelledIsParsed(b: Blanks, line: string, a: Assignment, gap: string, space: string)
    requires b.Valid() && Spells(b, line, a, gap, space)
    ensures Parse(b, line) == Some(a)
  {
    StripOf(b, space, a.value);
    var rest := space + a.value;
    if AllSpace(b, a.prefix) {
      PlainWithGap(b, a.prefix, a.name, gap, rest);
    } else {
      var at :| 0 <= at < |a.prefix| && ExportsAt(b, a.prefix, at);
      var tail := a.name + (gap + ("=" + rest));
      assert tail[0] == a.name[0];
      NameThenGap(b, a.prefix, a.name, gap, rest);
      ExportedParse(b, a.prefix, at, tail);
    }
  }

  lemma StripSplits(b: Blanks, s: string)
    ensures s == s[..SpaceRun(b, s)] + LStrip(b, s) && AllSpace(b, s[..SpaceRun(b, s)])
    ensures LStrip(b, s) == "" || !b.space(LStrip(b, s)[0])
  {
    SpaceRunIs(b, s);
  }

  lemma NameSplits(b: Blanks, prefix: string, s: string) returns (gap: string, space: string)
    requires ParseName(b, prefix, s).Some?
    ensures var a := ParseName(b, prefix, s).value;
            && a.prefix == prefix && ValidName(a.name) && AllSpace(b, gap) && AllSpace(b, space)
            && (a.value == "" || !b.space(a.value[0]))
            && s == a.name + (gap + ("=" + (space + a.value)))
  {
    ParseNameParts(b, prefix, s);
    var a := ParseName(b, prefix, s).value;
    gap, space := AfterName(b, s[NameRun(s)..]);
    assert s == s[..NameRun(s)] + s[NameRun(s)..];
  }

  lemma AfterName(b: Blanks, s: string) returns (gap: string, space: string)
    requires LStrip(b, s) != "" && LStrip(b, s)[0] == '='
    ensures AllSpace(b, gap) && AllSpace(b, space)
    ensures var value := LStrip(b, LStrip(b, s)[1..]);
            (value == "" || !b.space(value[0])) && s == gap + ("=" + (space + value))
  {
    var rest := LStrip(b, s);
    var behind := rest[1..];
    StripSplits(b, s);
    StripSplits(b, behind);
    gap, space := s[..SpaceRun(b, s)], behind[..SpaceRun(b, behind)];
    assert rest == "=" + behind;
  }

  lemma ParsedIsSpelled(b: Blanks, line: string) returns (gap: string, space: string)
    requires Parse(b, line).Some?
    ensures Spells(b, line, Parse(b, line).value, gap, space)
  {
    var at := WhereParsed(b, line);
    gap, space := NameSplits(b, line[..at], line[at..]);
    ParsedPartsAreValid(b, line);
    SpelledAt(b, line, at, Parse(b, line).value, gap, space);
  }

  lemma SpelledAt(b: Blanks, line: string, at: nat, a: Assignment, gap: string, space: string)
    requires at <= |line| && a.prefix == line[..at] && ValidPrefix(b, a.prefix) && ValidName(a.name)
    requires AllSpace(b, gap) && AllSpace(b, space) && (a.value == "" || !b.space(a.value[0]))
    requires line[at..] == a.name + (gap + ("=" + (space + a.value)))
    ensures Spells(b, line, a, gap, space)
  {
    assert line == line[..at] + line[at..];
  }

  lemma WhereParsed(b: Blanks, line: string) returns (at: nat)
    ensures at <= |line| && Parse(b, line) == ParseName(b, line[..at], line[at..])
  {
    var e := ExportEnd(b, line);
    at := if e > 0 && ParseAt(b, line, e).Some? then e else SpaceRun(b, line);
  }

  /** A line is read as an assignment exactly if it is spelled as one, and then as that
      one: blanks may stand around the prefix, the equals sign and before the value. */
  lemma ParsesIff(b: Blanks, line: string, a: Assignment)
    requires b.Valid()
    ensures Parse(b, line) == Some(a) <==> exists gap, space :: Spells(b, line, a, gap, space)
  {
    if Parse(b, line) == Some(a) {
      var gap, space := ParsedIsSpelled(b, line);
    }
    if gap, space :| Spells(b, line, a, gap, space) {
      SpelledIsParsed(b, line, a, gap, space);
    }
  }

  // ---- Values ----

  lemma {:induction false} CommentIsFirst(s: string)
    ensures var n := CommentAt(s);
            && (n < |s| ==> n + 2 <= |s| && s[n] == ' ' && s[n + 1] == '#')
            && forall i | 0 <= i < n && i + 1 < |s| :: !(s[i] == ' ' && s[i + 1] == '#')
  {
    if s != [] {
      assert StartsWith(s, " #") <==> |s| >= 2 && s[0] == ' ' && s[1] == '#' by {
        if |s| >= 2 {
          assert s[..2] == [s[0], s[1]] && " #" == [' ', '#'];
        }
      }
      if !StartsWith(s, " #") {
        CommentIsFirst(s[1..]);
        var n := CommentAt(s[1..]);
        forall i | 0 <= i < n + 1 && i + 1 < |s| ensures !(s[i] == ' ' && s[i + 1] == '#') {
          if i > 0 {
            assert s[i] == s[1..][i - 1] && s[i + 1] == s[1..][i];
          }
        }
      }
    }
  }

  lemma {:induction false} RStripEnds(b: Blanks, s: string)
    ensures var r := RStrip(b, s);
            && |r| <= |s| && r == s[..|r|] && (forall i | |r| <= i < |s| :: b.space(s[i]))
            && (r == "" || !b.space(r[|r| - 1]))
  {
    if s != [] && b.space(s[|s| - 1]) {
      RStripEnds(b, s[..|s| - 1]);
    }
  }

  /** These two places hold the first " #" and the end, and what is between the other two
      is the text before it without the blanks around it. */
  ghost predicate Trims(b: Blanks, raw: string, n: nat, from: nat, to: nat) {
    && n <= |raw| && from <= to <= n
    && (n < |raw| ==> n + 1 < |raw| && raw[n] == ' ' && raw[n + 1] == '#')
    && (forall i | 0 <= i < n && i + 1 < |raw| :: !(raw[i] == ' ' && raw[i + 1] == '#'))
    && (forall i | 0 <= i < from || to <= i < n :: b.space(raw[i]))
    && (from < to ==> !b.space(raw[from]) && !b.space(raw[to - 1]))
  }

  /** The text of a stretch without the blanks around it. */
  lemma StripPlaces(b: Blanks, text: string) returns (from: nat, to: nat)
    ensures from <= to <= |text| && RStrip(b, LStrip(b, text)) == text[from..to]
    ensures forall i | 0 <= i < from || to <= i < |text| :: b.space(text[i])
    ensures from < to ==> !b.space(text[from]) && !b.space(text[to - 1])
  {
    from := SpaceRun(b, text);
    var left := LStrip(b, text);
    RStripEnds(b, left);
    SpaceRunIs(b, text);
    to := from + |RStrip(b, left)|;
    assert text[from..to] == left[..to - from];
    assert forall i | from <= i < |text| :: text[i] == left[i - from];
    assert from < to ==> text[to - 1] == RStrip(b, left)[to - from - 1];
  }

  lemma BareTrims(b: Blanks, raw: string) returns (n: nat, from: nat, to: nat)
    ensures Trims(b, raw, n, from, to)
    ensures RStrip(b, LStrip(b, raw[..CommentAt(raw)])) == raw[from..to]
  {
    n := CommentAt(raw);
    var text := raw[..n];
    CommentIsFirst(raw);
    from, to := StripPlaces(b, text);
    assert text[from..to] == raw[from..to];
  }

  /** The value of a line is what stands before the first " #", without the blanks around
      it and without a pair of equal quotes around that. */
  lemma BareInFull(b: Blanks, raw: string)
    ensures exists n: nat, from: nat, to: nat :: Trims(b, raw, n, from, to) && Bare(b, raw) == Unquoted(raw[from..to])
  {
    var n, from, to := BareTrims(b, raw);
    var value := raw[from..to];
    assert Bare(b, raw) == Unquoted(value);
  }

  function Unquoted(value: string): string {
    if |value| >= 2 && (value[0] == value[|value| - 1] == '\'' || value[0] == value[|value| - 1] == '"')
    then value[1..|value| - 1] else value
  }
}
