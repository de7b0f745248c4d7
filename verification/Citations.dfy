/** The citation filter of the enrichment (app/modules/enrichment/prompts.py):
    every CVE or CWE identifier the finding does not carry is replaced. */
module Citations {
  import opened Wrappers

  /** What the regular expression engine calls a digit and a word character.
      Python's classes cover all of Unicode; only these facts about them matter. */
  datatype Lexicon = Lexicon(digit: char -> bool, word: char -> bool) {
    ghost predicate Valid() {
      && (forall c :: digit(c) ==> word(c))
      && (forall c | Upper(c) in {'C', 'V', 'E', 'W'} :: word(c) && !digit(c))
      && (forall c | c in {'-', '[', ']'} :: !word(c))
    }
  }

  const REPLACEMENT := "[unverified " + ("reference " + "removed]")

  function Upper(c: char): char {
    if 'a' <= c <= 'z' then c - 'a' + 'A' else c
  }

  function UpperAll(s: string): string {
    seq(|s|, i requires 0 <= i < |s| => Upper(s[i]))
  }

  predicate AllDigits(lex: Lexicon, s: string) {
    forall i | 0 <= i < |s| :: lex.digit(s[i])
  }

  predicate CweHead(s: string) {
    |s| >= 4 && Upper(s[0]) == 'C' && Upper(s[1]) == 'W' && Upper(s[2]) == 'E' && s[3] == '-'
  }

  predicate CveHead(lex: Lexicon, s: string) {
    && |s| >= 9 && Upper(s[0]) == 'C' && Upper(s[1]) == 'V' && Upper(s[2]) == 'E' && s[3] == '-'
    && lex.digit(s[4]) && lex.digit(s[5]) && lex.digit(s[6]) && lex.digit(s[7]) && s[8] == '-'
  }

  /** The pattern's language: CVE-\d{4}-\d{4,} or CWE-\d+, in any case. */
  predicate IsCitation(lex: Lexicon, t: string) {
    || (|t| >= 13 && CveHead(lex, t) && AllDigits(lex, t[9..]))
    || (|t| >= 5 && CweHead(t) && AllDigits(lex, t[4..]))
  }

  /** The two characters are the same letter in either case, or the same. */
  predicate SameLetter(c: char, d: char) {
    || c == d
    || ('A' <= c <= 'Z' && d as int == c as int + 32)
    || ('A' <= d <= 'Z' && c as int == d as int + 32)
  }

  lemma UpperFolds(c: char, d: char)
    ensures Upper(c) == Upper(d) <==> SameLetter(c, d)
    ensures !('a' <= Upper(c) <= 'z') && ('A' <= c <= 'Z' ==> Upper(c) == c)
  {
  }

  /** Identifiers are compared letter by letter, in either case. */
  lemma UpperAllFolds(s: string, t: string)
    ensures UpperAll(s) == UpperAll(t) <==> |s| == |t| && forall i | 0 <= i < |s| :: SameLetter(s[i], t[i])
  {
    forall i | 0 <= i < |s| && i < |t| ensures UpperAll(s)[i] == UpperAll(t)[i] <==> SameLetter(s[i], t[i]) {
      UpperFolds(s[i], t[i]);
    }
    if UpperAll(s) == UpperAll(t) {
      assert |UpperAll(s)| == |s| && |UpperAll(t)| == |t|;
    }
  }

  /** The language of the pattern, character by character. */
  lemma CitationInFull(lex: Lexicon, t: string)
    ensures IsCitation(lex, t) <==>
            || (&& |t| >= 13 && t[0] in {'C', 'c'} && t[1] in {'V', 'v'} && t[2] in {'E', 'e'} && t[3] == t[8] == '-'
                && forall i | 4 <= i < |t| && i != 8 :: lex.digit(t[i]))
            || (&& |t| >= 5 && t[0] in {'C', 'c'} && t[1] in {'W', 'w'} && t[2] in {'E', 'e'} && t[3] == '-'
                && forall i | 4 <= i < |t| :: lex.digit(t[i]))
  {
    if |t| >= 9 {
      assert forall i | 9 <= i < |t| :: t[9..][i - 9] == t[i];
    }
    if |t| >= 4 {
      assert forall i | 4 <= i < |t| :: t[4..][i - 4] == t[i];
    }
  }

  predicate Boundary(lex: Lexicon, s: string, n: nat) {
    n <= |s| && (n == |s| || !lex.word(s[n]))
  }

  /** The pattern matches the first `n` characters, up to a word boundary. */
  predicate MatchesPrefix(lex: Lexicon, s: string, n: nat) {
    Boundary(lex, s, n) && IsCitation(lex, s[..n])
  }

  lemma PrefixInFull(lex: Lexicon, s: string, n: nat)
    ensures MatchesPrefix(lex, s, n) <==>
            && n <= |s| && (n < |s| ==> !lex.word(s[n]))
            && (|| (&& n >= 13 && s[0] in {'C', 'c'} && s[1] in {'V', 'v'} && s[2] in {'E', 'e'} && s[3] == s[8] == '-'
                    && forall i | 4 <= i < n && i != 8 :: lex.digit(s[i]))
                || (&& n >= 5 && s[0] in {'C', 'c'} && s[1] in {'W', 'w'} && s[2] in {'E', 'e'} && s[3] == '-'
                    && forall i | 4 <= i < n :: lex.digit(s[i])))
  {
    if n <= |s| {
      CitationInFull(lex, s[..n]);
    }
  }

  function DigitRun(lex: Lexicon, s: string): (n: nat)
    ensures n <= |s| && AllDigits(lex, s[..n]) && (n == |s| || !lex.digit(s[n]))
  {
    if s == [] || !lex.digit(s[0]) then 0 else 1 + DigitRun(lex, s[1..])
  }

  /** The engine's greedy match at the start of `s`, or 0. */
  function MatchLength(lex: Lexicon, s: string): (n: nat)
    ensures n <= |s|
  {
    if CveHead(lex, s) then
      var n := 9 + DigitRun(lex, s[9..]);
      if n >= 13 && Boundary(lex, s, n) then n else 0
    else if CweHead(s) then
      var n := 4 + DigitRun(lex, s[4..]);
      if n >= 5 && Boundary(lex, s, n) then n else 0
    else 0
  }

  /** Digits up to a boundary are the whole run of digits. */
  lemma RunEnds(lex: Lexicon, s: string, head: nat, n: nat)
    requires lex.Valid() && head <= n && Boundary(lex, s, n)
    ensures AllDigits(lex, s[..n][head..]) <==> DigitRun(lex, s[head..]) == n - head
  {
    var t, r := s[head..], DigitRun(lex, s[head..]);
    assert s[..n][head..] == t[..n - head];
    if AllDigits(lex, t[..n - head]) {
      forall i | 0 <= i < n - head ensures lex.digit(t[i]) {
        assert t[..n - head][i] == t[i];
      }
      forall i | 0 <= i < r ensures lex.word(t[i]) {
        assert t[..r][i] == t[i];
      }
      assert n < |s| ==> t[n - head] == s[n];
    }
  }

  /** Greedy matching finds the one match there is. */
  lemma MatchIsUnique(lex: Lexicon, s: string, n: nat)
    requires lex.Valid()
    ensures MatchesPrefix(lex, s, n) <==> n > 0 && MatchLength(lex, s) == n
  {
    if Boundary(lex, s, n) {
      if n >= 9 {
        RunEnds(lex, s, 9, n);
      }
      if n >= 4 {
        RunEnds(lex, s, 4, n);
      }
    }
  }

  // ---- Substitution ----

  datatype Piece = Plain(c: char) | Cite(text: string)

  /** How the engine splits a text, left to right; `prev` says whether a word
      character precedes it. */
  function Split(lex: Lexicon, prev: bool, s: string): seq<Piece>
    decreases |s|
  {
    if s == [] then []
    else
      var n := MatchLength(lex, s);
      if !prev && n > 0 then [Cite(s[..n])] + Split(lex, true, s[n..])
      else [Plain(s[0])] + Split(lex, lex.word(s[0]), s[1..])
  }

  function Text(piece: Piece): string {
    if piece.Plain? then [piece.c] else piece.text
  }

  function Join(pieces: seq<Piece>): string {
    if pieces == [] then [] else Text(pieces[0]) + Join(pieces[1..])
  }

  function Plains(s: string): seq<Piece> {
    if s == [] then [] else [Plain(s[0])] + Plains(s[1..])
  }

  function Cited(pieces: seq<Piece>): seq<string> {
    if pieces == [] then []
    else if pieces[0].Cite? then [pieces[0].text] + Cited(pieces[1..])
    else Cited(pieces[1..])
  }

  predicate Supported(allowed: set<string>, citation: string) {
    UpperAll(citation) in allowed
  }

  function Replace(allowed: set<string>, piece: Piece): string {
    if piece.Cite? && !Supported(allowed, piece.text) then REPLACEMENT else Text(piece)
  }

  function Rewrite(allowed: set<string>, pieces: seq<Piece>): string {
    if pieces == [] then [] else Replace(allowed, pieces[0]) + Rewrite(allowed, pieces[1..])
  }

  /** The pieces with each unsupported citation spelled out as the marker's characters. */
  function Scrub(allowed: set<string>, pieces: seq<Piece>): seq<Piece> {
    if pieces == [] then []
    else
      (if pieces[0].Cite? && !Supported(allowed, pieces[0].text) then Plains(REPLACEMENT) else [pieces[0]])
      + Scrub(allowed, pieces[1..])
  }

  function Keep(allowed: set<string>, cited: seq<string>): seq<string> {
    if cited == [] then []
    else if Supported(allowed, cited[0]) then [cited[0]] + Keep(allowed, cited[1..])
    else Keep(allowed, cited[1..])
  }

  function Dropped(allowed: set<string>, cited: seq<string>): seq<string> {
    if cited == [] then []
    else if Supported(allowed, cited[0]) then Dropped(allowed, cited[1..])
    else [UpperAll(cited[0])] + Dropped(allowed, cited[1..])
  }

  /** First occurrences, in order: the keys of the dictionary that collects them. */
  function Distinct(s: seq<string>): (d: seq<string>)
    ensures forall x :: x in d <==> x in s
    ensures forall i, j | 0 <= i < j < |d| :: d[i] != d[j]
  {
    if s == [] then []
    else
      var front := Distinct(s[..|s| - 1]);
      if s[|s| - 1] in front then front else front + [s[|s| - 1]]
  }

  function FirstIndex(s: seq<string>, x: string): (i: nat)
    requires x in s
    ensures i < |s| && s[i] == x && x !in s[..i]
  {
    if s[0] == x then 0 else 1 + FirstIndex(s[1..], x)
  }

  lemma FirstIsUnique(s: seq<string>, x: string, i: nat)
    requires i < |s| && s[i] == x && x !in s[..i]
    ensures FirstIndex(s, x) == i
  {
    var k := FirstIndex(s, x);
    assert forall j | 0 <= j < i :: s[..i][j] == s[j];
    assert forall j | 0 <= j < k :: s[..k][j] == s[j];
  }

  /** The distinct values come in the order in which they are first seen. */
  lemma {:induction false} DistinctInOrder(s: seq<string>, i: nat, j: nat)
    requires i < j < |Distinct(s)|
    ensures FirstIndex(s, Distinct(s)[i]) < FirstIndex(s, Distinct(s)[j])
    decreases |s|
  {
    var n := |s| - 1;
    var x, y := Distinct(s)[i], Distinct(s)[j];
    FirstAmong(s, n, x);
    if j < |Distinct(s[..n])| {
      DistinctInOrder(s[..n], i, j);
      FirstAmong(s, n, y);
    } else {
      FirstIsUnique(s, y, n);
    }
  }

  lemma FirstAmong(s: seq<string>, n: nat, x: string)
    requires n <= |s| && x in s[..n]
    ensures x in s && FirstIndex(s, x) == FirstIndex(s[..n], x)
  {
    var i := FirstIndex(s[..n], x);
    assert s[..n][..i] == s[..i];
    FirstIsUnique(s, x, i);
  }

  function Filtered(lex: Lexicon, allowed: set<string>, prev: bool, s: string): string {
    Rewrite(allowed, Split(lex, prev, s))
  }

  function Citations(lex: Lexicon, prev: bool, s: string): seq<string> {
    Cited(Split(lex, prev, s))
  }

  /** One step of the scan. */
  lemma Unfold(lex: Lexicon, prev: bool, s: string)
    requires s != []
    ensures var n := MatchLength(lex, s);
            if !prev && n > 0 then
              && Split(lex, prev, s) == [Cite(s[..n])] + Split(lex, true, s[n..])
              && Citations(lex, prev, s) == [s[..n]] + Citations(lex, true, s[n..])
            else
              && Split(lex, prev, s) == [Plain(s[0])] + Split(lex, lex.word(s[0]), s[1..])
              && Citations(lex, prev, s) == Citations(lex, lex.word(s[0]), s[1..])
  {
    var n, pieces := MatchLength(lex, s), Split(lex, prev, s);
    if !prev && n > 0 {
      assert pieces[1..] == Split(lex, true, s[n..]);
    } else {
      assert pieces[1..] == Split(lex, lex.word(s[0]), s[1..]);
    }
  }

  /** And of the rewriting. */
  lemma UnfoldFiltered(lex: Lexicon, allowed: set<string>, prev: bool, s: string)
    requires s != []
    ensures var n := MatchLength(lex, s);
            Filtered(lex, allowed, prev, s)
            == if !prev && n > 0 then
                 (if Supported(allowed, s[..n]) then s[..n] else REPLACEMENT) + Filtered(lex, allowed, true, s[n..])
               else [s[0]] + Filtered(lex, allowed, lex.word(s[0]), s[1..])
  {
    var n, pieces := MatchLength(lex, s), Split(lex, prev, s);
    if !prev && n > 0 {
      assert pieces[1..] == Split(lex, true, s[n..]);
    } else {
      assert pieces[1..] == Split(lex, lex.word(s[0]), s[1..]);
    }
  }

  lemma JoinOne(piece: Piece, rest: seq<Piece>)
    ensures Join([piece] + rest) == Text(piece) + Join(rest)
  {
    assert ([piece] + rest)[1..] == rest;
  }

  /** The split loses nothing. */
  lemma {:induction false} SplitIsLossless(lex: Lexicon, prev: bool, s: string)
    ensures Join(Split(lex, prev, s)) == s
    decreases |s|
  {
    if s != [] {
      var n := MatchLength(lex, s);
      assert s == s[..n] + s[n..] && s == [s[0]] + s[1..];
      Unfold(lex, prev, s);
      if !prev && n > 0 {
        SplitIsLossless(lex, true, s[n..]);
        JoinOne(Cite(s[..n]), Split(lex, true, s[n..]));
      } else {
        SplitIsLossless(lex, lex.word(s[0]), s[1..]);
        JoinOne(Plain(s[0]), Split(lex, lex.word(s[0]), s[1..]));
      }
    }
  }

  // ---- Matches ----

  lemma CitationShape(lex: Lexicon, t: string)
    requires lex.Valid() && IsCitation(lex, t)
    ensures forall i | 0 <= i < |t| :: t[i] != '[' && (Upper(t[i]) == 'C' <==> i == 0)
    ensures |t| > 0 && lex.word(t[|t| - 1])
  {
    forall i | 0 <= i < |t| ensures t[i] != '[' && (Upper(t[i]) == 'C' <==> i == 0) && (i == |t| - 1 ==> lex.digit(t[i])) {
      if CweHead(t) {
        if i >= 4 {
          assert t[4..][i - 4] == t[i];
        }
      } else if i >= 9 {
        assert t[9..][i - 9] == t[i];
      }
    }
  }

  /** A match cannot start inside another one. */
  lemma MatchesDoNotNest(lex: Lexicon, s: string, m: nat, k: nat, n: nat)
    requires lex.Valid() && MatchesPrefix(lex, s, m) && 0 < k <= |s| && MatchesPrefix(lex, s[k..], n)
    requires !lex.word(s[k - 1])
    ensures k > m
  {
    CitationShape(lex, s[..m]);
    CitationShape(lex, s[k..][..n]);
    assert Upper(s[k..][..n][0]) == 'C' && s[k..][..n][0] == s[k];
    forall i | 0 < i < m ensures Upper(s[i]) != 'C' {
      assert s[..m][i] == s[i];
    }
    assert s[..m][m - 1] == s[m - 1];
  }

  /** Every place where the pattern matches after a word boundary is found. */
  lemma {:induction false} EveryMatchIsFound(lex: Lexicon, prev: bool, s: string, k: nat, n: nat)
    requires lex.Valid() && k <= |s| && MatchesPrefix(lex, s[k..], n)
    requires if k == 0 then !prev else !lex.word(s[k - 1])
    ensures s[k..][..n] in Citations(lex, prev, s)
    decreases |s|
  {
    Unfold(lex, prev, s);
    var m := MatchLength(lex, s);
    if k == 0 {
      FirstMatch(lex, s, n);
    } else if !prev && m > 0 {
      PastTheMatch(lex, s, k, n);
      EveryMatchIsFound(lex, true, s[m..], k - m, n);
    } else {
      assert s[1..][k - 1..] == s[k..];
      EveryMatchIsFound(lex, lex.word(s[0]), s[1..], k - 1, n);
    }
  }

  lemma FirstMatch(lex: Lexicon, s: string, n: nat)
    requires lex.Valid() && MatchesPrefix(lex, s[0..], n)
    ensures n > 0 && MatchLength(lex, s) == n && s[0..] == s
  {
    assert s[0..] == s;
    MatchIsUnique(lex, s, n);
  }

  lemma PastTheMatch(lex: Lexicon, s: string, k: nat, n: nat)
    requires lex.Valid() && 0 < k <= |s| && MatchesPrefix(lex, s[k..], n) && !lex.word(s[k - 1])
    requires MatchLength(lex, s) > 0
    ensures var m := MatchLength(lex, s); k > m && s[m..][k - m..] == s[k..]
  {
    MatchIsUnique(lex, s, MatchLength(lex, s));
    MatchesDoNotNest(lex, s, MatchLength(lex, s), k, n);
  }

  // ---- Rewriting creates no new citation ----

  /** `out` copies `s` up to `n` and in the character after it. */
  predicate Copied(s: string, out: string, n: nat) {
    && n <= |s| && n <= |out| && s[..n] == out[..n]
    && (n == |s| <==> n == |out|) && (n < |s| && n < |out| ==> s[n] == out[n])
  }

  /** A stretch of output without a bracket, ending in a word character. */
  predicate Stretch(lex: Lexicon, prev: bool, out: string, n: nat) {
    && n <= |out| && (forall i | 0 <= i < n :: out[i] != '[')
    && if n == 0 then prev else lex.word(out[n - 1])
  }

  /** A copied piece in front of a copied stretch. */
  lemma CopiedAfter(lex: Lexicon, prev: bool, front: string, s: string, out: string, n: nat)
    requires front != [] && Stretch(lex, prev, front + out, n)
    requires n >= |front| && Stretch(lex, lex.word(front[|front| - 1]), out, n - |front|) ==> Copied(s, out, n - |front|)
    ensures Copied(front + s, front + out, n)
  {
    var k := |front|;
    if n >= k {
      forall i | 0 <= i < n - k ensures out[i] != '[' {
        assert out[i] == (front + out)[k + i];
      }
      assert n > k ==> out[n - k - 1] == (front + out)[n - 1];
      assert (front + s)[..n] == front + s[..n - k];
      assert (front + out)[..n] == front + out[..n - k];
    }
  }

  lemma MatchEndsInWord(lex: Lexicon, s: string)
    requires lex.Valid() && MatchLength(lex, s) > 0
    ensures var m := MatchLength(lex, s); s[..m] != [] && lex.word(s[..m][m - 1])
  {
    MatchIsUnique(lex, s, MatchLength(lex, s));
    CitationShape(lex, s[..MatchLength(lex, s)]);
  }

  /** Such a stretch was copied from the input, and so was the character after it. */
  lemma {:induction false} CopiedStretch(lex: Lexicon, allowed: set<string>, prev: bool, s: string, n: nat)
    requires lex.Valid() && Stretch(lex, prev, Filtered(lex, allowed, prev, s), n)
    ensures Copied(s, Filtered(lex, allowed, prev, s), n)
    decreases |s|, 2
  {
    if s != [] {
      var m := MatchLength(lex, s);
      UnfoldFiltered(lex, allowed, prev, s);
      if prev || m == 0 {
        assert s == [s[0]] + s[1..];
        CopiedPiece(lex, allowed, prev, [s[0]], s[1..], n);
      } else {
        NoBracket(lex, Filtered(lex, allowed, true, s[m..]), n);
        CopiedMatch(lex, allowed, prev, s, n);
      }
    }
  }

  lemma {:induction false} CopiedMatch(lex: Lexicon, allowed: set<string>, prev: bool, s: string, n: nat)
    requires lex.Valid() && MatchLength(lex, s) > 0
    requires var m := MatchLength(lex, s); Stretch(lex, prev, s[..m] + Filtered(lex, allowed, true, s[m..]), n)
    ensures var m := MatchLength(lex, s); Copied(s, s[..m] + Filtered(lex, allowed, true, s[m..]), n)
    decreases |s|, 1
  {
    var m := MatchLength(lex, s);
    MatchEndsInWord(lex, s);
    assert s == s[..m] + s[m..];
    CopiedPiece(lex, allowed, prev, s[..m], s[m..], n);
  }

  lemma {:induction false} CopiedPiece(lex: Lexicon, allowed: set<string>, prev: bool, front: string, s: string, n: nat)
    requires lex.Valid() && front != []
    requires var out := Filtered(lex, allowed, lex.word(front[|front| - 1]), s); Stretch(lex, prev, front + out, n)
    ensures Copied(front + s, front + Filtered(lex, allowed, lex.word(front[|front| - 1]), s), n)
    decreases |front + s|, 0
  {
    var next := lex.word(front[|front| - 1]);
    var out := Filtered(lex, allowed, next, s);
    if n >= |front| && Stretch(lex, next, out, n - |front|) {
      CopiedStretch(lex, allowed, next, s, n - |front|);
    }
    CopiedAfter(lex, prev, front, s, out, n);
  }

  lemma NoBracket(lex: Lexicon, tail: string, n: nat)
    ensures !Stretch(lex, false, REPLACEMENT + tail, n)
  {
    assert (REPLACEMENT + tail)[0] == '[';
  }

  /** Where the input has no match, neither has the output. */
  lemma NoNewMatch(lex: Lexicon, allowed: set<string>, s: string)
    requires lex.Valid() && MatchLength(lex, s) == 0
    ensures MatchLength(lex, Filtered(lex, allowed, false, s)) == 0
  {
    var out := Filtered(lex, allowed, false, s);
    var n := MatchLength(lex, out);
    if n > 0 {
      MatchIsUnique(lex, out, n);
      CitationShape(lex, out[..n]);
      assert forall i | 0 <= i < n :: out[i] == out[..n][i];
      CopiedStretch(lex, allowed, false, s, n);
      MatchIsUnique(lex, s, n);
    }
  }

  lemma NoHead(lex: Lexicon, s: string)
    requires s == [] || Upper(s[0]) != 'C' || |s| == 1 || Upper(s[1]) !in {'V', 'W'}
    ensures MatchLength(lex, s) == 0
  {
  }

  /** No character of `r` begins a citation, whatever follows `r`. */
  predicate Harmless(r: string) {
    forall i | 0 <= i < |r| && Upper(r[i]) == 'C' :: i + 1 < |r| && Upper(r[i + 1]) !in {'V', 'W'}
  }

  lemma HarmlessStep(lex: Lexicon, prev: bool, r: string, tail: string)
    requires Harmless(r) && r != []
    ensures Harmless(r[1..])
    ensures Split(lex, prev, r + tail) == [Plain(r[0])] + Split(lex, lex.word(r[0]), r[1..] + tail)
  {
    var s := r + tail;
    assert s[0] == r[0] && (Upper(r[0]) == 'C' ==> s[1] == r[1]);
    NoHead(lex, s);
    Unfold(lex, prev, s);
    assert s[1..] == r[1..] + tail;
    assert forall i | 0 <= i < |r| - 1 :: r[1..][i] == r[i + 1];
  }

  /** Such a text is split into its characters. */
  lemma {:induction false} PlainRun(lex: Lexicon, prev: bool, r: string, tail: string)
    requires Harmless(r)
    ensures Split(lex, prev, r + tail)
            == Plains(r) + Split(lex, if r == [] then prev else lex.word(r[|r| - 1]), tail)
    decreases |r|
  {
    if r == [] {
      assert r + tail == tail;
    } else {
      var last := if |r| == 1 then lex.word(r[0]) else lex.word(r[1..][|r| - 2]);
      HarmlessStep(lex, prev, r, tail);
      PlainRun(lex, lex.word(r[0]), r[1..], tail);
      Regroup([Plain(r[0])], Plains(r[1..]), Split(lex, last, tail));
    }
  }

  lemma HarmlessConcat(a: string, b: string)
    requires Harmless(a) && Harmless(b)
    ensures Harmless(a + b)
  {
    var s := a + b;
    forall i | 0 <= i < |s| && Upper(s[i]) == 'C' ensures i + 1 < |s| && Upper(s[i + 1]) !in {'V', 'W'} {
      if i < |a| {
        assert s[i] == a[i] && s[i + 1] == a[i + 1];
      } else {
        assert s[i] == b[i - |a|] && s[i + 1] == b[i - |a| + 1];
      }
    }
  }

  lemma MiddleIsHarmless()
    ensures Harmless("reference ") && Harmless("removed]")
  {
  }

  lemma ReplacementIsHarmless()
    ensures Harmless(REPLACEMENT)
  {
    MiddleIsHarmless();
    assert Harmless("[unverified ") by {
      assert |"[unverified "| == 12;
    }
    HarmlessConcat("reference ", "removed]");
    HarmlessConcat("[unverified ", "reference " + "removed]");
  }

  lemma ReplacementIsPlain(lex: Lexicon, r: string, tail: string)
    requires lex.Valid() && Boundary(lex, tail, 0) && r == REPLACEMENT
    ensures Split(lex, false, r + tail) == Plains(r) + Split(lex, true, tail)
  {
    ReplacementIsHarmless();
    PlainRun(lex, false, r, tail);
    NoHead(lex, tail);
  }

  /** After a word character the output starts as the input does. */
  lemma SameStart(lex: Lexicon, allowed: set<string>, s: string)
    ensures Boundary(lex, s, 0) ==> Boundary(lex, Filtered(lex, allowed, true, s), 0)
  {
    if s != [] {
      UnfoldFiltered(lex, allowed, true, s);
    }
  }

  lemma KeptMatch(lex: Lexicon, t: string, s: string, out: string)
    requires lex.Valid() && MatchesPrefix(lex, t + s, |t|) && Boundary(lex, out, 0)
    ensures Split(lex, false, t + out) == [Cite(t)] + Split(lex, true, out)
  {
    assert (t + s)[..|t|] == t && (t + out)[..|t|] == t && (t + out)[|t|..] == out;
    MatchIsUnique(lex, t + out, |t|);
  }

  lemma ScrubOne(allowed: set<string>, piece: Piece, rest: seq<Piece>)
    ensures Scrub(allowed, [piece] + rest)
            == (if piece.Cite? && !Supported(allowed, piece.text) then Plains(REPLACEMENT) else [piece])
               + Scrub(allowed, rest)
  {
    assert ([piece] + rest)[1..] == rest;
  }

  /** The output after a match, kept or replaced. */
  lemma ScanMatch(lex: Lexicon, allowed: set<string>, s: string, tail: string)
    requires lex.Valid() && MatchLength(lex, s) > 0
    requires Boundary(lex, s[MatchLength(lex, s)..], 0) ==> Boundary(lex, tail, 0)
    ensures var t := s[..MatchLength(lex, s)];
            Split(lex, false, (if Supported(allowed, t) then t else REPLACEMENT) + tail)
            == (if Supported(allowed, t) then [Cite(t)] else Plains(REPLACEMENT)) + Split(lex, true, tail)
  {
    var n := MatchLength(lex, s);
    MatchIsUnique(lex, s, n);
    assert s == s[..n] + s[n..] && Boundary(lex, s[n..], 0);
    if Supported(allowed, s[..n]) {
      KeptMatch(lex, s[..n], s[n..], tail);
    } else {
      ReplacementIsPlain(lex, REPLACEMENT, tail);
    }
  }

  lemma ScanPlain(lex: Lexicon, prev: bool, out: string)
    requires out != [] && (prev || MatchLength(lex, out) == 0)
    ensures Split(lex, prev, out) == [Plain(out[0])] + Split(lex, lex.word(out[0]), out[1..])
  {
  }

  /** Scanning the output again finds exactly the old pieces, with the unsupported
      citations turned into plain text. */
  lemma {:induction false} SecondScan(lex: Lexicon, allowed: set<string>, prev: bool, s: string)
    requires lex.Valid()
    ensures Split(lex, prev, Filtered(lex, allowed, prev, s)) == Scrub(allowed, Split(lex, prev, s))
    decreases |s|
  {
    if s != [] {
      var out, n := Filtered(lex, allowed, prev, s), MatchLength(lex, s);
      Unfold(lex, prev, s);
      UnfoldFiltered(lex, allowed, prev, s);
      if !prev && n > 0 {
        SecondScan(lex, allowed, true, s[n..]);
        SameStart(lex, allowed, s[n..]);
        ScanMatch(lex, allowed, s, Filtered(lex, allowed, true, s[n..]));
        ScrubOne(allowed, Cite(s[..n]), Split(lex, true, s[n..]));
      } else {
        SecondScan(lex, allowed, lex.word(s[0]), s[1..]);
        if !prev {
          NoNewMatch(lex, allowed, s);
        }
        assert out[0] == s[0] && out[1..] == Filtered(lex, allowed, lex.word(s[0]), s[1..]);
        ScanPlain(lex, prev, out);
        ScrubOne(allowed, Plain(s[0]), Split(lex, lex.word(s[0]), s[1..]));
      }
    }
  }

  // ---- The laws of the filter ----

  lemma {:induction false} CitedPlains(s: string, rest: seq<Piece>)
    ensures Cited(Plains(s) + rest) == Cited(rest)
    decreases |s|
  {
    if s == [] {
      assert Plains(s) + rest == rest;
    } else {
      assert (Plains(s) + rest)[1..] == Plains(s[1..]) + rest;
      CitedPlains(s[1..], rest);
    }
  }

  lemma {:induction false} CitedScrub(allowed: set<string>, pieces: seq<Piece>)
    ensures Cited(Scrub(allowed, pieces)) == Keep(allowed, Cited(pieces))
  {
    if pieces != [] {
      var p, rest := pieces[0], Scrub(allowed, pieces[1..]);
      CitedScrub(allowed, pieces[1..]);
      if p.Cite? {
        assert ([p.text] + Cited(pieces[1..]))[1..] == Cited(pieces[1..]);
      }
      if p.Cite? && !Supported(allowed, p.text) {
        CitedPlains(REPLACEMENT, rest);
      } else {
        assert ([p] + rest)[1..] == rest;
      }
    }
  }

  /** The output cites exactly what the input cites and the finding supports, in order. */
  lemma OutputCites(lex: Lexicon, allowed: set<string>, s: string)
    requires lex.Valid()
    ensures Citations(lex, false, Filtered(lex, allowed, false, s)) == Keep(allowed, Citations(lex, false, s))
  {
    SecondScan(lex, allowed, false, s);
    CitedScrub(allowed, Split(lex, false, s));
  }

  lemma {:induction false} KeptAreSupported(allowed: set<string>, cited: seq<string>)
    ensures forall x | x in Keep(allowed, cited) :: Supported(allowed, x)
    ensures Dropped(allowed, Keep(allowed, cited)) == []
    ensures Keep(allowed, Keep(allowed, cited)) == Keep(allowed, cited)
  {
    if cited != [] {
      KeptAreSupported(allowed, cited[1..]);
      assert ([cited[0]] + Keep(allowed, cited[1..]))[1..] == Keep(allowed, cited[1..]);
    }
  }

  /** Wherever the pattern matches in the output, the identifier is allowed. */
  lemma OutputIsSound(lex: Lexicon, allowed: set<string>, s: string, k: nat, n: nat)
    requires lex.Valid()
    requires var out := Filtered(lex, allowed, false, s);
             k <= |out| && MatchesPrefix(lex, out[k..], n) && (k == 0 || !lex.word(out[k - 1]))
    ensures Supported(allowed, Filtered(lex, allowed, false, s)[k..][..n])
  {
    EveryMatchIsFound(lex, false, Filtered(lex, allowed, false, s), k, n);
    OutputCites(lex, allowed, s);
    KeptAreSupported(allowed, Citations(lex, false, s));
  }

  lemma {:induction false} RewriteKept(allowed: set<string>, pieces: seq<Piece>)
    requires forall x | x in Cited(pieces) :: Supported(allowed, x)
    ensures Rewrite(allowed, pieces) == Join(pieces)
  {
    if pieces != [] {
      RewriteKept(allowed, pieces[1..]);
    }
  }

  /** A second pass changes nothing and drops nothing. */
  lemma SecondPassIsIdle(lex: Lexicon, allowed: set<string>, s: string)
    requires lex.Valid()
    ensures var out := Filtered(lex, allowed, false, s);
            && Filtered(lex, allowed, false, out) == out
            && Dropped(allowed, Citations(lex, false, out)) == []
  {
    var out := Filtered(lex, allowed, false, s);
    OutputCites(lex, allowed, s);
    KeptAreSupported(allowed, Citations(lex, false, s));
    RewriteKept(allowed, Split(lex, false, out));
    SplitIsLossless(lex, false, out);
  }

  /** The filter changes a text exactly when it drops an identifier. */
  lemma ChangesIffDrops(lex: Lexicon, allowed: set<string>, s: string)
    requires lex.Valid()
    ensures Filtered(lex, allowed, false, s) == s <==> Dropped(allowed, Citations(lex, false, s)) == []
  {
    var cited := Citations(lex, false, s);
    if Filtered(lex, allowed, false, s) == s {
      SecondPassIsIdle(lex, allowed, s);
    } else {
      if Dropped(allowed, cited) == [] {
        NoneDropped(allowed, cited);
        RewriteKept(allowed, Split(lex, false, s));
        SplitIsLossless(lex, false, s);
      }
    }
  }

  lemma {:induction false} NoneDropped(allowed: set<string>, cited: seq<string>)
    requires Dropped(allowed, cited) == []
    ensures forall x | x in cited :: Supported(allowed, x)
  {
    if cited != [] {
      NoneDropped(allowed, cited[1..]);
    }
  }

  // ---- The loop ----

  lemma {:induction false} DroppedMore(allowed: set<string>, cited: seq<string>, x: string)
    ensures Dropped(allowed, cited + [x])
            == Dropped(allowed, cited) + (if Supported(allowed, x) then [] else [UpperAll(x)])
  {
    if cited == [] {
      assert cited + [x] == [x];
    } else {
      assert (cited + [x])[1..] == cited[1..] + [x];
      DroppedMore(allowed, cited[1..], x);
    }
  }

  function AllowedSet(cve: Option<string>, cwes: seq<string>): set<string> {
    (set x | x in cwes :: UpperAll(x)) + (if cve.Some? then {UpperAll(cve.value)} else {})
  }

  /** What the callback does with one match. */
  lemma CollectOne(allowed: set<string>, seen: seq<string>, x: string, removed: seq<string>)
    requires removed == Distinct(Dropped(allowed, seen))
    ensures Distinct(Dropped(allowed, seen + [x]))
            == if Supported(allowed, x) || UpperAll(x) in removed then removed else removed + [UpperAll(x)]
  {
    DroppedMore(allowed, seen, x);
    var dropped := Dropped(allowed, seen);
    assert (dropped + [UpperAll(x)])[..|dropped|] == dropped;
    assert dropped + [] == dropped;
  }

  lemma Regroup<T>(a: seq<T>, b: seq<T>, c: seq<T>)
    ensures (a + b) + c == a + (b + c)
  {
  }

  /** `check_citations`: the substitution with its collecting callback. */
  method CheckCitations(lex: Lexicon, text: string, cve: Option<string>, cwes: seq<string>)
    returns (out: string, removed: seq<string>)
    ensures out == Filtered(lex, AllowedSet(cve, cwes), false, text)
    ensures removed == Distinct(Dropped(AllowedSet(cve, cwes), Citations(lex, false, text)))
  {
    var allowed := set x | x in cwes :: UpperAll(x);
    if cve.Some? {
      allowed := allowed + {UpperAll(cve.value)};
    }
    assert allowed == AllowedSet(cve, cwes);
    out, removed := Substitute(lex, allowed, text);
  }

  method Substitute(lex: Lexicon, allowed: set<string>, text: string) returns (out: string, removed: seq<string>)
    ensures out == Filtered(lex, allowed, false, text)
    ensures removed == Distinct(Dropped(allowed, Citations(lex, false, text)))
  {
    var rest, prev := text, false;
    out, removed := [], [];
    ghost var seen: seq<string> := [];
    while rest != []
      invariant out + Filtered(lex, allowed, prev, rest) == Filtered(lex, allowed, false, text)
      invariant seen + Citations(lex, prev, rest) == Citations(lex, false, text)
      invariant removed == Distinct(Dropped(allowed, seen))
      decreases |rest|
    {
      Unfold(lex, prev, rest);
      UnfoldFiltered(lex, allowed, prev, rest);
      var n := MatchLength(lex, rest);
      if !prev && n > 0 {
        var citation, tail := rest[..n], rest[n..];
        var identifier := UpperAll(citation);
        var text := citation;
        CollectOne(allowed, seen, citation, removed);
        if identifier !in allowed {
          if identifier !in removed {
            removed := removed + [identifier];
          }
          text := REPLACEMENT;
        }
        Regroup(out, text, Filtered(lex, allowed, true, tail));
        Regroup(seen, [citation], Citations(lex, true, tail));
        out, seen := out + text, seen + [citation];
        rest, prev := tail, true;
      } else {
        Regroup(out, [rest[0]], Filtered(lex, allowed, lex.word(rest[0]), rest[1..]));
        out := out + [rest[0]];
        rest, prev := rest[1..], lex.word(rest[0]);
      }
    }
    assert seen + Citations(lex, prev, rest) == seen;
  }
}
