/** The enrichment cache of one vulnerability (app/modules/enrichment/service.py):
    one row per generated function, read by every run and written by upserts. */
module Enrichment {
  import opened Wrappers
  import Citations

  const BASIC := ["executive_summary", "contextual_severity", "remediation"]

  const STANDARD := BASIC + ["technical_description", "exploitability", "references"]

  const FULL := [
    "executive_summary", "technical_description", "exploitability", "contextual_severity", "remediation",
    "business_impact", "references", "mitigation_plan", "hardening"]

  /** `functions_for_level`; None for a level the table does not list. */
  function FunctionsForLevel(level: string): Option<seq<string>> {
    if level == "basic" then Some(BASIC)
    else if level == "standard" then Some(STANDARD)
    else if level == "full" then Some(FULL)
    else None
  }

  /** What makes two results interchangeable: snapshot, prompt and model. */
  datatype Entry = Entry(inputHash: string, promptVersion: Option<string>, model: string)

  /** What a run computes its outputs from; every function has a prompt version of its own. */
  datatype Key = Key(inputHash: string, versions: map<string, string>, model: string)

  function At(key: Key, f: string): Entry {
    Entry(key.inputHash, if f in key.versions then Some(key.versions[f]) else None, key.model)
  }

  datatype Status = Pending | Good | Failed

  datatype Row = Row(status: Status, key: Entry, content: Option<string>, error: Option<string>, attempts: nat)

  /** An identical success is stored. */
  predicate Hit(rows: map<string, Row>, f: string, key: Key) {
    f in rows && rows[f].status == Good && rows[f].key == At(key, f)
  }

  /** The elements that satisfy `keep`, in order. */
  function Select(s: seq<string>, keep: string -> bool): (r: seq<string>)
    ensures forall x :: x in r <==> x in s && keep(x)
  {
    if s == [] then []
    else if keep(s[0]) then [s[0]] + Select(s[1..], keep)
    else Select(s[1..], keep)
  }

  predicate Unique(s: seq<string>) {
    forall i, j | 0 <= i < j < |s| :: s[i] != s[j]
  }

  lemma LevelsAreUnique(level: string)
    ensures FunctionsForLevel(level).Some? ==> Unique(FunctionsForLevel(level).value)
  {
  }

  /** The levels: three functions, three more, three more again; and no other level. */
  lemma LevelsNest(level: string)
    ensures FunctionsForLevel(level).Some? <==> level == "basic" || level == "standard" || level == "full"
    ensures |BASIC| == 3 && |STANDARD| == 6 && |FULL| == 9
    ensures FunctionsForLevel("basic") == Some(BASIC) && forall f | f in BASIC :: f in STANDARD
    ensures FunctionsForLevel("standard") == Some(STANDARD) && forall f | f in STANDARD :: f in FULL
    ensures FunctionsForLevel("full") == Some(FULL)
    ensures "business_impact" in FULL && "mitigation_plan" in FULL && "hardening" in FULL
    ensures "technical_description" in STANDARD && "exploitability" in STANDARD && "references" in STANDARD
    ensures "executive_summary" in BASIC && "contextual_severity" in BASIC && "remediation" in BASIC
  {
    assert "basic" != "standard" && "basic" != "full" && "standard" != "full";
  }

  function Targets(fns: seq<string>, only: Option<set<string>>): seq<string> {
    Select(fns, f => only.None? || f in only.value)
  }

  function Due(targets: seq<string>, rows: map<string, Row>, key: Key): seq<string> {
    Select(targets, f => !Hit(rows, f, key))
  }

  // ---- Outcomes ----

  /** What the provider left behind for one function when the budget ended. */
  datatype Output = Missing | Reply(text: string, providerFailed: bool)

  datatype Setting = Setting(lex: Citations.Lexicon, blank: char -> bool, allowed: set<string>)

  function Outcome(env: Setting, output: Output): Result<string, string> {
    if output.Missing? then Err("budget_exceeded")
    else if output.providerFailed then Err("provider_error")
    else if forall i | 0 <= i < |output.text| :: env.blank(output.text[i]) then Err("empty_output")
    else Ok(Citations.Filtered(env.lex, env.allowed, false, output.text))
  }

  /** The guarded upsert of one outcome. */
  function Upserted(rows: map<string, Row>, f: string, key: Key, outcome: Result<string, string>): map<string, Row> {
    if f !in rows then
      rows[f := if outcome.Ok? then Row(Good, At(key, f), Some(outcome.value), None, 1)
                else Row(Failed, At(key, f), None, Some(outcome.error), 1)]
    else if outcome.Ok? then
      rows[f := Row(Good, At(key, f), Some(outcome.value), None, rows[f].attempts + 1)]
    else if Hit(rows, f, key) then rows
    else rows[f := Row(Failed, At(key, f), rows[f].content, Some(outcome.error), rows[f].attempts + 1)]
  }

  function Saved(rows: map<string, Row>, due: seq<string>, key: Key, outcomes: map<string, Result<string, string>>)
    : map<string, Row>
    requires forall f | f in due :: f in outcomes
  {
    if due == [] then rows
    else
      var n := |due| - 1;
      Upserted(Saved(rows, due[..n], key, outcomes), due[n], key, outcomes[due[n]])
  }

  /** A late failure never downgrades a stored identical success, and no other
      row is touched. */
  lemma UpsertKeepsHits(rows: map<string, Row>, f: string, g: string, key: Key, own: Key, outcome: Result<string, string>)
    requires Hit(rows, g, key)
    ensures Hit(Upserted(rows, f, own, outcome), g, key) <==> f != g || At(own, g) == At(key, g)
    ensures Upserted(rows, f, own, outcome)[g] == rows[g] <==>
            !(f == g && (At(own, g) != At(key, g) || outcome.Ok?))
  {
  }

  lemma {:induction false} SavedRows(rows: map<string, Row>, due: seq<string>, key: Key,
                                     outcomes: map<string, Result<string, string>>, f: string)
    requires Unique(due) && forall f | f in due :: f in outcomes
    ensures var after := Saved(rows, due, key, outcomes);
            if f in due then
              var one := Upserted(rows, f, key, outcomes[f]);
              (f in after <==> f in one) && (f in one ==> after[f] == one[f])
            else (f in after <==> f in rows) && (f in rows ==> after[f] == rows[f])
    decreases |due|
  {
    if due != [] {
      var n := |due| - 1;
      SavedRows(rows, due[..n], key, outcomes, f);
      assert due[n] !in due[..n];
    }
  }

  // ---- The results of a run ----

  datatype RunResult = RunResult(succeeded: seq<string>, failed: seq<string>, skipped: seq<string>)

  function ResultOf(targets: seq<string>, due: seq<string>, outcomes: map<string, Result<string, string>>): RunResult
    requires forall f | f in due :: f in outcomes
  {
    RunResult(
      Select(due, f => f in outcomes && outcomes[f].Ok?),
      Select(due, f => f in outcomes && outcomes[f].Err?),
      Select(targets, f => f !in due))
  }

  /** The three lists split the targets, each in target order. */
  predicate Splits(targets: seq<string>, r: RunResult) {
    && r.succeeded == Select(targets, f => f in r.succeeded)
    && r.failed == Select(targets, f => f in r.failed)
    && r.skipped == Select(targets, f => f in r.skipped)
    && forall f :: f in targets ==>
         && (f in r.succeeded || f in r.failed || f in r.skipped)
         && !(f in r.succeeded && f in r.failed)
         && !(f in r.succeeded && f in r.skipped)
         && !(f in r.failed && f in r.skipped)
  }

  lemma {:induction false} SelectSame(s: seq<string>, p: string -> bool, q: string -> bool)
    requires forall x | x in s :: p(x) == q(x)
    ensures Select(s, p) == Select(s, q)
  {
    if s != [] {
      SelectSame(s[1..], p, q);
    }
  }

  lemma {:induction false} SelectTwice(s: seq<string>, p: string -> bool, q: string -> bool)
    ensures Select(Select(s, p), q) == Select(s, x => p(x) && q(x))
  {
    if s != [] {
      SelectTwice(s[1..], p, q);
      assert ([s[0]] + Select(s[1..], p))[1..] == Select(s[1..], p);
    }
  }

  lemma SelectOfSelect(s: seq<string>, p: string -> bool, q: string -> bool)
    ensures var t := Select(Select(s, p), q); t == Select(s, x => x in t)
  {
    SelectTwice(s, p, q);
    var t := Select(Select(s, p), q);
    SelectSame(s, x => p(x) && q(x), x => x in t);
  }

  lemma ResultSplitsTargets(targets: seq<string>, due: seq<string>, outcomes: map<string, Result<string, string>>)
    requires due == Select(targets, f => f in due) && forall f | f in due :: f in outcomes
    ensures Splits(targets, ResultOf(targets, due, outcomes))
  {
    SelectOfSelect(targets, f => f in due, f => f in outcomes && outcomes[f].Ok?);
    SelectOfSelect(targets, f => f in due, f => f in outcomes && outcomes[f].Err?);
    var skipped := Select(targets, f => f !in due);
    SelectSame(targets, f => f !in due, f => f in skipped);
  }

  lemma DueIsSelection(targets: seq<string>, rows: map<string, Row>, key: Key)
    ensures var due := Due(targets, rows, key); due == Select(targets, f => f in due)
  {
    var due := Due(targets, rows, key);
    SelectSame(targets, f => !Hit(rows, f, key), f => f in due);
  }

  lemma {:induction false} UniqueSelect(s: seq<string>, p: string -> bool)
    requires Unique(s)
    ensures Unique(Select(s, p))
  {
    if s != [] {
      UniqueSelect(s[1..], p);
    }
  }

  lemma HitAfter(rows: map<string, Row>, due: seq<string>, key: Key, outcomes: map<string, Result<string, string>>, f: string)
    requires Unique(due) && (forall f | f in due :: f in outcomes) && (f in due <==> !Hit(rows, f, key))
    ensures !Hit(Saved(rows, due, key, outcomes), f, key) <==> f in due && outcomes[f].Err?
  {
    SavedRows(rows, due, key, outcomes, f);
  }

  /** An undisturbed run after which nothing failed leaves nothing to do. */
  lemma AllSuccessLeavesNothingDue(targets: seq<string>, rows: map<string, Row>, key: Key,
                                   outcomes: map<string, Result<string, string>>)
    requires Unique(targets) && forall f | f in Due(targets, rows, key) :: f in outcomes
    ensures var due := Due(targets, rows, key);
            Due(targets, Saved(rows, due, key, outcomes), key) == ResultOf(targets, due, outcomes).failed
  {
    var due := Due(targets, rows, key);
    var after := Saved(rows, due, key, outcomes);
    UniqueSelect(targets, f => !Hit(rows, f, key));
    forall f | f in targets ensures !Hit(after, f, key) <==> f in ResultOf(targets, due, outcomes).failed {
      HitAfter(rows, due, key, outcomes, f);
    }
    SelectOfSelect(targets, f => !Hit(rows, f, key), f => f in outcomes && outcomes[f].Err?);
    SelectSame(targets, f => !Hit(after, f, key), f => f in ResultOf(targets, due, outcomes).failed);
  }

  // ---- What a run stores, column by column ----

  /** A success for the same snapshot, model and prompt version of the function. */
  predicate Cached(rows: map<string, Row>, f: string, key: Key) {
    && f in rows && rows[f].status == Good
    && rows[f].key.inputHash == key.inputHash && rows[f].key.model == key.model
    && rows[f].key.promptVersion == if f in key.versions then Some(key.versions[f]) else None
  }

  lemma HitIsCached(rows: map<string, Row>, f: string, key: Key)
    ensures Hit(rows, f, key) <==> Cached(rows, f, key)
  {
  }

  /** Wherever the pattern matches after a boundary, the identifier is supported. */
  ghost predicate CitesOnlySupported(env: Setting, content: string) {
    forall k, n: nat | 0 <= k <= |content| && Citations.MatchesPrefix(env.lex, content[k..], n)
                       && (k == 0 || !env.lex.word(content[k - 1])) ::
      n <= |content| - k && Citations.Supported(env.allowed, content[k..][..n])
  }

  /** What a row says after a run that had the function to do. */
  ghost predicate Records(env: Setting, was: Option<Row>, output: Output, key: Key, f: string, row: Row) {
    && row.key.inputHash == key.inputHash && row.key.model == key.model
    && row.key.promptVersion == (if f in key.versions then Some(key.versions[f]) else None)
    && row.attempts == (if was.Some? then was.value.attempts + 1 else 1)
    && if output.Missing? then FailedWith(was, row, "budget_exceeded")
       else if output.providerFailed then FailedWith(was, row, "provider_error")
       else if forall i | 0 <= i < |output.text| :: env.blank(output.text[i]) then FailedWith(was, row, "empty_output")
       else
         && row.status == Good && row.error == None
         && row.content == Some(Citations.Filtered(env.lex, env.allowed, false, output.text))
         && (env.lex.Valid() ==> CitesOnlySupported(env, row.content.value))
         && (env.lex.Valid() && Citations.Dropped(env.allowed, Citations.Citations(env.lex, false, output.text)) == [] ==>
               row.content.value == output.text)
  }

  /** A failure keeps the content of an earlier run. */
  predicate FailedWith(was: Option<Row>, row: Row, error: string) {
    row.status == Failed && row.error == Some(error) && row.content == if was.Some? then was.value.content else None
  }

  lemma FilteredCitesOnlySupported(env: Setting, text: string)
    requires env.lex.Valid()
    ensures CitesOnlySupported(env, Citations.Filtered(env.lex, env.allowed, false, text))
    ensures Citations.Dropped(env.allowed, Citations.Citations(env.lex, false, text)) == [] ==>
              Citations.Filtered(env.lex, env.allowed, false, text) == text
  {
    var content := Citations.Filtered(env.lex, env.allowed, false, text);
    forall k, n: nat | 0 <= k <= |content| && Citations.MatchesPrefix(env.lex, content[k..], n)
                       && (k == 0 || !env.lex.word(content[k - 1]))
      ensures n <= |content| - k && Citations.Supported(env.allowed, content[k..][..n])
    {
      Citations.OutputIsSound(env.lex, env.allowed, text, k, n);
    }
    Citations.ChangesIffDrops(env.lex, env.allowed, text);
  }

  function RowOf(rows: map<string, Row>, f: string): Option<Row> {
    if f in rows then Some(rows[f]) else None
  }

  lemma UpsertedRecords(rows: map<string, Row>, f: string, key: Key, env: Setting, output: Output)
    requires !Hit(rows, f, key)
    ensures var after := Upserted(rows, f, key, Outcome(env, output));
            f in after && Records(env, RowOf(rows, f), output, key, f, after[f])
  {
    if env.lex.Valid() && output.Reply? {
      FilteredCitesOnlySupported(env, output.text);
    }
  }

  /** Which functions a run has to do, and what every row is afterwards. */
  lemma RunRecords(fns: seq<string>, only: Option<set<string>>, rows: map<string, Row>, key: Key, env: Setting,
                   outputs: map<string, Output>, f: string)
    requires Unique(fns)
    ensures var due := Due(Targets(fns, only), rows, key);
            var after := Saved(rows, due, key, Outcomes(env, due, outputs));
            if f in fns && (only.None? || f in only.value) && !Cached(rows, f, key) then
              f in due && f in after
              && Records(env, RowOf(rows, f), if f in outputs then outputs[f] else Missing, key, f, after[f])
            else f !in due && RowOf(after, f) == RowOf(rows, f)
  {
    var targets := Targets(fns, only);
    var due := Due(targets, rows, key);
    UniqueSelect(fns, f => only.None? || f in only.value);
    UniqueSelect(targets, f => !Hit(rows, f, key));
    HitIsCached(rows, f, key);
    SavedRows(rows, due, key, Outcomes(env, due, outputs), f);
    if f in due {
      UpsertedRecords(rows, f, key, env, if f in outputs then outputs[f] else Missing);
    }
  }

  /** What the result of a run says about a function, against the rows it leaves. */
  lemma ResultTells(fns: seq<string>, only: Option<set<string>>, rows: map<string, Row>, key: Key, env: Setting,
                    outputs: map<string, Output>, f: string)
    requires Unique(fns)
    ensures var targets := Targets(fns, only);
            var due := Due(targets, rows, key);
            var outcomes := Outcomes(env, due, outputs);
            var after, result := Saved(rows, due, key, outcomes), ResultOf(targets, due, outcomes);
            && (f in result.skipped <==> f in fns && (only.None? || f in only.value) && Cached(rows, f, key))
            && (f in result.succeeded <==> f in due && f in after && after[f].status == Good)
            && (f in result.failed <==> f in due && f in after && after[f].status == Failed)
  {
    var targets := Targets(fns, only);
    var due := Due(targets, rows, key);
    UniqueSelect(fns, f => only.None? || f in only.value);
    UniqueSelect(targets, f => !Hit(rows, f, key));
    HitIsCached(rows, f, key);
    SavedRows(rows, due, key, Outcomes(env, due, outputs), f);
  }

  // ---- The service ----

  datatype EnrichError = BadConcurrency | BadBudget | NotFound | UnknownLevel | UnsupportedLanguage

  /** `due_functions`: the loop over the level's functions. */
  method DueFunctions(level: string, rows: map<string, Row>, key: Key, only: Option<set<string>>)
    returns (r: Result<seq<string>, EnrichError>)
    ensures r.Err? <==> FunctionsForLevel(level).None?
    ensures r.Err? ==> r.error == UnknownLevel
    ensures r.Ok? ==> r.value == Due(Targets(FunctionsForLevel(level).value, only), rows, key)
    ensures r.Ok? ==>
              forall f :: f in r.value <==>
                f in FunctionsForLevel(level).value && (only.None? || f in only.value) && !Cached(rows, f, key)
  {
    var fns := FunctionsForLevel(level);
    if fns.None? {
      return Err(UnknownLevel);
    }
    var due := [];
    for i := 0 to |fns.value|
      invariant due + Due(Targets(fns.value[i..], only), rows, key) == Due(Targets(fns.value, only), rows, key)
    {
      var f := fns.value[i];
      TargetsStep(fns.value[i..], only, rows, key);
      assert fns.value[i..][1..] == fns.value[i + 1..];
      if only.Some? && f !in only.value {
        continue;
      }
      if Hit(rows, f, key) {
        continue;
      }
      due := due + [f];
    }
    DueMembers(fns.value, only, rows, key);
    assert fns.value[|fns.value|..] == [];
    r := Ok(due);
  }

  lemma DueMembers(fns: seq<string>, only: Option<set<string>>, rows: map<string, Row>, key: Key)
    ensures forall f :: f in Due(Targets(fns, only), rows, key) <==>
              f in fns && (only.None? || f in only.value) && !Cached(rows, f, key)
  {
    forall f ensures Hit(rows, f, key) <==> Cached(rows, f, key) {
      HitIsCached(rows, f, key);
    }
  }

  lemma TargetsStep(fns: seq<string>, only: Option<set<string>>, rows: map<string, Row>, key: Key)
    requires fns != []
    ensures Due(Targets(fns, only), rows, key)
            == (if (only.None? || fns[0] in only.value) && !Hit(rows, fns[0], key) then [fns[0]] else [])
               + Due(Targets(fns[1..], only), rows, key)
  {
    var rest := Targets(fns[1..], only);
    assert ([fns[0]] + rest)[1..] == rest;
  }

  class EnrichmentCache {
    var rows: map<string, Row>

    /** `enrich_vulnerability` without a concurrent run: `level` is None when the
        vulnerability is missing, `outputs` is what the fan-out collected. */
    method EnrichVulnerability(level: Option<string>, key: Key, language: string, maxConcurrency: int, budget: int,
                               only: Option<set<string>>, env: Setting, outputs: map<string, Output>)
      returns (r: Result<RunResult, EnrichError>)
      modifies this
      ensures r.Ok? <==>
              && maxConcurrency >= 1 && budget > 0 && level.Some? && FunctionsForLevel(level.value).Some?
              && (language == "en" || Due(Targets(FunctionsForLevel(level.value).value, only), old(rows), key) == [])
      ensures r.Err? ==>
                && rows == old(rows)
                && r.error == if maxConcurrency < 1 then BadConcurrency
                              else if budget <= 0 then BadBudget
                              else if level.None? then NotFound
                              else if FunctionsForLevel(level.value).None? then UnknownLevel
                              else UnsupportedLanguage
      ensures r.Ok? ==>
                var targets := Targets(FunctionsForLevel(level.value).value, only);
                var due := Due(targets, old(rows), key);
                var outcomes := Outcomes(env, due, outputs);
                && rows == Saved(old(rows), due, key, outcomes)
                && r.value == ResultOf(targets, due, outcomes)
      ensures r.Ok? ==>
                forall f ::
                  if f in FunctionsForLevel(level.value).value && (only.None? || f in only.value) && !Cached(old(rows), f, key)
                  then f in rows && Records(env, RowOf(old(rows), f), if f in outputs then outputs[f] else Missing, key, f, rows[f])
                  else RowOf(rows, f) == RowOf(old(rows), f)
      ensures r.Ok? ==>
                forall f ::
                  var due := f in FunctionsForLevel(level.value).value && (only.None? || f in only.value)
                             && !Cached(old(rows), f, key);
                  && (f in r.value.skipped <==>
                        f in FunctionsForLevel(level.value).value && (only.None? || f in only.value) && Cached(old(rows), f, key))
                  && (f in r.value.succeeded <==> due && f in rows && rows[f].status == Good)
                  && (f in r.value.failed <==> due && f in rows && rows[f].status == Failed)
    {
      if maxConcurrency < 1 {
        return Err(BadConcurrency);
      } else if budget <= 0 {
        return Err(BadBudget);
      } else if level.None? {
        return Err(NotFound);
      }
      var found := DueFunctions(level.value, rows, key, only);
      if found.Err? {
        return Err(found.error);
      }
      var targets, due := Targets(FunctionsForLevel(level.value).value, only), found.value;
      if due != [] && language != "en" {
        return Err(UnsupportedLanguage);
      }
      var outcomes := Outcomes(env, due, outputs);
      var succeeded, failed := SaveDue(due, key, outcomes);
      LevelsAreUnique(level.value);
      forall f ensures
          if f in FunctionsForLevel(level.value).value && (only.None? || f in only.value) && !Cached(old(rows), f, key)
          then f in rows && Records(env, RowOf(old(rows), f), if f in outputs then outputs[f] else Missing, key, f, rows[f])
          else RowOf(rows, f) == RowOf(old(rows), f)
      {
        RunRecords(FunctionsForLevel(level.value).value, only, old(rows), key, env, outputs, f);
      }
      ghost var fns := FunctionsForLevel(level.value).value;
      r := Ok(RunResult(succeeded, failed, Select(targets, f => f !in due)));
      forall f ensures
          var wanted := f in fns && (only.None? || f in only.value) && !Cached(old(rows), f, key);
          && (f in r.value.skipped <==> f in fns && (only.None? || f in only.value) && Cached(old(rows), f, key))
          && (f in r.value.succeeded <==> wanted && f in rows && rows[f].status == Good)
          && (f in r.value.failed <==> wanted && f in rows && rows[f].status == Failed)
      {
        ResultTells(fns, only, old(rows), key, env, outputs, f);
        RunRecords(fns, only, old(rows), key, env, outputs, f);
      }
    }

    /** The loop that upserts one due function after the other. */
    method SaveDue(due: seq<string>, key: Key, outcomes: map<string, Result<string, string>>)
      returns (succeeded: seq<string>, failed: seq<string>)
      requires forall f | f in due :: f in outcomes
      modifies this
      ensures rows == Saved(old(rows), due, key, outcomes)
      ensures succeeded == Select(due, f => f in outcomes && outcomes[f].Ok?)
      ensures failed == Select(due, f => f in outcomes && outcomes[f].Err?)
    {
      succeeded, failed := [], [];
      for i := 0 to |due|
        invariant rows == Saved(old(rows), due[..i], key, outcomes)
        invariant succeeded == Select(due[..i], f => f in outcomes && outcomes[f].Ok?)
        invariant failed == Select(due[..i], f => f in outcomes && outcomes[f].Err?)
      {
        var outcome := outcomes[due[i]];
        assert due[..i + 1] == due[..i] + [due[i]];
        SelectMore(due[..i], due[i], f => f in outcomes && outcomes[f].Ok?);
        SelectMore(due[..i], due[i], f => f in outcomes && outcomes[f].Err?);
        SavedMore(old(rows), due, i, key, outcomes);
        if outcome.Ok? {
          succeeded := succeeded + [due[i]];
        } else {
          failed := failed + [due[i]];
        }
        rows := Upserted(rows, due[i], key, outcome);
      }
      assert due[..|due|] == due;
    }
  }

  lemma SavedMore(rows: map<string, Row>, due: seq<string>, i: nat, key: Key, outcomes: map<string, Result<string, string>>)
    requires i < |due| && forall f | f in due :: f in outcomes
    ensures Saved(rows, due[..i + 1], key, outcomes)
            == Upserted(Saved(rows, due[..i], key, outcomes), due[i], key, outcomes[due[i]])
  {
    assert due[..i + 1][..i] == due[..i];
  }

  function Outcomes(env: Setting, due: seq<string>, outputs: map<string, Output>)
    : (m: map<string, Result<string, string>>)
    ensures forall f :: f in m <==> f in due
  {
    map f | f in due :: Outcome(env, if f in outputs then outputs[f] else Missing)
  }

  lemma {:induction false} SelectMore(s: seq<string>, x: string, keep: string -> bool)
    ensures Select(s + [x], keep) == Select(s, keep) + (if keep(x) then [x] else [])
  {
    if s == [] {
      assert s + [x] == [x];
    } else {
      SelectMore(s[1..], x, keep);
      assert (s + [x])[1..] == s[1..] + [x];
    }
  }
}
