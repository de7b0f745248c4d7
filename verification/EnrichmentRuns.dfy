/** Overlapping enrichment runs over one cache. A run reads the rows once, upserts
    its due functions one after the other, holding each row's lock until it
    commits or aborts; an upsert waits for the row's lock and then sees the
    committed row. */
module EnrichmentRuns {
  import opened Wrappers
  import opened Enrichment

  datatype Run = Run(key: Key, targets: seq<string>, due: seq<string>, at: nat,
                     outcomes: map<string, Result<string, string>>, staged: map<string, Row>)

  datatype Closed = Closed(targets: seq<string>, result: RunResult)

  datatype State = State(rows: map<string, Row>, runs: map<nat, Run>, closed: map<nat, Closed>)

  datatype Action =
    | Begin(r: nat, targets: seq<string>, key: Key)
    | Save(r: nat, outcome: Result<string, string>)
    | Commit(r: nat)
    | Abort(r: nat)

  ghost predicate Enabled(s: State, a: Action) {
    match a
    case Begin(r, targets, _) => r !in s.runs && r !in s.closed && Unique(targets)
    case Save(r, _) =>
      && r in s.runs && s.runs[r].at < |s.runs[r].due|
      && forall q | q in s.runs && q != r :: s.runs[r].due[s.runs[r].at] !in s.runs[q].staged
    case Commit(r) => r in s.runs && s.runs[r].at == |s.runs[r].due|
    case Abort(r) => r in s.runs
  }

  ghost predicate RunOk(run: Run) {
    && Unique(run.targets) && Unique(run.due) && run.at <= |run.due|
    && run.due == Select(run.targets, f => f in run.due)
    && (forall f :: f in run.staged <==> f in run.due[..run.at])
    && (forall f :: f in run.outcomes <==> f in run.due[..run.at])
  }

  /** A row saved in an open transaction is the upsert of the committed row. */
  ghost predicate StagedOk(rows: map<string, Row>, run: Run) {
    forall f | f in run.staged ::
      f in run.outcomes && f in Upserted(rows, f, run.key, run.outcomes[f])
      && run.staged[f] == Upserted(rows, f, run.key, run.outcomes[f])[f]
  }

  ghost predicate Inv(s: State) {
    && (forall r | r in s.runs :: RunOk(s.runs[r]) && StagedOk(s.rows, s.runs[r]))
    && (forall r, q, f | r in s.runs && q in s.runs && f in s.runs[r].staged && f in s.runs[q].staged :: r == q)
    && (forall r | r in s.closed :: Splits(s.closed[r].targets, s.closed[r].result))
  }

  ghost function SaveIn(rows: map<string, Row>, run: Run, outcome: Result<string, string>): Run
    requires run.at < |run.due|
  {
    var f := run.due[run.at];
    var after := Upserted(rows, f, run.key, outcome);
    run.(at := run.at + 1, outcomes := run.outcomes[f := outcome], staged := run.staged[f := after[f]])
  }

  ghost function Apply(s: State, a: Action): State
    requires Inv(s) && Enabled(s, a)
  {
    match a
    case Begin(r, targets, key) =>
      s.(runs := s.runs[r := Run(key, targets, Due(targets, s.rows, key), 0, map[], map[])])
    case Save(r, outcome) => s.(runs := s.runs[r := SaveIn(s.rows, s.runs[r], outcome)])
    case Commit(r) =>
      var run := s.runs[r];
      assert run.due[..run.at] == run.due;
      State(s.rows + run.staged, s.runs - {r},
            s.closed[r := Closed(run.targets, ResultOf(run.targets, run.due, run.outcomes))])
    case Abort(r) => s.(runs := s.runs - {r})
  }

  lemma SaveKeepsRun(rows: map<string, Row>, run: Run, outcome: Result<string, string>)
    requires RunOk(run) && StagedOk(rows, run) && run.at < |run.due|
    ensures RunOk(SaveIn(rows, run, outcome)) && StagedOk(rows, SaveIn(rows, run, outcome))
  {
    SaveKeepsOrder(rows, run, outcome);
    SaveKeepsStaged(rows, run, outcome);
  }

  lemma SaveKeepsOrder(rows: map<string, Row>, run: Run, outcome: Result<string, string>)
    requires RunOk(run) && run.at < |run.due|
    ensures RunOk(SaveIn(rows, run, outcome))
  {
    var f := run.due[run.at];
    assert run.due[..run.at + 1] == run.due[..run.at] + [f];
  }

  lemma SaveKeepsStaged(rows: map<string, Row>, run: Run, outcome: Result<string, string>)
    requires StagedOk(rows, run) && run.at < |run.due|
    ensures StagedOk(rows, SaveIn(rows, run, outcome))
  {
  }

  lemma BeginKeeps(s: State, r: nat, targets: seq<string>, key: Key)
    requires Inv(s) && Enabled(s, Begin(r, targets, key))
    ensures Inv(Apply(s, Begin(r, targets, key)))
  {
    var due := Due(targets, s.rows, key);
    DueIsSelection(targets, s.rows, key);
    UniqueSelect(targets, f => !Hit(s.rows, f, key));
    PutRun(s, r, Run(key, targets, due, 0, map[], map[]));
  }

  lemma PutRun(s: State, r: nat, run: Run)
    requires Inv(s) && RunOk(run) && StagedOk(s.rows, run)
    requires forall q | q in s.runs && q != r :: forall f | f in run.staged :: f !in s.runs[q].staged
    ensures Inv(s.(runs := s.runs[r := run]))
  {
  }

  lemma SaveKeeps(s: State, r: nat, outcome: Result<string, string>)
    requires Inv(s) && Enabled(s, Save(r, outcome))
    ensures Inv(Apply(s, Save(r, outcome)))
  {
    var run, next := s.runs[r], SaveIn(s.rows, s.runs[r], outcome);
    SaveKeepsRun(s.rows, run, outcome);
    assert forall g | g in next.staged :: g in run.staged || g == run.due[run.at];
    PutRun(s, r, next);
  }

  lemma CommitKeeps(s: State, r: nat)
    requires Inv(s) && Enabled(s, Commit(r))
    ensures Inv(Apply(s, Commit(r)))
  {
    var run := s.runs[r];
    assert run.due[..run.at] == run.due;
    ResultSplitsTargets(run.targets, run.due, run.outcomes);
    forall q | q in s.runs && q != r ensures StagedOk(s.rows + run.staged, s.runs[q]) {
      CommitKeepsOthers(s.rows, run.staged, s.runs[q]);
    }
  }

  lemma ActionKeeps(s: State, a: Action)
    requires Inv(s) && Enabled(s, a)
    ensures Inv(Apply(s, a))
  {
    match a
    case Begin(r, targets, key) => BeginKeeps(s, r, targets, key);
    case Save(r, outcome) => SaveKeeps(s, r, outcome);
    case Commit(r) => CommitKeeps(s, r);
    case Abort(r) => AbortKeeps(s, r);
  }

  lemma AbortKeeps(s: State, r: nat)
    requires Inv(s) && r in s.runs
    ensures Inv(s.(runs := s.runs - {r}))
  {
  }

  lemma CommitKeepsOthers(rows: map<string, Row>, staged: map<string, Row>, run: Run)
    requires StagedOk(rows, run) && forall f | f in run.staged :: f !in staged
    ensures StagedOk(rows + staged, run)
  {
    forall f | f in run.staged
      ensures Upserted(rows + staged, f, run.key, run.outcomes[f])[f] == Upserted(rows, f, run.key, run.outcomes[f])[f]
    {
    }
  }

  // ---- Runs of the machine ----

  ghost predicate Legal(s: State, actions: seq<Action>)
    requires Inv(s)
    decreases |actions|
  {
    actions == [] || (Enabled(s, actions[0]) && Inv(Apply(s, actions[0])) && Legal(Apply(s, actions[0]), actions[1..]))
  }

  ghost function RunAll(s: State, actions: seq<Action>): (t: State)
    requires Inv(s) && Legal(s, actions)
    ensures Inv(t)
    decreases |actions|
  {
    if actions == [] then s else RunAll(Apply(s, actions[0]), actions[1..])
  }

  /** In every closed run succeeded, failed and skipped split the targets. */
  lemma EveryResultSplitsItsTargets(s: State, actions: seq<Action>, r: nat)
    requires Inv(s) && Legal(s, actions) && r in RunAll(s, actions).closed
    ensures Splits(RunAll(s, actions).closed[r].targets, RunAll(s, actions).closed[r].result)
  {
  }

  // ---- A stored success ----

  /** The step commits a run that wrote `f`. */
  ghost predicate Writes(s: State, a: Action, f: string) {
    a.Commit? && a.r in s.runs && f in s.runs[a.r].staged
  }

  /** What one step does to a stored success: it ends exactly when a run with
      another key commits a write, and is replaced exactly by that or by a success. */
  lemma StepOnHit(s: State, a: Action, f: string, key: Key)
    requires Inv(s) && Enabled(s, a) && Hit(s.rows, f, key)
    ensures Hit(Apply(s, a).rows, f, key) <==> !(Writes(s, a, f) && At(s.runs[a.r].key, f) != At(key, f))
    ensures Apply(s, a).rows[f] == s.rows[f] <==>
            !(Writes(s, a, f) && (At(s.runs[a.r].key, f) != At(key, f) || s.runs[a.r].outcomes[f].Ok?))
  {
    if Writes(s, a, f) {
      var run := s.runs[a.r];
      assert StagedOk(s.rows, run);
      UpsertKeepsHits(s.rows, f, f, key, run.key, run.outcomes[f]);
    }
  }

  /** No run with another key commits a write of `f`. */
  ghost predicate NoForeignWrite(s: State, actions: seq<Action>, f: string, key: Key)
    requires Inv(s) && Legal(s, actions)
    decreases |actions|
  {
    actions == []
    || (!(Writes(s, actions[0], f) && At(s.runs[actions[0].r].key, f) != At(key, f))
        && NoForeignWrite(Apply(s, actions[0]), actions[1..], f, key))
  }

  lemma {:induction false} StoredSuccessStays(s: State, actions: seq<Action>, f: string, key: Key)
    requires Inv(s) && Legal(s, actions) && Hit(s.rows, f, key) && NoForeignWrite(s, actions, f, key)
    ensures Hit(RunAll(s, actions).rows, f, key)
    decreases |actions|
  {
    if actions != [] {
      StepOnHit(s, actions[0], f, key);
      StoredSuccessStays(Apply(s, actions[0]), actions[1..], f, key);
    }
  }

  /** No open run with this key read the rows before the success was there. */
  ghost predicate NoOverlap(s: State, f: string, key: Key) {
    forall r | r in s.runs && At(s.runs[r].key, f) == At(key, f) :: f !in s.runs[r].due
  }

  lemma OverlapNeverStarts(s: State, a: Action, f: string, key: Key)
    requires Inv(s) && Enabled(s, a) && Hit(s.rows, f, key) && NoOverlap(s, f, key)
    ensures NoOverlap(Apply(s, a), f, key)
  {
  }

  /** Without such an overlap the whole row, content included, stays. */
  lemma {:induction false} StoredContentStays(s: State, actions: seq<Action>, f: string, key: Key)
    requires Inv(s) && Legal(s, actions) && Hit(s.rows, f, key) && NoForeignWrite(s, actions, f, key)
    requires NoOverlap(s, f, key)
    ensures f in RunAll(s, actions).rows && RunAll(s, actions).rows[f] == s.rows[f]
    decreases |actions|
  {
    if actions != [] {
      var a := actions[0];
      StepOnHit(s, a, f, key);
      OverlapNeverStarts(s, a, f, key);
      forall r | r in s.runs && f in s.runs[r].staged ensures f in s.runs[r].due {
        assert f in s.runs[r].due[..s.runs[r].at];
      }
      StoredContentStays(Apply(s, a), actions[1..], f, key);
    }
  }

  /** The step replaces a stored success: by another key's write or by a new success. */
  ghost predicate Replaces(s: State, a: Action, f: string, key: Key) {
    Writes(s, a, f) && f in s.runs[a.r].outcomes && (At(s.runs[a.r].key, f) != At(key, f) || s.runs[a.r].outcomes[f].Ok?)
  }

  ghost predicate NeverReplaces(s: State, actions: seq<Action>, f: string, key: Key)
    requires Inv(s) && Legal(s, actions)
    decreases |actions|
  {
    actions == [] || (!Replaces(s, actions[0], f, key) && NeverReplaces(Apply(s, actions[0]), actions[1..], f, key))
  }

  /** A row never goes away, and every replacement counts as an attempt. */
  lemma AttemptsGrow(s: State, a: Action, f: string)
    requires Inv(s) && Enabled(s, a) && f in s.rows
    ensures f in Apply(s, a).rows
    ensures Apply(s, a).rows[f] == s.rows[f] || Apply(s, a).rows[f].attempts > s.rows[f].attempts
  {
    if Writes(s, a, f) {
      assert StagedOk(s.rows, s.runs[a.r]);
    }
  }

  lemma {:induction false} AttemptsOnlyGrow(s: State, actions: seq<Action>, f: string)
    requires Inv(s) && Legal(s, actions) && f in s.rows
    ensures f in RunAll(s, actions).rows && RunAll(s, actions).rows[f].attempts >= s.rows[f].attempts
    decreases |actions|
  {
    if actions != [] {
      AttemptsGrow(s, actions[0], f);
      AttemptsOnlyGrow(Apply(s, actions[0]), actions[1..], f);
    }
  }

  lemma ReplacedOrStays(s: State, a: Action, f: string, key: Key)
    requires Inv(s) && Enabled(s, a) && Hit(s.rows, f, key)
    ensures f in Apply(s, a).rows
    ensures Replaces(s, a, f, key) ==> Apply(s, a).rows[f].attempts > s.rows[f].attempts
    ensures !Replaces(s, a, f, key) ==> Apply(s, a).rows[f] == s.rows[f]
  {
    StepOnHit(s, a, f, key);
    AttemptsGrow(s, a, f);
    if Writes(s, a, f) {
      assert StagedOk(s.rows, s.runs[a.r]);
    }
  }

  /** Over every run a stored success is the same row at the end exactly if no step has
      replaced it. */
  lemma {:induction false} StoredRowStaysIff(s: State, actions: seq<Action>, f: string, key: Key)
    requires Inv(s) && Legal(s, actions) && Hit(s.rows, f, key)
    ensures f in RunAll(s, actions).rows
    ensures RunAll(s, actions).rows[f] == s.rows[f] <==> NeverReplaces(s, actions, f, key)
    decreases |actions|
  {
    if actions != [] {
      var next := Apply(s, actions[0]);
      ReplacedOrStays(s, actions[0], f, key);
      if Replaces(s, actions[0], f, key) {
        AttemptsOnlyGrow(next, actions[1..], f);
      } else {
        StoredRowStaysIff(next, actions[1..], f, key);
      }
    }
  }

  const EMPTY := State(map[], map[], map[])

  function Reader(key: Key, f: string): Run {
    Run(key, [f], [f], 0, map[], map[])
  }

  function Writer(key: Key, f: string, content: string, attempts: nat): Run {
    Run(key, [f], [f], 1, map[f := Ok(content)], map[f := Row(Good, At(key, f), Some(content), None, attempts)])
  }

  /** Run 2 has read the empty cache before run 1, with the same key, stored `content`. */
  function Overlapped(key: Key, f: string, content: string): State {
    State(map[f := Row(Good, At(key, f), Some(content), None, 1)], map[2 := Reader(key, f)],
          map[1 := Closed([f], RunResult([f], [], []))])
  }

  lemma SelectOne(f: string, keep: string -> bool)
    ensures Select([f], keep) == if keep(f) then [f] else []
  {
    var one := [f];
    assert one[1..] == [];
  }

  lemma OneStep(s: State, a: Action, rest: seq<Action>)
    requires Inv(s) && Enabled(s, a) && Inv(Apply(s, a)) && Legal(Apply(s, a), rest)
    ensures Legal(s, [a] + rest) && RunAll(s, [a] + rest) == RunAll(Apply(s, a), rest)
  {
    assert ([a] + rest)[1..] == rest;
  }

  lemma FirstBegin(key: Key, f: string, s: State, r: nat)
    requires Inv(s) && s.rows == map[] && s.closed == map[] && r !in s.runs
    ensures Enabled(s, Begin(r, [f], key)) && Inv(Apply(s, Begin(r, [f], key)))
    ensures Apply(s, Begin(r, [f], key)) == s.(runs := s.runs[r := Reader(key, f)])
  {
    SelectOne(f, g => !Hit(map[], g, key));
    ActionKeeps(s, Begin(r, [f], key));
  }

  lemma SaveOne(key: Key, f: string, content: string, s: State, r: nat, attempts: nat)
    requires Inv(s) && r in s.runs && s.runs[r] == Reader(key, f)
    requires attempts == if f in s.rows then s.rows[f].attempts + 1 else 1
    requires forall q | q in s.runs :: f !in s.runs[q].staged
    ensures Enabled(s, Save(r, Ok(content))) && Inv(Apply(s, Save(r, Ok(content))))
    ensures Apply(s, Save(r, Ok(content))) == s.(runs := s.runs[r := Writer(key, f, content, attempts)])
  {
    SavedWriter(s.rows, key, f, content, attempts);
    SaveKeeps(s, r, Ok(content));
  }

  lemma SavedWriter(rows: map<string, Row>, key: Key, f: string, content: string, attempts: nat)
    requires attempts == if f in rows then rows[f].attempts + 1 else 1
    ensures SaveIn(rows, Reader(key, f), Ok(content)) == Writer(key, f, content, attempts)
  {
  }

  lemma CommitOne(key: Key, f: string, content: string, s: State, r: nat, attempts: nat)
    requires Inv(s) && r in s.runs && s.runs[r] == Writer(key, f, content, attempts)
    ensures Enabled(s, Commit(r)) && Inv(Apply(s, Commit(r)))
    ensures Apply(s, Commit(r))
            == State(s.rows + map[f := Row(Good, At(key, f), Some(content), None, attempts)], s.runs - {r},
                     s.closed[r := Closed([f], RunResult([f], [], []))])
  {
    ActionKeeps(s, Commit(r));
    var one: seq<string> := [f];
    var outcomes: map<string, Result<string, string>> := map[f := Ok(content)];
    SelectOne(f, g => g in outcomes && outcomes[g].Ok?);
    SelectOne(f, g => g in outcomes && outcomes[g].Err?);
    SelectOne(f, g => g !in one);
    assert ResultOf(one, one, outcomes) == RunResult([f], [], []);
  }

  lemma WriterCommits(key: Key, f: string, content: string, s: State)
    requires Inv(s) && s.rows == map[] && s.closed == map[]
    requires s.runs == map[2 := Reader(key, f), 1 := Reader(key, f)][1 := Writer(key, f, content, 1)]
    ensures Legal(s, [Commit(1)]) && RunAll(s, [Commit(1)]) == Overlapped(key, f, content)
  {
    CommitOne(key, f, content, s, 1, 1);
    WithoutFirst(Reader(key, f), Writer(key, f, content, 1));
    LastStep(s, Commit(1));
  }

  lemma WithoutFirst(reader: Run, writer: Run)
    ensures map[2 := reader, 1 := reader][1 := writer] - {1} == map[2 := reader]
  {
  }

  lemma WriterFinishes(key: Key, f: string, content: string, s: State)
    requires Inv(s) && s.rows == map[] && s.closed == map[]
    requires s.runs == map[2 := Reader(key, f), 1 := Reader(key, f)]
    ensures Legal(s, [Save(1, Ok(content))] + [Commit(1)])
    ensures RunAll(s, [Save(1, Ok(content))] + [Commit(1)]) == Overlapped(key, f, content)
  {
    assert forall q | q in s.runs :: s.runs[q] == Reader(key, f);
    SaveOne(key, f, content, s, 1, 1);
    WriterCommits(key, f, content, Apply(s, Save(1, Ok(content))));
    OneStep(s, Save(1, Ok(content)), [Commit(1)]);
  }

  /** The overlapped state is reached from the empty cache. */
  lemma OverlapIsReached(key: Key, f: string, content: string)
    ensures var actions := [Begin(2, [f], key)] + ([Begin(1, [f], key)] + ([Save(1, Ok(content))] + [Commit(1)]));
            Inv(EMPTY) && Legal(EMPTY, actions) && RunAll(EMPTY, actions) == Overlapped(key, f, content)
  {
    var a, b := Begin(2, [f], key), Begin(1, [f], key);
    var rest := [Save(1, Ok(content))] + [Commit(1)];
    FirstBegin(key, f, EMPTY, 2);
    var s1 := Apply(EMPTY, a);
    FirstBegin(key, f, s1, 1);
    WriterFinishes(key, f, content, Apply(s1, b));
    OneStep(s1, b, rest);
    OneStep(EMPTY, a, [b] + rest);
  }

  lemma LastStep(s: State, a: Action)
    requires Inv(s) && Enabled(s, a) && Inv(Apply(s, a))
    ensures Legal(s, [a]) && RunAll(s, [a]) == Apply(s, a)
  {
    OneStep(s, a, []);
    assert [a] + [] == [a];
  }

  /** With an overlap the content changes although no other key ever writes: the
      second run's success replaces the stored one. */
  lemma OverlapReplacesContent(key: Key, f: string, first: string, second: string)
    ensures var s := Overlapped(key, f, first);
            var actions := [Save(2, Ok(second))] + [Commit(2)];
            && Inv(s) && Legal(s, actions) && Hit(s.rows, f, key) && s.rows[f].content == Some(first)
            && NoForeignWrite(s, actions, f, key)
            && Hit(RunAll(s, actions).rows, f, key)
            && RunAll(s, actions).rows[f].content == Some(second)
  {
    OverlapIsReached(key, f, first);
    var s, save, commit := Overlapped(key, f, first), Save(2, Ok(second)), Commit(2);
    SaveOne(key, f, second, s, 2, 2);
    var s1 := Apply(s, save);
    SecondCommits(key, f, second, s1);
    OneStep(s, save, [commit]);
    QuietStep(s, save, [commit], f, key);
  }

  lemma QuietStep(s: State, a: Action, rest: seq<Action>, f: string, key: Key)
    requires Inv(s) && Enabled(s, a) && Inv(Apply(s, a)) && Legal(Apply(s, a), rest) && !a.Commit?
    requires NoForeignWrite(Apply(s, a), rest, f, key) && Legal(s, [a] + rest)
    ensures NoForeignWrite(s, [a] + rest, f, key)
  {
    assert ([a] + rest)[1..] == rest;
  }

  lemma SecondCommits(key: Key, f: string, content: string, s: State)
    requires Inv(s) && 2 in s.runs && s.runs[2] == Writer(key, f, content, 2)
    ensures Legal(s, [Commit(2)]) && NoForeignWrite(s, [Commit(2)], f, key)
    ensures Hit(RunAll(s, [Commit(2)]).rows, f, key) && RunAll(s, [Commit(2)]).rows[f].content == Some(content)
  {
    CommitOne(key, f, content, s, 2, 2);
    LastStep(s, Commit(2));
    NoForeignCommit(s, 2, f, key);
  }

  lemma NoForeignCommit(s: State, r: nat, f: string, key: Key)
    requires Inv(s) && Legal(s, [Commit(r)]) && r in s.runs && s.runs[r].key == key
    ensures NoForeignWrite(s, [Commit(r)], f, key)
  {
    var none: seq<Action> := [Commit(r)][1..];
    assert none == [];
  }

  // ---- The next run ----

  /** When a run in which nothing failed commits, the next identical run has to do
      exactly the skipped functions that others have overwritten since. */
  lemma DueAfterAllSuccess(s: State, r: nat)
    requires Inv(s) && Enabled(s, Commit(r))
    requires forall f | f in s.runs[r].due :: f in s.runs[r].outcomes ==> s.runs[r].outcomes[f].Ok?
    ensures var run := s.runs[r];
            Due(run.targets, Apply(s, Commit(r)).rows, run.key)
            == Select(run.targets, f => f !in run.due && !Hit(s.rows, f, run.key))
  {
    var run, after := s.runs[r], Apply(s, Commit(r)).rows;
    assert run.due[..run.at] == run.due;
    forall f | f in run.targets ensures !Hit(after, f, run.key) == (f !in run.due && !Hit(s.rows, f, run.key)) {
      if f in run.due {
        assert f in run.staged && StagedOk(s.rows, run) && run.outcomes[f].Ok?;
      } else {
        assert f !in run.staged;
      }
    }
    SelectSame(run.targets, f => !Hit(after, f, run.key), f => f !in run.due && !Hit(s.rows, f, run.key));
  }

  lemma SomethingIn(s: seq<string>)
    ensures s != [] ==> exists x :: x in s
  {
    if s != [] {
      assert s[0] in s;
    }
  }

  lemma {:induction false} RunStays(s: State, actions: seq<Action>, r: nat)
    requires Inv(s) && Legal(s, actions) && r in s.runs && Commit(r) !in actions && Abort(r) !in actions
    ensures r in RunAll(s, actions).runs
    ensures var was, now := s.runs[r], RunAll(s, actions).runs[r];
            now.targets == was.targets && now.key == was.key && now.due == was.due
    decreases |actions|
  {
    if actions != [] {
      assert actions[0] in actions;
      RunStays(Apply(s, actions[0]), actions[1..], r);
    }
  }

  /** An all-success run during which no other key wrote a skipped function makes
      the next identical run's due set empty. */
  lemma NothingDueAfterQuietSuccess(s: State, a: Action, actions: seq<Action>)
    requires Inv(s) && a.Begin? && Enabled(s, a) && Inv(Apply(s, a)) && Legal(Apply(s, a), actions)
    requires Commit(a.r) !in actions && Abort(a.r) !in actions
    requires var t := RunAll(Apply(s, a), actions);
             && Enabled(t, Commit(a.r))
             && forall f | f in t.runs[a.r].due :: f in t.runs[a.r].outcomes ==> t.runs[a.r].outcomes[f].Ok?
    requires forall f | f in a.targets && Hit(s.rows, f, a.key) :: NoForeignWrite(Apply(s, a), actions, f, a.key)
    ensures Due(a.targets, Apply(RunAll(Apply(s, a), actions), Commit(a.r)).rows, a.key) == []
  {
    var t := RunAll(Apply(s, a), actions);
    RunStays(Apply(s, a), actions, a.r);
    forall f | f in a.targets && Hit(s.rows, f, a.key) ensures Hit(t.rows, f, a.key) {
      StoredSuccessStays(Apply(s, a), actions, f, a.key);
    }
    DueAfterAllSuccess(t, a.r);
    var left := Select(a.targets, f => f !in t.runs[a.r].due && !Hit(t.rows, f, a.key));
    assert forall f :: f !in left;
    SomethingIn(left);
  }

  // ---- A run alone ----

  function Saves(r: nat, due: seq<string>, outcomes: map<string, Result<string, string>>): seq<Action>
    requires forall f | f in due :: f in outcomes
  {
    if due == [] then [] else [Save(r, outcomes[due[0]])] + Saves(r, due[1..], outcomes)
  }

  /** The run has saved the first `n` of its functions. */
  ghost predicate Plan(rows: map<string, Row>, run: Run, n: nat, outcomes: map<string, Result<string, string>>) {
    && run.at == n <= |run.due| && Unique(run.due)
    && (forall f | f in run.due :: f in outcomes)
    && (forall f | f in run.outcomes :: f in outcomes && run.outcomes[f] == outcomes[f])
    && rows + run.staged == Saved(rows, run.due[..n], run.key, outcomes)
  }

  /** And nobody else is there. */
  ghost predicate Midway(s: State, rows: map<string, Row>, r: nat, run: Run, n: nat,
                         outcomes: map<string, Result<string, string>>) {
    Inv(s) && s.rows == rows && s.runs == map[r := run] && Plan(rows, run, n, outcomes)
  }

  lemma PlanNext(rows: map<string, Row>, run: Run, n: nat, outcomes: map<string, Result<string, string>>)
    requires Plan(rows, run, n, outcomes) && n < |run.due|
    ensures Plan(rows, SaveIn(rows, run, outcomes[run.due[n]]), n + 1, outcomes)
  {
    StagedNext(rows, run, n, outcomes);
  }

  lemma OneRun(runs: map<nat, Run>, r: nat, run: Run, next: Run)
    requires runs == map[r := run]
    ensures runs[r := next] == map[r := next]
  {
  }

  lemma SaveAlone(s: State, r: nat, run: Run, outcome: Result<string, string>)
    requires Inv(s) && s.runs == map[r := run] && run.at < |run.due|
    ensures Enabled(s, Save(r, outcome))
    ensures Apply(s, Save(r, outcome)) == s.(runs := map[r := SaveIn(s.rows, run, outcome)])
  {
    AloneIsUnlocked(s, r, run, outcome);
    OneRun(s.runs, r, run, SaveIn(s.rows, run, outcome));
  }

  lemma AloneIsUnlocked(s: State, r: nat, run: Run, outcome: Result<string, string>)
    requires s.runs == map[r := run] && run.at < |run.due|
    ensures Enabled(s, Save(r, outcome))
  {
    assert r in s.runs && s.runs[r] == run && forall q | q in s.runs :: q == r;
  }

  lemma SaveNext(s: State, rows: map<string, Row>, r: nat, run: Run, n: nat, outcomes: map<string, Result<string, string>>)
    requires Midway(s, rows, r, run, n, outcomes) && n < |run.due|
    ensures var a := Save(r, outcomes[run.due[n]]);
            Enabled(s, a) && Midway(Apply(s, a), rows, r, SaveIn(rows, run, outcomes[run.due[n]]), n + 1, outcomes)
  {
    SaveAlone(s, r, run, outcomes[run.due[n]]);
    SaveKeeps(s, r, outcomes[run.due[n]]);
    PlanNext(rows, run, n, outcomes);
  }

  lemma StagedNext(rows: map<string, Row>, run: Run, n: nat, outcomes: map<string, Result<string, string>>)
    requires n < |run.due| && run.at == n && Unique(run.due) && forall f | f in run.due :: f in outcomes
    requires rows + run.staged == Saved(rows, run.due[..n], run.key, outcomes)
    ensures rows + SaveIn(rows, run, outcomes[run.due[n]]).staged == Saved(rows, run.due[..n + 1], run.key, outcomes)
  {
    var f, next := run.due[n], SaveIn(rows, run, outcomes[run.due[n]]);
    SavedMore(rows, run.due, n, run.key, outcomes);
    SavedRowUntouched(rows, run, n, outcomes);
    UpsertOne(rows, Saved(rows, run.due[..n], run.key, outcomes), f, run.key, outcomes[f]);
    StagedOver(rows, run.staged, f, next.staged[f]);
  }

  lemma StagedOver(rows: map<string, Row>, staged: map<string, Row>, f: string, row: Row)
    ensures rows + staged[f := row] == (rows + staged)[f := row]
  {
  }

  lemma SavedRowUntouched(rows: map<string, Row>, run: Run, n: nat, outcomes: map<string, Result<string, string>>)
    requires n < |run.due| && Unique(run.due) && forall f | f in run.due :: f in outcomes
    ensures var f, before := run.due[n], Saved(rows, run.due[..n], run.key, outcomes);
            (f in before <==> f in rows) && (f in rows ==> before[f] == rows[f])
  {
    assert run.due[n] !in run.due[..n];
    SavedRows(rows, run.due[..n], run.key, outcomes, run.due[n]);
  }

  /** An upsert depends on its own row only. */
  lemma UpsertOne(rows: map<string, Row>, other: map<string, Row>, f: string, key: Key, outcome: Result<string, string>)
    requires (f in rows <==> f in other) && (f in rows ==> rows[f] == other[f])
    ensures f in Upserted(rows, f, key, outcome)
    ensures Upserted(other, f, key, outcome) == other[f := Upserted(rows, f, key, outcome)[f]]
  {
  }

  ghost predicate Reaches(s: State, actions: seq<Action>, r: nat, rows: map<string, Row>, closed: Closed) {
    && Inv(s) && Legal(s, actions) && RunAll(s, actions).rows == rows
    && r in RunAll(s, actions).closed && RunAll(s, actions).closed[r] == closed
  }

  lemma ReachesEarlier(s: State, a: Action, actions: seq<Action>, r: nat, rows: map<string, Row>, closed: Closed)
    requires Inv(s) && Enabled(s, a) && Reaches(Apply(s, a), actions, r, rows, closed)
    ensures Reaches(s, [a] + actions, r, rows, closed)
  {
    OneStep(s, a, actions);
  }

  function Ending(run: Run, outcomes: map<string, Result<string, string>>): Closed
    requires forall f | f in run.due :: f in outcomes
  {
    Closed(run.targets, ResultOf(run.targets, run.due, outcomes))
  }

  lemma {:induction false} SavesReachEnd(s: State, rows: map<string, Row>, r: nat, run: Run, n: nat,
                                         outcomes: map<string, Result<string, string>>)
    requires Midway(s, rows, r, run, n, outcomes)
    ensures Reaches(s, Saves(r, run.due[n..], outcomes) + [Commit(r)], r, Saved(rows, run.due, run.key, outcomes),
                    Ending(run, outcomes))
    decreases |run.due| - n
  {
    if n == |run.due| {
      CommitAtEnd(s, rows, r, run, outcomes);
      assert Saves(r, run.due[n..], outcomes) + [Commit(r)] == [Commit(r)];
    } else {
      var a, next := Save(r, outcomes[run.due[n]]), SaveIn(rows, run, outcomes[run.due[n]]);
      var rest := Saves(r, run.due[n + 1..], outcomes) + [Commit(r)];
      assert Enabled(s, a) && Reaches(Apply(s, a), rest, r, Saved(rows, run.due, run.key, outcomes), Ending(run, outcomes)) by {
        SaveNext(s, rows, r, run, n, outcomes);
        SavesReachEnd(Apply(s, a), rows, r, next, n + 1, outcomes);
      }
      ReachesEarlier(s, a, rest, r, Saved(rows, run.due, run.key, outcomes), Ending(run, outcomes));
      SavesSplit(r, run.due, n, outcomes);
    }
  }

  lemma SavesSplit(r: nat, due: seq<string>, n: nat, outcomes: map<string, Result<string, string>>)
    requires n < |due| && forall f | f in due :: f in outcomes
    ensures Saves(r, due[n..], outcomes) + [Commit(r)]
            == [Save(r, outcomes[due[n]])] + (Saves(r, due[n + 1..], outcomes) + [Commit(r)])
  {
    assert due[n..][1..] == due[n + 1..];
  }

  lemma SameResult(run: Run, outcomes: map<string, Result<string, string>>)
    requires RunOk(run) && run.at == |run.due| && forall f | f in run.due :: f in outcomes
    requires forall f | f in run.outcomes :: f in outcomes && run.outcomes[f] == outcomes[f]
    ensures forall f | f in run.due :: f in run.outcomes
    ensures ResultOf(run.targets, run.due, run.outcomes) == ResultOf(run.targets, run.due, outcomes)
  {
    assert run.due[..run.at] == run.due;
    SelectSame(run.due, f => f in run.outcomes && run.outcomes[f].Ok?, f => f in outcomes && outcomes[f].Ok?);
    SelectSame(run.due, f => f in run.outcomes && run.outcomes[f].Err?, f => f in outcomes && outcomes[f].Err?);
  }

  lemma CommitAtEnd(s: State, rows: map<string, Row>, r: nat, run: Run, outcomes: map<string, Result<string, string>>)
    requires Midway(s, rows, r, run, |run.due|, outcomes)
    ensures Reaches(s, [Commit(r)], r, Saved(rows, run.due, run.key, outcomes), Ending(run, outcomes))
  {
    assert r in s.runs && s.runs[r] == run;
    CommitKeeps(s, r);
    CommitLeaves(s, rows, r, run, outcomes);
    LastStep(s, Commit(r));
  }

  lemma CommitLeaves(s: State, rows: map<string, Row>, r: nat, run: Run, outcomes: map<string, Result<string, string>>)
    requires Inv(s) && r in s.runs && s.runs[r] == run && s.rows == rows && Plan(rows, run, |run.due|, outcomes)
    ensures Enabled(s, Commit(r))
    ensures var t := Apply(s, Commit(r));
            t.rows == Saved(rows, run.due, run.key, outcomes) && r in t.closed && t.closed[r] == Ending(run, outcomes)
  {
    assert run.due[..|run.due|] == run.due;
    SameResult(run, outcomes);
  }

  /** A run nobody overlaps leaves the rows and the result of one call of the service. */
  lemma UndisturbedRun(s: State, r: nat, targets: seq<string>, key: Key, outcomes: map<string, Result<string, string>>)
    requires Inv(s) && s.runs == map[] && Enabled(s, Begin(r, targets, key))
    requires forall f | f in Due(targets, s.rows, key) :: f in outcomes
    ensures var due := Due(targets, s.rows, key);
            Reaches(s, [Begin(r, targets, key)] + (Saves(r, due, outcomes) + [Commit(r)]), r,
                    Saved(s.rows, due, key, outcomes), Closed(targets, ResultOf(targets, due, outcomes)))
  {
    var due, a := Due(targets, s.rows, key), Begin(r, targets, key);
    var run := Run(key, targets, due, 0, map[], map[]);
    ActionKeeps(s, a);
    UniqueSelect(targets, f => !Hit(s.rows, f, key));
    assert Apply(s, a).runs == map[r := run];
    assert s.rows + run.staged == s.rows && due[..0] == [] && due[0..] == due;
    SavesReachEnd(Apply(s, a), s.rows, r, run, 0, outcomes);
    ReachesEarlier(s, a, Saves(r, due, outcomes) + [Commit(r)], r, Saved(s.rows, due, key, outcomes),
                   Closed(targets, ResultOf(targets, due, outcomes)));
  }
}
