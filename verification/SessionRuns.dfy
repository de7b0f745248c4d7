/** Every interleaving of transactions on the refresh tokens of one user. A
    transaction sees the committed rows under its own writes; written rows stay
    locked to its end; the advisory lock serializes those that create. */
module SessionRuns {
  import opened Wrappers
  import opened Sessions

  /** How far `_create_refresh_token` has come in a transaction. */
  datatype Stage = Before | Locked | Counted(full: bool) | Chosen(victim: nat) | Evicted | Created(id: nat, token: Token)

  /** `expiredHit`: the eviction chose a row that had already expired. */
  datatype Tx = Tx(start: int, writes: set<nat>, presented: Option<nat>, stage: Stage, expiredHit: nat)

  /** `winners`: the presented token of every committed rotation. */
  datatype State = State(now: int, tokens: Tokens, txs: map<nat, Tx>, expiredHits: nat, winners: seq<nat>)

  datatype Action =
    | Tick(seconds: nat)
    | Begin(t: nat)
    | Present(t: nat, row: nat)
    | Write(t: nat, row: nat)
    | Lock(t: nat)
    | Count(t: nat)
    | Choose(t: nat, victim: Option<nat>)
    | Evict(t: nat)
    | Create(t: nat, id: nat)
    | Commit(t: nat)
    | Abort(t: nat)

  function View(tokens: Tokens, tx: Tx): Tokens {
    var written := Revoke(tokens, tx.writes);
    if tx.stage.Created? then written[tx.stage.id := tx.stage.token] else written
  }

  ghost predicate Unlocked(s: State, t: nat, row: nat) {
    forall u | u in s.txs && u != t :: row !in s.txs[u].writes
  }

  ghost predicate At(s: State, t: nat, a: Action) {
    t in s.txs &&
    var tx := s.txs[t];
    match a
    // FOR UPDATE SKIP LOCKED: an active row nobody has locked.
    case Present(_, row) => tx.stage == Before && tx.presented == None && row in Active(s.tokens, s.now) && Unlocked(s, t, row)
    // logout and revoke-all
    case Write(_, row) => tx.stage == Before && row in s.tokens && Unlocked(s, t, row)
    case Lock(_) => tx.stage == Before && forall u | u in s.txs :: s.txs[u].stage == Before
    case Count(_) => tx.stage == Locked
    case Choose(_, victim) =>
      && tx.stage == Counted(true)
      && if victim.Some? then Oldest(View(s.tokens, tx), victim.value) else Unrevoked(View(s.tokens, tx)) == {}
    case Evict(_) => tx.stage.Chosen? && Unlocked(s, t, tx.stage.victim)
    case Create(_, id) => (tx.stage == Counted(false) || tx.stage == Evicted) && id !in s.tokens
    case Commit(_) => tx.stage.Created? || (tx.stage == Before && tx.presented == None)
    case Abort(_) => true
    case _ => false
  }

  ghost predicate Enabled(s: State, a: Action) {
    match a
    case Tick(_) => true
    case Begin(t) => t !in s.txs
    case _ => At(s, a.t, a)
  }

  function Update(s: State, t: nat, tx: Tx): State {
    s.(txs := s.txs[t := tx])
  }

  ghost function Apply(s: State, a: Action): State
    requires Enabled(s, a)
  {
    match a
    case Tick(seconds) => s.(now := s.now + seconds)
    case Begin(t) => Update(s, t, Tx(s.now, {}, None, Before, 0))
    case Present(t, row) => Update(s, t, s.txs[t].(writes := s.txs[t].writes + {row}, presented := Some(row)))
    case Write(t, row) => Update(s, t, s.txs[t].(writes := s.txs[t].writes + {row}))
    case Lock(t) => Update(s, t, s.txs[t].(stage := Locked))
    case Count(t) =>
      Update(s, t, s.txs[t].(stage := Counted(|Active(View(s.tokens, s.txs[t]), s.now)| >= MAX_ACTIVE_SESSIONS)))
    case Choose(t, victim) =>
      if victim.None? then Update(s, t, s.txs[t].(stage := Evicted))
      else Update(s, t, s.txs[t].(stage := Chosen(victim.value),
                                  expiredHit := if s.tokens[victim.value].expiresAt <= s.now then 1 else 0))
    case Evict(t) => Update(s, t, s.txs[t].(writes := s.txs[t].writes + {s.txs[t].stage.victim}, stage := Evicted))
    case Create(t, id) => Update(s, t, s.txs[t].(stage := Created(id, NewToken(s.txs[t].start, s.now))))
    case Commit(t) =>
      var tx := s.txs[t];
      State(s.now, View(s.tokens, tx), s.txs - {t}, s.expiredHits + tx.expiredHit,
            s.winners + if tx.presented.Some? then [tx.presented.value] else [])
    case Abort(t) => s.(txs := s.txs - {t})
  }

  // ---- Invariants ----

  function Room(stage: Stage): nat {
    if stage.Created? then MAX_ACTIVE_SESSIONS else MAX_ACTIVE_SESSIONS - 1
  }

  predicate Bounded(stage: Stage) {
    stage == Counted(false) || stage.Chosen? || stage.Evicted? || stage.Created?
  }

  /** The rows that will be active when the transaction has done its eviction. */
  function Load(tokens: Tokens, now: int, tx: Tx): set<nat> {
    Active(View(tokens, tx), now) - (if tx.stage.Chosen? then {tx.stage.victim} else {})
  }

  ghost predicate TxOk(tokens: Tokens, now: int, expiredHits: nat, tx: Tx) {
    && (Bounded(tx.stage) ==> |Load(tokens, now, tx)| <= Room(tx.stage) + expiredHits + tx.expiredHit)
    && (!Bounded(tx.stage) || tx.stage == Counted(false) ==> tx.expiredHit == 0) && tx.expiredHit <= 1
    && (tx.stage.Created? ==> tx.stage.id !in tokens)
    && (tx.presented.Some? ==> tx.presented.value in tx.writes && tx.presented.value in Unrevoked(tokens))
  }

  ghost predicate Exclusive(s: State) {
    && (forall t, u | t in s.txs && u in s.txs && t != u :: s.txs[t].writes !! s.txs[u].writes)
    && (forall t, u | t in s.txs && u in s.txs && t != u :: s.txs[t].stage == Before || s.txs[u].stage == Before)
  }

  ghost predicate WinnersOk(s: State) {
    && (forall i | 0 <= i < |s.winners| :: s.winners[i] in s.tokens && s.tokens[s.winners[i]].revoked)
    && (forall i, j | 0 <= i < j < |s.winners| :: s.winners[i] != s.winners[j])
  }

  ghost predicate Inv(s: State) {
    && |Active(s.tokens, s.now)| <= MAX_ACTIVE_SESSIONS + s.expiredHits
    && Exclusive(s) && WinnersOk(s)
    && forall t | t in s.txs :: TxOk(s.tokens, s.now, s.expiredHits, s.txs[t])
  }

  lemma Subset(a: set<nat>, b: set<nat>)
    requires a <= b
    ensures |a| <= |b|
  {
    assert b == a + (b - a);
  }

  /** Rows only become inactive under a waiting transaction. */
  lemma TxOkAfter(tokens: Tokens, now: int, hits: nat, tokens': Tokens, now': int, hits': nat, tx: Tx)
    requires TxOk(tokens, now, hits, tx) && now <= now' && hits <= hits' && tokens'.Keys == tokens.Keys
    requires forall i | i in tokens' :: tokens'[i] == tokens[i].(revoked := tokens'[i].revoked)
    requires forall i | i in tokens && tokens[i].revoked :: tokens'[i].revoked
    requires tx.presented.Some? ==> tx.presented.value in Unrevoked(tokens')
    ensures TxOk(tokens', now', hits', tx)
  {
    assert Load(tokens', now', tx) <= Load(tokens, now, tx);
    Subset(Load(tokens', now', tx), Load(tokens, now, tx));
  }

  lemma TickKeeps(s: State, seconds: nat)
    requires Inv(s)
    ensures Inv(Apply(s, Tick(seconds)))
  {
    var t := s.(now := s.now + seconds);
    Subset(Active(t.tokens, t.now), Active(s.tokens, s.now));
    forall u | u in s.txs ensures TxOk(t.tokens, t.now, t.expiredHits, t.txs[u]) {
      TxOkAfter(s.tokens, s.now, s.expiredHits, t.tokens, t.now, t.expiredHits, s.txs[u]);
    }
  }

  /** One transaction moved on. */
  lemma UpdateKeeps(s: State, t: nat, tx: Tx)
    requires Inv(s) && TxOk(s.tokens, s.now, s.expiredHits, tx)
    requires forall u | u in s.txs && u != t ::
               tx.writes !! s.txs[u].writes && (tx.stage == Before || s.txs[u].stage == Before)
    ensures Inv(Update(s, t, tx))
  {
  }

  lemma WriteIsSafe(s: State, t: nat, row: nat, next: Tx)
    requires Inv(s) && t in s.txs && Unlocked(s, t, row) && next.writes == s.txs[t].writes + {row}
    requires next.stage == Before || s.txs[t].stage != Before
    requires TxOk(s.tokens, s.now, s.expiredHits, next)
    ensures Inv(Update(s, t, next))
  {
    UpdateKeeps(s, t, next);
  }

  /** A full count means that some row can be chosen, and evicting it makes room
      unless it had expired. */
  lemma ChooseMakesRoom(s: State, t: nat, victim: nat)
    requires Inv(s) && t in s.txs && s.txs[t].stage == Counted(true) && Oldest(View(s.tokens, s.txs[t]), victim)
    ensures Enabled(s, Choose(t, Some(victim))) && Inv(Apply(s, Choose(t, Some(victim))))
  {
    var tx := s.txs[t];
    var next := Apply(s, Choose(t, Some(victim))).txs[t];
    assert View(s.tokens, next) == View(s.tokens, tx);
    var seen := Active(View(s.tokens, tx), s.now);
    Subset(seen, Active(s.tokens, s.now));
    if victim in seen {
      assert |seen - {victim}| == |seen| - 1;
    } else {
      assert seen - {victim} == seen;
    }
    UpdateKeeps(s, t, next);
  }

  lemma LoadAfterEvict(tokens: Tokens, now: int, tx: Tx)
    requires tx.stage.Chosen?
    ensures Load(tokens, now, tx.(writes := tx.writes + {tx.stage.victim}, stage := Evicted)) == Load(tokens, now, tx)
  {
  }

  lemma EvictKeeps(s: State, t: nat)
    requires Inv(s) && Enabled(s, Evict(t))
    ensures Inv(Apply(s, Evict(t)))
  {
    var tx := s.txs[t];
    var next := tx.(writes := tx.writes + {tx.stage.victim}, stage := Evicted);
    LoadAfterEvict(s.tokens, s.now, tx);
    assert TxOk(s.tokens, s.now, s.expiredHits, tx);
    assert TxOk(s.tokens, s.now, s.expiredHits, next);
    WriteIsSafe(s, t, tx.stage.victim, next);
  }

  lemma CreateKeeps(s: State, t: nat, id: nat)
    requires Inv(s) && Enabled(s, Create(t, id))
    ensures Inv(Apply(s, Create(t, id)))
  {
    var tx, next := s.txs[t], Apply(s, Create(t, id)).txs[t];
    assert Load(s.tokens, s.now, next) <= Load(s.tokens, s.now, tx) + {id};
    Subset(Load(s.tokens, s.now, next), Load(s.tokens, s.now, tx) + {id});
    UpdateKeeps(s, t, next);
  }

  lemma WinnersGrow(s: State, after: State, presented: Option<nat>)
    requires WinnersOk(s)
    requires forall i | i in s.tokens && s.tokens[i].revoked :: i in after.tokens && after.tokens[i].revoked
    requires presented.Some? ==>
               && presented.value in Unrevoked(s.tokens)
               && presented.value in after.tokens && after.tokens[presented.value].revoked
    requires after.winners == s.winners + if presented.Some? then [presented.value] else []
    ensures WinnersOk(after)
  {
    assert presented.Some? ==> forall i | 0 <= i < |s.winners| :: s.winners[i] != presented.value;
  }

  lemma CommitKeepsWinners(s: State, t: nat)
    requires WinnersOk(s) && Enabled(s, Commit(t)) && TxOk(s.tokens, s.now, s.expiredHits, s.txs[t])
    ensures WinnersOk(Apply(s, Commit(t)))
  {
    var tx := s.txs[t];
    forall i | i in s.tokens && (s.tokens[i].revoked || i in tx.writes)
      ensures i in View(s.tokens, tx) && View(s.tokens, tx)[i].revoked
    {
    }
    WinnersGrow(s, Apply(s, Commit(t)), tx.presented);
  }

  lemma CommitKeepsCap(s: State, t: nat)
    requires Inv(s) && Enabled(s, Commit(t))
    ensures |Active(View(s.tokens, s.txs[t]), s.now)| <= MAX_ACTIVE_SESSIONS + s.expiredHits + s.txs[t].expiredHit
  {
    var tx := s.txs[t];
    assert TxOk(s.tokens, s.now, s.expiredHits, tx);
    if tx.stage.Created? {
      assert Load(s.tokens, s.now, tx) == Active(View(s.tokens, tx), s.now);
    } else {
      Subset(Active(View(s.tokens, tx), s.now), Active(s.tokens, s.now));
    }
  }

  lemma CommitKeeps(s: State, t: nat)
    requires Inv(s) && Enabled(s, Commit(t))
    ensures Inv(Apply(s, Commit(t)))
  {
    var after := Apply(s, Commit(t));
    CommitKeepsCap(s, t);
    CommitKeepsWinners(s, t);
    assert Exclusive(after);
    forall u | u in after.txs ensures TxOk(after.tokens, after.now, after.expiredHits, after.txs[u]) {
      OtherAfterCommit(s, t, u);
    }
  }

  lemma OtherAfterCommit(s: State, t: nat, u: nat)
    requires Inv(s) && t in s.txs && u in s.txs && t != u && (s.txs[t].stage.Created? || s.txs[t].stage == Before)
    ensures TxOk(View(s.tokens, s.txs[t]), s.now, s.expiredHits + s.txs[t].expiredHit, s.txs[u])
  {
    var tx, other := s.txs[t], s.txs[u];
    assert tx.writes !! other.writes;
    if tx.stage == Before {
      TxOkAfter(s.tokens, s.now, s.expiredHits, View(s.tokens, tx), s.now, s.expiredHits + tx.expiredHit, other);
    }
  }

  lemma PresentKeeps(s: State, t: nat, row: nat)
    requires Inv(s) && Enabled(s, Present(t, row))
    ensures Inv(Apply(s, Present(t, row)))
  {
    assert TxOk(s.tokens, s.now, s.expiredHits, s.txs[t]);
    WriteIsSafe(s, t, row, s.txs[t].(writes := s.txs[t].writes + {row}, presented := Some(row)));
  }

  lemma WriteKeeps(s: State, t: nat, row: nat)
    requires Inv(s) && Enabled(s, Write(t, row))
    ensures Inv(Apply(s, Write(t, row)))
  {
    assert TxOk(s.tokens, s.now, s.expiredHits, s.txs[t]);
    WriteIsSafe(s, t, row, s.txs[t].(writes := s.txs[t].writes + {row}));
  }

  lemma LockKeeps(s: State, t: nat)
    requires Inv(s) && Enabled(s, Lock(t))
    ensures Inv(Apply(s, Lock(t)))
  {
    assert TxOk(s.tokens, s.now, s.expiredHits, s.txs[t]);
    UpdateKeeps(s, t, s.txs[t].(stage := Locked));
  }

  lemma CountKeeps(s: State, t: nat)
    requires Inv(s) && Enabled(s, Count(t))
    ensures Inv(Apply(s, Count(t)))
  {
    var next := Apply(s, Count(t)).txs[t];
    assert Load(s.tokens, s.now, next) == Active(View(s.tokens, s.txs[t]), s.now);
    UpdateKeeps(s, t, next);
  }

  lemma AbortKeeps(s: State, t: nat)
    requires Inv(s) && t in s.txs
    ensures Inv(s.(txs := s.txs - {t}))
  {
  }

  lemma BeginKeeps(s: State, t: nat)
    requires Inv(s) && t !in s.txs
    ensures Inv(Apply(s, Begin(t)))
  {
    UpdateKeeps(s, t, Tx(s.now, {}, None, Before, 0));
  }

  lemma ChooseKeeps(s: State, t: nat, victim: Option<nat>)
    requires Inv(s) && Enabled(s, Choose(t, victim))
    ensures Inv(Apply(s, Choose(t, victim)))
  {
    if victim.Some? {
      ChooseMakesRoom(s, t, victim.value);
    } else {
      NothingToEvict(s, t);
    }
  }

  lemma CreationKeeps(s: State, a: Action)
    requires Inv(s) && Enabled(s, a) && (a.Lock? || a.Count? || a.Choose? || a.Evict? || a.Create?)
    ensures Inv(Apply(s, a))
  {
    match a
    case Lock(t) => LockKeeps(s, t);
    case Count(t) => CountKeeps(s, t);
    case Choose(t, victim) => ChooseKeeps(s, t, victim);
    case Evict(t) => EvictKeeps(s, t);
    case Create(t, id) => CreateKeeps(s, t, id);
  }

  lemma WritingKeeps(s: State, a: Action)
    requires Inv(s) && Enabled(s, a) && (a.Present? || a.Write? || a.Commit? || a.Abort?)
    ensures Inv(Apply(s, a))
  {
    match a
    case Present(t, row) => PresentKeeps(s, t, row);
    case Write(t, row) => WriteKeeps(s, t, row);
    case Commit(t) => CommitKeeps(s, t);
    case Abort(t) => AbortKeeps(s, t);
  }

  lemma ActionKeeps(s: State, a: Action)
    requires Inv(s) && Enabled(s, a)
    ensures Inv(Apply(s, a))
  {
    if a.Tick? || a.Begin? {
      StartKeeps(s, a);
    } else if a.Present? || a.Write? || a.Commit? || a.Abort? {
      WritingKeeps(s, a);
    } else {
      CreationKeeps(s, a);
    }
  }

  lemma StartKeeps(s: State, a: Action)
    requires Inv(s) && Enabled(s, a) && (a.Tick? || a.Begin?)
    ensures Inv(Apply(s, a))
  {
    if a.Tick? {
      TickKeeps(s, a.seconds);
    } else {
      BeginKeeps(s, a.t);
    }
  }

  lemma NothingToEvict(s: State, t: nat)
    requires Inv(s) && Enabled(s, Choose(t, None))
    ensures Inv(Apply(s, Choose(t, None)))
  {
    var next := Apply(s, Choose(t, None)).txs[t];
    assert Load(s.tokens, s.now, next) <= Unrevoked(View(s.tokens, s.txs[t]));
    UpdateKeeps(s, t, next);
  }

  // ---- Runs ----

  ghost predicate Legal(s: State, actions: seq<Action>)
    decreases |actions|
  {
    actions == [] || (Enabled(s, actions[0]) && Legal(Apply(s, actions[0]), actions[1..]))
  }

  ghost function RunAll(s: State, actions: seq<Action>): State
    requires Legal(s, actions)
    decreases |actions|
  {
    if actions == [] then s else RunAll(Apply(s, actions[0]), actions[1..])
  }

  predicate Initial(s: State) {
    s.tokens == map[] && s.txs == map[] && s.expiredHits == 0 && s.winners == []
  }

  lemma {:induction false} RunKeeps(s: State, actions: seq<Action>)
    requires Inv(s) && Legal(s, actions)
    ensures Inv(RunAll(s, actions))
    decreases |actions|
  {
    if actions != [] {
      ActionKeeps(s, actions[0]);
      RunKeeps(Apply(s, actions[0]), actions[1..]);
    }
  }

  /** The step chooses a row to evict that has already expired. */
  ghost predicate ChoosesExpired(s: State, a: Action) {
    a.Choose? && a.victim.Some? && a.victim.value in s.tokens && s.tokens[a.victim.value].expiresAt <= s.now
  }

  ghost function ExpiredChoices(s: State, actions: seq<Action>): nat
    requires Legal(s, actions)
    decreases |actions|
  {
    if actions == [] then 0
    else (if ChoosesExpired(s, actions[0]) then 1 else 0) + ExpiredChoices(Apply(s, actions[0]), actions[1..])
  }

  /** An eviction of an expired row is under way. */
  ghost predicate Hitting(s: State) {
    exists t | t in s.txs :: s.txs[t].expiredHit > 0
  }

  ghost function Hits(s: State): nat {
    s.expiredHits + if Hitting(s) then 1 else 0
  }

  lemma HitStep(s: State, a: Action)
    requires Inv(s) && Enabled(s, a)
    ensures Hits(Apply(s, a)) <= Hits(s) + if ChoosesExpired(s, a) then 1 else 0
  {
    var t := Apply(s, a);
    if a.Commit? {
      CommitHits(s, a.t);
    } else if Hitting(t) && !ChoosesExpired(s, a) {
      var u :| u in t.txs && t.txs[u].expiredHit > 0;
      assert u in s.txs && s.txs[u].expiredHit > 0;
    }
  }

  /** A hit is counted when its transaction commits, and no other one is under way then. */
  lemma CommitHits(s: State, t: nat)
    requires Inv(s) && Enabled(s, Commit(t))
    ensures Hits(Apply(s, Commit(t))) <= Hits(s)
  {
    CommitShape(s, t);
    var after := Apply(s, Commit(t));
    HitIsOne(s, t);
    if s.txs[t].expiredHit > 0 {
      forall u | u in after.txs ensures after.txs[u].expiredHit == 0 {
        OthersHitNothing(s, t, u);
      }
      assert Hitting(s) && !Hitting(after);
    } else if Hitting(after) {
      var u :| u in after.txs && after.txs[u].expiredHit > 0;
      assert s.txs[u].expiredHit > 0;
    }
  }

  lemma CommitShape(s: State, t: nat)
    requires Enabled(s, Commit(t))
    ensures Apply(s, Commit(t)).txs == s.txs - {t}
    ensures Apply(s, Commit(t)).expiredHits == s.expiredHits + s.txs[t].expiredHit
  {
  }

  lemma HitIsOne(s: State, t: nat)
    requires Inv(s) && t in s.txs
    ensures s.txs[t].expiredHit <= 1
  {
    assert TxOk(s.tokens, s.now, s.expiredHits, s.txs[t]);
  }

  lemma OthersHitNothing(s: State, t: nat, u: nat)
    requires Inv(s) && t in s.txs && u in s.txs && t != u && s.txs[t].expiredHit > 0
    ensures s.txs[u].expiredHit == 0
  {
    assert TxOk(s.tokens, s.now, s.expiredHits, s.txs[t]);
    assert TxOk(s.tokens, s.now, s.expiredHits, s.txs[u]);
  }

  lemma {:induction false} HitsAreChoices(s: State, actions: seq<Action>)
    requires Inv(s) && Legal(s, actions)
    ensures Hits(RunAll(s, actions)) <= Hits(s) + ExpiredChoices(s, actions)
    decreases |actions|
  {
    if actions != [] {
      ActionKeeps(s, actions[0]);
      HitStep(s, actions[0]);
      HitsAreChoices(Apply(s, actions[0]), actions[1..]);
    }
  }

  /** In every run the rows that are neither revoked nor expired are at most five plus
      one for each time the eviction chose a row that had already expired. */
  lemma SessionCap(s: State, actions: seq<Action>)
    requires Initial(s) && Legal(s, actions)
    ensures var t := RunAll(s, actions);
            |set i | i in t.tokens && !t.tokens[i].revoked && t.tokens[i].expiresAt > t.now|
            <= 5 + ExpiredChoices(s, actions)
  {
    RunKeeps(s, actions);
    HitsAreChoices(s, actions);
    var t := RunAll(s, actions);
    assert Active(t.tokens, t.now) == set i | i in t.tokens && !t.tokens[i].revoked && t.tokens[i].expiresAt > t.now;
  }

  /** No row has expired without having been revoked. */
  ghost predicate NoneExpired(s: State) {
    Unrevoked(s.tokens) == Active(s.tokens, s.now)
  }

  ghost predicate NoneExpires(s: State, actions: seq<Action>)
    requires Legal(s, actions)
    decreases |actions|
  {
    NoneExpired(s) && (actions != [] ==> NoneExpires(Apply(s, actions[0]), actions[1..]))
  }

  lemma {:induction false} NoExpiredChoices(s: State, actions: seq<Action>)
    requires Legal(s, actions) && NoneExpires(s, actions)
    ensures ExpiredChoices(s, actions) == 0
    decreases |actions|
  {
    if actions != [] {
      assert forall i | i in s.tokens && s.tokens[i].expiresAt <= s.now :: i !in Active(s.tokens, s.now);
      assert !ChoosesExpired(s, actions[0]);
      NoExpiredChoices(Apply(s, actions[0]), actions[1..]);
    }
  }

  /** So the cap holds in every run in which no row expires unrevoked. */
  lemma CapWithoutExpiry(s: State, actions: seq<Action>)
    requires Initial(s) && Legal(s, actions) && NoneExpires(s, actions)
    ensures var t := RunAll(s, actions);
            |set i | i in t.tokens && !t.tokens[i].revoked && t.tokens[i].expiresAt > t.now| <= 5
  {
    SessionCap(s, actions);
    NoExpiredChoices(s, actions);
  }

  /** No refresh token is ever rotated twice. */
  lemma OneWinnerPerToken(s: State, actions: seq<Action>, i: nat, j: nat)
    requires Initial(s) && Legal(s, actions) && i < j < |RunAll(s, actions).winners|
    ensures RunAll(s, actions).winners[i] != RunAll(s, actions).winners[j]
  {
    RunKeeps(s, actions);
  }

  ghost predicate Presented(s: State, t: nat, row: nat) {
    t in s.txs && row in s.txs[t].writes && s.txs[t].presented == Some(row)
  }

  lemma PresentedStays(s: State, t: nat, row: nat, a: Action)
    requires Enabled(s, a) && Presented(s, t, row) && a != Commit(t) && a != Abort(t)
    ensures Presented(Apply(s, a), t, row) && !(a.Present? && a.row == row)
  {
  }

  lemma {:induction false} LockedWhilePresented(s: State, t: nat, row: nat, actions: seq<Action>)
    requires Legal(s, actions) && Presented(s, t, row) && Commit(t) !in actions && Abort(t) !in actions
    ensures Presented(RunAll(s, actions), t, row) && forall a | a in actions :: !(a.Present? && a.row == row)
    decreases |actions|
  {
    if actions != [] {
      assert actions[0] in actions;
      PresentedStays(s, t, row, actions[0]);
      LockedWhilePresented(Apply(s, actions[0]), t, row, actions[1..]);
      assert actions == [actions[0]] + actions[1..];
    }
  }

  lemma RevokedStays(s: State, row: nat, a: Action)
    requires Inv(s) && Enabled(s, a) && row in s.tokens && s.tokens[row].revoked
    ensures row in Apply(s, a).tokens && Apply(s, a).tokens[row].revoked && !(a.Present? && a.row == row)
  {
    if a.Commit? {
      assert TxOk(s.tokens, s.now, s.expiredHits, s.txs[a.t]);
    }
  }

  lemma {:induction false} RevokedIsNeverPresented(s: State, row: nat, actions: seq<Action>)
    requires Inv(s) && Legal(s, actions) && row in s.tokens && s.tokens[row].revoked
    ensures forall a | a in actions :: !(a.Present? && a.row == row)
    decreases |actions|
  {
    if actions != [] {
      RevokedStays(s, row, actions[0]);
      ActionKeeps(s, actions[0]);
      RevokedIsNeverPresented(Apply(s, actions[0]), row, actions[1..]);
      assert actions == [actions[0]] + actions[1..];
    }
  }

  /** Once a rotation has accepted a token, nobody presents it with success again, neither
      before the rotation ends nor, if it commits, ever after. */
  lemma AcceptedTokenIsSpent(s: State, t: nat, row: nat, middle: seq<Action>, rest: seq<Action>)
    requires Inv(s) && Enabled(s, Present(t, row)) && Legal(Apply(s, Present(t, row)), middle)
    requires Commit(t) !in middle && Abort(t) !in middle
    requires var u := RunAll(Apply(s, Present(t, row)), middle); Enabled(u, Commit(t)) && Legal(Apply(u, Commit(t)), rest)
    ensures forall a | a in middle + rest :: !(a.Present? && a.row == row)
  {
    var first := Apply(s, Present(t, row));
    var u := RunAll(first, middle);
    ActionKeeps(s, Present(t, row));
    LockedWhilePresented(first, t, row, middle);
    RunKeeps(first, middle);
    SpentAfterCommit(u, t, row, rest);
  }

  lemma SpentAfterCommit(s: State, t: nat, row: nat, rest: seq<Action>)
    requires Inv(s) && Presented(s, t, row) && Enabled(s, Commit(t)) && Legal(Apply(s, Commit(t)), rest)
    ensures forall a | a in rest :: !(a.Present? && a.row == row)
  {
    ActionKeeps(s, Commit(t));
    CommitRevokes(s, t, row);
    RevokedIsNeverPresented(Apply(s, Commit(t)), row, rest);
  }

  lemma CommitRevokes(s: State, t: nat, row: nat)
    requires Inv(s) && Enabled(s, Commit(t)) && Presented(s, t, row)
    ensures row in Apply(s, Commit(t)).tokens && Apply(s, Commit(t)).tokens[row].revoked
  {
    assert TxOk(s.tokens, s.now, s.expiredHits, s.txs[t]);
  }

  // ---- A call without interference ----

  /** Alone from its lock to its commit, a transaction does what one call of the
      method does on the table it sees. */
  lemma UndisturbedCreation(s: State, t: nat, id: nat, victim: Option<nat>)
    requires Enabled(s, Lock(t)) && id !in s.tokens
    requires victim.Some? <==> |Active(View(s.tokens, s.txs[t]), s.now)| >= MAX_ACTIVE_SESSIONS
    requires victim.Some? ==>
               && Oldest(View(s.tokens, s.txs[t]), victim.value) && Unlocked(s, t, victim.value)
    ensures var actions := [Lock(t), Count(t)] + (if victim.Some? then [Choose(t, victim), Evict(t)] else [])
                           + [Create(t, id), Commit(t)];
            && Legal(s, actions)
            && Creates(View(s.tokens, s.txs[t]), RunAll(s, actions).tokens, id, s.txs[t].start, s.now, victim)
  {
    var s1 := Apply(s, Lock(t));
    assert View(s.tokens, s1.txs[t]) == View(s.tokens, s.txs[t]);
    var s2 := Apply(s1, Count(t));
    assert View(s.tokens, s2.txs[t]) == View(s.tokens, s.txs[t]);
    var rest := if victim.Some? then [Choose(t, victim), Evict(t)] else [];
    if victim.Some? {
      EvictAndCreate(s2, t, id, victim.value);
    } else {
      LastTwo(s2, t, id);
      assert Revoke(View(s.tokens, s.txs[t]), {}) == View(s.tokens, s.txs[t]);
      assert rest + [Create(t, id), Commit(t)] == [Create(t, id), Commit(t)];
    }
    OneStep(s1, Count(t), rest + [Create(t, id), Commit(t)]);
    OneStep(s, Lock(t), [Count(t)] + (rest + [Create(t, id), Commit(t)]));
    assert [Lock(t)] + ([Count(t)] + (rest + [Create(t, id), Commit(t)]))
        == [Lock(t), Count(t)] + rest + [Create(t, id), Commit(t)];
  }

  lemma EvictAndCreate(s: State, t: nat, id: nat, victim: nat)
    requires Enabled(s, Choose(t, Some(victim))) && Unlocked(s, t, victim) && id !in s.tokens
    ensures var actions := [Choose(t, Some(victim)), Evict(t)] + [Create(t, id), Commit(t)];
            && Legal(s, actions)
            && RunAll(s, actions).tokens
               == Revoke(View(s.tokens, s.txs[t]), {victim})[id := NewToken(s.txs[t].start, s.now)]
  {
    var s1 := Apply(s, Choose(t, Some(victim)));
    assert Unlocked(s1, t, victim);
    var s2 := Apply(s1, Evict(t));
    LastTwo(s2, t, id);
    OneStep(s1, Evict(t), [Create(t, id), Commit(t)]);
    OneStep(s, Choose(t, Some(victim)), [Evict(t)] + [Create(t, id), Commit(t)]);
    assert [Choose(t, Some(victim))] + ([Evict(t)] + [Create(t, id), Commit(t)])
        == [Choose(t, Some(victim)), Evict(t)] + [Create(t, id), Commit(t)];
    assert Revoke(s.tokens, s2.txs[t].writes) == Revoke(View(s.tokens, s.txs[t]), {victim});
  }

  lemma OneStep(s: State, a: Action, rest: seq<Action>)
    requires Enabled(s, a) && Legal(Apply(s, a), rest)
    ensures Legal(s, [a] + rest) && RunAll(s, [a] + rest) == RunAll(Apply(s, a), rest)
  {
    assert ([a] + rest)[1..] == rest;
  }

  lemma LastTwo(s: State, t: nat, id: nat)
    requires Enabled(s, Create(t, id))
    ensures Legal(s, [Create(t, id), Commit(t)])
    ensures RunAll(s, [Create(t, id), Commit(t)]).tokens
            == Revoke(s.tokens, s.txs[t].writes)[id := NewToken(s.txs[t].start, s.now)]
  {
    var s1 := Apply(s, Create(t, id));
    OneStep(s1, Commit(t), []);
    assert [Commit(t)] + [] == [Commit(t)];
    OneStep(s, Create(t, id), [Commit(t)]);
    assert [Create(t, id)] + [Commit(t)] == [Create(t, id), Commit(t)];
  }
}
