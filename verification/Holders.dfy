/**
 When processing is exclusive, exactly. Nothing fences a claim, so a worker can be robbed of its event by a sweep.
 With no assumption on ids, heartbeats or the number of sweeps, that is the only thing that can go wrong, and it
 always does go wrong.
 */
module Holders {
  import opened Events
  import opened Trails
  import opened EventStore
  import opened Streams
  import opened Backoff
  import opened Protocol
  import opened ProtocolInvariant
  import opened ProtocolSteps
  import opened Exclusive
  import opened Stranded

  /** Every held row is PROCESSING, and no event is held twice. */
  ghost predicate ExclusiveNow(s: State) {
    && (forall p, e | p in s.procs && Holds(s.procs[p], e) :: e in s.db.rows && s.db.rows[e].status.Processing?)
    && (forall p, q, e | p in s.procs && q in s.procs && Holds(s.procs[p], e) && Holds(s.procs[q], e) :: p == q)
  }

  /** A sweep puts back a PROCESSING row that some process holds. */
  ghost predicate TakesFromHolder(cfg: Config, s: State, m: Move)
    requires Enabled(s, m)
  {
    && m.Act? && s.procs[m.actor].Resetting? && s.procs[m.actor].status.Processing? && s.procs[m.actor].todo != []
    && var e := s.procs[m.actor].todo[0].id;
       && e in s.db.rows && e in Next(cfg, s, m).db.rows && Next(cfg, s, m).db.rows[e] != s.db.rows[e]
       && exists q :: q in s.procs && Holds(s.procs[q], e)
  }

  ghost predicate AlwaysExclusive(cfg: Config, moves: seq<Move>)
    requires Legal(cfg, moves)
    decreases |moves|
  {
    ExclusiveNow(After(cfg, moves)) && (moves != [] ==> AlwaysExclusive(cfg, moves[..|moves| - 1]))
  }

  ghost predicate NeverTaken(cfg: Config, moves: seq<Move>)
    requires Legal(cfg, moves)
    decreases |moves|
  {
    moves != [] ==>
      && NeverTaken(cfg, moves[..|moves| - 1])
      && !TakesFromHolder(cfg, After(cfg, moves[..|moves| - 1]), moves[|moves| - 1])
  }

  lemma TakingEndsExclusion(cfg: Config, s: State, m: Move)
    requires Inv(cfg, s) && Enabled(s, m) && TakesFromHolder(cfg, s, m)
    ensures !ExclusiveNow(Next(cfg, s, m))
  {
    hide Resume, Inv;
    var p, pc, s' := m.actor, s.procs[m.actor], Next(cfg, s, m);
    var parked, e := Set(s, p, Gone), pc.todo[0].id;
    var q :| q in s.procs && Holds(s.procs[q], e);
    FactsOf(cfg, s);
    HoldersAreWorkers(s, q, e);
    OnlyTheActorMoves(cfg, parked, p, pc, m.choice);
    ResetQueues(cfg, parked, p, pc, m.choice, e);
    assert q in parked.procs && Holds(s'.procs[q], e);
  }

  /** Somebody else's held row is changed only by taking it. */
  lemma HeldRowStays(cfg: Config, s: State, m: Move, q: ProcId, e: EventId)
    requires Enabled(s, m) && m.Act? && ExclusiveNow(s) && !TakesFromHolder(cfg, s, m)
    requires q in s.procs && q != m.actor && Holds(s.procs[q], e)
    ensures e in Next(cfg, s, m).db.rows && Next(cfg, s, m).db.rows[e] == s.db.rows[e]
  {
    hide Resume;
    WhoChangesARow(cfg, Set(s, m.actor, Gone), m.actor, s.procs[m.actor], m.choice);
  }

  /** Where a holder after a move comes from. */
  lemma HolderBefore(cfg: Config, s: State, m: Move, q: ProcId, e: EventId)
    requires Inv(cfg, s) && Enabled(s, m) && m.Act? && ExclusiveNow(s) && !TakesFromHolder(cfg, s, m)
    requires Inv(cfg, Next(cfg, s, m)) && q in Next(cfg, s, m).procs && Holds(Next(cfg, s, m).procs[q], e)
    ensures e in Next(cfg, s, m).db.rows && Next(cfg, s, m).db.rows[e].status.Processing?
    ensures q in s.procs && (Holds(s.procs[q], e) || (q == m.actor && e in s.db.rows && s.db.rows[e].status.Queued?))
  {
    hide Resume, Inv, TakesFromHolder;
    FactsOf(cfg, s);
    FactsOf(cfg, Next(cfg, s, m));
    HoldersAreWorkers(Next(cfg, s, m), q, e);
    if q == m.actor {
      ActorHolds(cfg, s, m, e);
    } else {
      var parked := Set(s, m.actor, Gone);
      OnlyTheActorMoves(cfg, parked, m.actor, s.procs[m.actor], m.choice);
      assert q in parked.procs;
      HeldRowStays(cfg, s, m, q, e);
    }
  }

  lemma ActKeepsExclusion(cfg: Config, s: State, m: Move)
    requires Inv(cfg, s) && Enabled(s, m) && m.Act? && ExclusiveNow(s) && !TakesFromHolder(cfg, s, m)
    requires Inv(cfg, Next(cfg, s, m))
    ensures ExclusiveNow(Next(cfg, s, m))
  {
    hide Next, Enabled, Inv, TakesFromHolder, Holds;
    var s' := Next(cfg, s, m);
    forall q, e | q in s'.procs && Holds(s'.procs[q], e)
      ensures e in s'.db.rows && s'.db.rows[e].status.Processing?
      ensures q in s.procs && (Holds(s.procs[q], e) || (q == m.actor && e in s.db.rows && s.db.rows[e].status.Queued?))
    {
      HolderBefore(cfg, s, m, q, e);
    }
    forall p, q, e | p in s'.procs && q in s'.procs && Holds(s'.procs[p], e) && Holds(s'.procs[q], e) ensures p == q {
      HolderBefore(cfg, s, m, p, e);
      HolderBefore(cfg, s, m, q, e);
    }
  }

  lemma ActorHolds(cfg: Config, s: State, m: Move, e: EventId)
    requires ProcInv(ViewOf(s), s.procs) && s.hist.commits.Keys == s.db.rows.Keys
    requires Enabled(s, m) && m.Act? && ExclusiveNow(s) && m.actor.Worker?
    requires m.actor in Next(cfg, s, m).procs && Holds(Next(cfg, s, m).procs[m.actor], e)
    ensures var s' := Next(cfg, s, m); e in s'.db.rows && s'.db.rows[e].status.Processing?
    ensures Holds(s.procs[m.actor], e) || (e in s.db.rows && s.db.rows[e].status.Queued?)
  {
    hide Resume;
    assert ProcOk(ViewOf(s), m.actor, s.procs[m.actor]);
    WorkerCounters(ViewOf(s), m.actor, s.procs[m.actor]);
    HowToHold(cfg, Set(s, m.actor, Gone), m.actor, s.procs[m.actor], m.choice, e);
  }

  lemma MoveKeepsExclusionIff(cfg: Config, s: State, m: Move)
    requires Enabled(s, m) && Inv(cfg, s) && Inv(cfg, Next(cfg, s, m)) && ExclusiveNow(s)
    ensures ExclusiveNow(Next(cfg, s, m)) <==> !TakesFromHolder(cfg, s, m)
  {
    hide Next, Resume, Inv, ExclusiveNow, TakesFromHolder;
    if !m.Act? {
      OtherMovesKeepExclusion(cfg, s, m);
    } else {
      if TakesFromHolder(cfg, s, m) {
        TakingEndsExclusion(cfg, s, m);
      } else {
        ActKeepsExclusion(cfg, s, m);
      }
    }
  }

  lemma OtherMovesKeepExclusion(cfg: Config, s: State, m: Move)
    requires Enabled(s, m) && !m.Act? && ExclusiveNow(s)
    ensures ExclusiveNow(Next(cfg, s, m)) && !TakesFromHolder(cfg, s, m)
  {
    hide Next, Holds;
    var s' := Next(cfg, s, m);
    forall p, e | p in s'.procs && Holds(s'.procs[p], e) ensures e in s'.db.rows && s'.db.rows[e].status.Processing? {
      HeldBefore(cfg, s, m, p, e);
    }
    forall p, q, e | p in s'.procs && q in s'.procs && Holds(s'.procs[p], e) && Holds(s'.procs[q], e) ensures p == q {
      HeldBefore(cfg, s, m, p, e);
      HeldBefore(cfg, s, m, q, e);
    }
  }

  /** Only steps make holders. */
  lemma HeldBefore(cfg: Config, s: State, m: Move, p: ProcId, e: EventId)
    requires Enabled(s, m) && !m.Act? && ExclusiveNow(s)
    requires p in Next(cfg, s, m).procs && Holds(Next(cfg, s, m).procs[p], e)
    ensures p in s.procs && Holds(s.procs[p], e)
    ensures e in s.db.rows && e in Next(cfg, s, m).db.rows && Next(cfg, s, m).db.rows[e] == s.db.rows[e]
  {
    hide IsSnapshot;
    match m
    case Submit(_, _, _, _) =>
    case Boot(_) =>
    case Snapshot(_, _, _, _) =>
    case Halt(_) =>
  }

  /**
   In every run: each held row is PROCESSING and each event has at most one holder at every moment, if and only if
   no sweep ever resets a PROCESSING row that some process holds.
   */
  lemma {:induction false} ExclusiveExactlyWhenNeverTaken(cfg: Config, moves: seq<Move>)
    requires Legal(cfg, moves)
    ensures AlwaysExclusive(cfg, moves) <==> NeverTaken(cfg, moves)
  {
    hide Next, Enabled, Inv, ExclusiveNow, TakesFromHolder;
    if moves == [] {
      NobodyHolds();
    } else {
      var before, m := moves[..|moves| - 1], moves[|moves| - 1];
      ExclusiveExactlyWhenNeverTaken(cfg, before);
      RunsKeepInv(cfg, before);
      RunsKeepInv(cfg, moves);
      if AlwaysExclusive(cfg, before) {
        MoveKeepsExclusionIff(cfg, After(cfg, before), m);
      }
    }
  }

  lemma NobodyHolds()
    ensures ExclusiveNow(START)
  {
  }

  // ---- Deployments in which nothing is ever taken ----

  lemma FencedMoveTakesNothing(cfg: Config, s: State, m: Move)
    requires Inv(cfg, s) && Enabled(s, m) && FencedInv(cfg, s)
    ensures !TakesFromHolder(cfg, s, m)
  {
    hide Resume, Inv, FencedInv, Changes;
    if TakesFromHolder(cfg, s, m) {
      var p, e := m.actor, s.procs[m.actor].todo[0].id;
      var q :| q in s.procs && Holds(s.procs[q], e);
      FactsOf(cfg, s);
      HeldRowsStay(cfg, s, p, q, e);
      WhoChangesARow(cfg, Set(s, p, Gone), p, s.procs[p], m.choice);
      assert false;
    }
  }

  /** The event's row is owned by the parsed id of the process. */
  predicate OwnsRow(cfg: Config, rows: Rows, p: ProcId, e: EventId) {
    p.Worker? && OwnerOf(cfg, p.name).Some? && e in rows && rows[e].worker == OwnerOf(cfg, p.name)
  }

  ghost predicate HoldersOwn(cfg: Config, s: State) {
    forall p, e | p in s.procs && Holds(s.procs[p], e) :: OwnsRow(cfg, s.db.rows, p, e)
  }

  lemma FencedHoldersOwn(cfg: Config, s: State)
    requires Inv(cfg, s) && FencedInv(cfg, s)
    ensures HoldersOwn(cfg, s)
  {
    hide Inv, SweepsOk, Holds;
    FactsOf(cfg, s);
    forall p, e | p in s.procs && Holds(s.procs[p], e) ensures OwnsRow(cfg, s.db.rows, p, e) {
      HoldersAreWorkers(s, p, e);
      assert HolderOk(cfg, s.db.rows, p, s.procs[p]);
    }
  }

  /**
   UUID ids used once, one sweep at a time, and absent owners that are really finished: nothing is taken, and a held
   row names its holder.
   */
  lemma {:induction false} FencedRunsAreExclusive(cfg: Config, moves: seq<Move>)
    requires Legal(cfg, moves) && FencedRun(cfg, moves)
    ensures NeverTaken(cfg, moves) && AlwaysExclusive(cfg, moves)
    ensures HoldersOwn(cfg, After(cfg, moves))
  {
    hide Next, Enabled, Inv, TakesFromHolder, Fenced, AlwaysExclusive, FencedInv, HoldersOwn;
    ExclusiveExactlyWhenNeverTaken(cfg, moves);
    RunsKeepInv(cfg, moves);
    FencedRunsKeepInv(cfg, moves);
    FencedHoldersOwn(cfg, After(cfg, moves));
    if moves != [] {
      var before := moves[..|moves| - 1];
      FencedRunsAreExclusive(cfg, before);
      RunsKeepInv(cfg, before);
      FencedRunsKeepInv(cfg, before);
      FencedMoveTakesNothing(cfg, After(cfg, before), moves[|moves| - 1]);
    }
  }

  lemma PowerlessMoveTakesNothing(cfg: Config, s: State, m: Move)
    requires Enabled(s, m) && Powerless(cfg, s)
    ensures !TakesFromHolder(cfg, s, m)
  {
    hide Next;
  }

  /** The ids the pool gives its workers do not parse: with them, too, nothing is taken, however many sweeps run. */
  lemma {:induction false} ShippedPoolIsExclusive(cfg: Config, moves: seq<Move>)
    requires Legal(cfg, moves) && NamelessRun(cfg, moves)
    ensures NeverTaken(cfg, moves) && AlwaysExclusive(cfg, moves)
  {
    hide Next, Enabled, TakesFromHolder, Powerless, AlwaysExclusive;
    ExclusiveExactlyWhenNeverTaken(cfg, moves);
    if moves != [] {
      var before := moves[..|moves| - 1];
      ShippedPoolIsExclusive(cfg, before);
      NamelessRunsPowerless(cfg, before);
      PowerlessMoveTakesNothing(cfg, After(cfg, before), moves[|moves| - 1]);
    }
  }
}
