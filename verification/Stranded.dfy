/**
 Events no sweep recovers. A worker whose id does not parse as a UUID, as the pool's own "worker-1", "worker-2", ...
 do not, stores no owner with its claims, and sweeps skip rows without an owner. So an event claimed only by such
 workers is never put back from PROCESSING, and once its holder is gone it stays there.
 */
module Stranded {
  import opened Events
  import opened Trails
  import opened EventStore
  import opened Streams
  import opened Backoff
  import opened Protocol
  import opened ProtocolInvariant
  import opened ProtocolSteps
  import opened ProtocolTheorems
  import opened Exclusive
  import opened Stopped

  /** No worker of the run has an id that parses as a UUID. */
  predicate NamelessRun(cfg: Config, moves: seq<Move>) {
    forall i | 0 <= i < |moves| && moves[i].Boot? :: OwnerOf(cfg, moves[i].name).None?
  }

  predicate Unowned(rows: Rows) {
    forall e | e in rows :: rows[e].worker.None?
  }

  predicate SweepPowerless(pc: Proc) {
    match pc
    case Sweeping(status, todo, _, _) => status.Processing? ==> forall i | 0 <= i < |todo| :: todo[i].row.worker.None?
    case Resetting(status, _, _, _, _) => !status.Processing?
    case _ => true
  }

  ghost predicate Powerless(cfg: Config, s: State) {
    && Unowned(s.db.rows)
    && forall p | p in s.procs :: SweepPowerless(s.procs[p]) && (p.Worker? ==> OwnerOf(cfg, p.name).None?)
  }

  lemma StepsStayUnowned(cfg: Config, s: State, p: ProcId, pc: Proc, c: Choice)
    requires Unowned(s.db.rows) && (p.Worker? ==> OwnerOf(cfg, p.name).None?)
    ensures Unowned(Resume(cfg, s, p, pc, c).db.rows)
  {
    hide ActPublishing, ActEnqueuing, ActPolling, ActClaiming, ActFinalizing, ActFailing,
      ActClosing, ActWaiting, ActReleasing, ActRequeuing, ActSweeping, ActResetting;
  }

  /** Only a sweep over PROCESSING rows moves a row from PROCESSING back to QUEUED. */
  lemma WhoRecovers(cfg: Config, s: State, p: ProcId, pc: Proc, c: Choice, e: EventId)
    requires e in s.db.rows && s.db.rows[e].status.Processing?
    requires var rows' := Resume(cfg, s, p, pc, c).db.rows; e in rows' && rows'[e].status.Queued?
    ensures pc.Resetting? && pc.status.Processing?
  {
    hide ActPublishing, ActEnqueuing, ActPolling, ActClaiming, ActFinalizing, ActFailing,
      ActClosing, ActWaiting, ActReleasing, ActRequeuing, ActSweeping, ActResetting;
  }

  lemma SweeperStaysPowerless(cfg: Config, s: State, p: ProcId, pc: Proc, c: Choice)
    requires p in s.procs && s.procs[p] == Gone && SweepPowerless(pc)
    ensures p in Resume(cfg, s, p, pc, c).procs && SweepPowerless(Resume(cfg, s, p, pc, c).procs[p])
  {
    hide CalculateBackoff, RecordFailureTx, FinalizeTx, AssignTx, UpdateStatusTx;
  }

  lemma ActStaysPowerless(cfg: Config, s: State, p: ProcId, c: Choice)
    requires Powerless(cfg, s) && p in s.procs
    requires var s' := Resume(cfg, Set(s, p, Gone), p, s.procs[p], c); ProcInv(ViewOf(s'), s'.procs)
    ensures Powerless(cfg, Resume(cfg, Set(s, p, Gone), p, s.procs[p], c))
  {
    hide Resume, ProcInv;
    var parked, pc := Set(s, p, Gone), s.procs[p];
    var s' := Resume(cfg, parked, p, pc, c);
    OnlyTheActorMoves(cfg, parked, p, pc, c);
    SweeperStaysPowerless(cfg, parked, p, pc, c);
    StepsStayUnowned(cfg, parked, p, pc, c);
    forall q | q in s'.procs
      ensures SweepPowerless(s'.procs[q]) && (q.Worker? ==> OwnerOf(cfg, q.name).None?)
    {
      SweepersAreSweepers(s', q);
      assert q == p || q.Task? || q in parked.procs;
    }
  }

  lemma SnapshotPowerless(s: State, status: Status, cutoff: nat, todo: seq<Stale>)
    requires Unowned(s.db.rows) && IsSnapshot(s.db, status, cutoff, todo)
    ensures forall i | 0 <= i < |todo| :: todo[i].row.worker.None?
  {
  }

  lemma NextStaysPowerless(cfg: Config, s: State, m: Move)
    requires Inv(cfg, s) && Enabled(s, m) && Powerless(cfg, s)
    requires m.Boot? ==> OwnerOf(cfg, m.name).None?
    ensures Powerless(cfg, Next(cfg, s, m))
  {
    hide Resume, Inv, IsSnapshot;
    match m {
      case Act(p, c) =>
        PerformKeeps(cfg, s, m);
        FactsOf(cfg, Perform(cfg, s, m));
        ActStaysPowerless(cfg, s, p, c);
      case Snapshot(_, status, cutoff, todo) =>
        SnapshotPowerless(s, status, cutoff, todo);
      case _ =>
    }
  }

  lemma {:induction false} NamelessRunsPowerless(cfg: Config, moves: seq<Move>)
    requires Legal(cfg, moves) && NamelessRun(cfg, moves)
    ensures Powerless(cfg, After(cfg, moves))
  {
    hide Next, Enabled, Inv;
    if moves != [] {
      var before, m := moves[..|moves| - 1], moves[|moves| - 1];
      NamelessRunsPowerless(cfg, before);
      RunsKeepInv(cfg, before);
      NextStaysPowerless(cfg, After(cfg, before), m);
    }
  }

  lemma NewHistoriesAreEmpty(cfg: Config, s: State, m: Move, e: EventId)
    requires Enabled(s, m) && e !in s.hist.commits && e in Next(cfg, s, m).hist.commits
    requires s.hist.commits.Keys == s.db.rows.Keys && Next(cfg, s, m).hist.commits.Keys == Next(cfg, s, m).db.rows.Keys
    ensures Next(cfg, s, m).hist.commits[e] == []
  {
    hide Resume;
    match m
    case Submit(_, _, _, _) =>
    case Act(p, c) =>
      WhoChangesARow(cfg, Set(s, p, Gone), p, s.procs[p], c);
    case _ =>
  }

  // ---- One event ----

  /** Nobody who ever claimed the event has an id that parses. */
  predicate ClaimedNameless(cfg: Config, ws: seq<Write<ProcId>>) {
    forall i | 0 <= i < |ws| && ws[i].to.Processing? && ws[i].who.Worker? :: OwnerOf(cfg, ws[i].who.name).None?
  }

  /** The sweep, if it is one over PROCESSING rows, knows no owner of `e` and is not resetting it. */
  predicate SweepBlind(pc: Proc, e: EventId) {
    match pc
    case Sweeping(status, todo, _, _) =>
      status.Processing? ==> forall i | 0 <= i < |todo| && todo[i].id == e :: todo[i].row.worker.None?
    case Resetting(status, todo, _, _, _) =>
      status.Processing? ==>
        todo != [] && todo[0].id != e && forall i | 0 <= i < |todo| && todo[i].id == e :: todo[i].row.worker.None?
    case _ => true
  }

  ghost predicate Unnamed(s: State, e: EventId) {
    && (e in s.db.rows ==> s.db.rows[e].worker.None?)
    && forall p | p in s.procs :: SweepBlind(s.procs[p], e)
  }

  /** An owner is written only by a claim, which the row's history names, and is the claimer's. */
  lemma WhoWritesAnOwner(cfg: Config, s: State, p: ProcId, pc: Proc, c: Choice, e: EventId)
    requires e in s.db.rows && s.hist.commits.Keys == s.db.rows.Keys && s.db.rows[e].worker.None?
    requires var rows' := Resume(cfg, s, p, pc, c).db.rows; e in rows' && rows'[e].worker.Some?
    ensures var s' := Resume(cfg, s, p, pc, c);
            && p.Worker? && OwnerOf(cfg, p.name).Some?
            && e in s'.hist.commits && s'.hist.commits[e] == s.hist.commits[e] + [Write(p, Queued, Processing)]
  {
    hide ActPublishing, ActPolling, ActFinalizing, ActFailing, ActClosing, ActWaiting, ActReleasing, ActSweeping,
      ActEnqueuing, ActRequeuing, ActResetting;
    match pc
    case Claiming(job) =>
      ClaimWritesItsOwner(cfg, s, p, job, c, e);
    case Finalizing(job) =>
      FinalizingWritesNoOwner(s.db, job.event, c.now, e);
    case Failing(job) =>
      FailingWritesNoOwner(s.db, job.event, cfg.maxAttempts, c.now, e);
    case _ =>
  }

  lemma ClaimWritesItsOwner(cfg: Config, s: State, p: ProcId, job: Job, c: Choice, e: EventId)
    requires e in s.db.rows && s.hist.commits.Keys == s.db.rows.Keys && s.db.rows[e].worker.None?
    requires var rows' := ActClaiming(cfg, s, p, job, c).db.rows; e in rows' && rows'[e].worker.Some?
    ensures var s' := ActClaiming(cfg, s, p, job, c);
            && p.Worker? && OwnerOf(cfg, p.name).Some?
            && e in s'.hist.commits && s'.hist.commits[e] == s.hist.commits[e] + [Write(p, Queued, Processing)]
  {
  }

  lemma FinalizingWritesNoOwner(db: Db, x: EventId, now: nat, e: EventId)
    requires e in db.rows
    ensures var rows' := FinalizeTx(db, x, RESULT_HASH, now).db.rows; e in rows' && rows'[e].worker == db.rows[e].worker
  {
  }

  lemma FailingWritesNoOwner(db: Db, x: EventId, maxAttempts: int, now: nat, e: EventId)
    requires e in db.rows
    ensures var rows' := RecordFailureTx(db, x, maxAttempts, now).db.rows;
            e in rows' && rows'[e].worker == db.rows[e].worker
  {
  }

  lemma SweepStaysBlind(pc: Proc, c: Choice, pc': Proc, e: EventId)
    requires (pc.Sweeping? || pc.Resetting?) && SweepAdvances(pc, c, pc') && SweepBlind(pc, e)
    ensures SweepBlind(pc', e)
  {
  }

  lemma ActStaysUnnamed(cfg: Config, s: State, p: ProcId, c: Choice, e: EventId)
    requires Inv(cfg, s) && Enabled(s, Act(p, c)) && Unnamed(s, e) && Inv(cfg, Next(cfg, s, Act(p, c)))
    requires var s' := Next(cfg, s, Act(p, c)); e in s'.hist.commits ==> ClaimedNameless(cfg, s'.hist.commits[e])
    ensures Unnamed(Next(cfg, s, Act(p, c)), e)
  {
    hide Resume, Inv, ProcInv, SweepBlind, SweepAdvances;
    var parked, pc, s' := Set(s, p, Gone), s.procs[p], Next(cfg, s, Act(p, c));
    FactsOf(cfg, s);
    FactsOf(cfg, s');
    OnlyTheActorMoves(cfg, parked, p, pc, c);
    WhoChangesARow(cfg, parked, p, pc, c);
    forall q | q in s'.procs ensures SweepBlind(s'.procs[q], e) {
      OnlySweepsSee(s', q, e);
      assert q == p || q.Task? || q in parked.procs;
      if q == p && (pc.Sweeping? || pc.Resetting?) {
        SweeperAdvances(cfg, parked, p, pc, c);
        SweepStaysBlind(pc, c, s'.procs[p], e);
      } else if q == p && !SweepBlind(s'.procs[q], e) {
        NewSweepsNeedASnapshot(cfg, s, p, c);
      }
    }
    if e in s.db.rows && s'.db.rows[e].worker.Some? {
      LastClaimIsNameless(cfg, s.hist.commits[e], p);
      WhoWritesAnOwner(cfg, parked, p, pc, c, e);
    }
  }

  lemma LastClaimIsNameless(cfg: Config, ws: seq<Write<ProcId>>, p: ProcId)
    ensures ClaimedNameless(cfg, ws + [Write(p, Queued, Processing)]) && p.Worker? ==> OwnerOf(cfg, p.name).None?
  {
    var all := ws + [Write(p, Queued, Processing)];
    assert all[|ws|] == Write(p, Queued, Processing);
  }

  lemma OnlySweepsSee(s: State, q: ProcId, e: EventId)
    requires ProcInv(ViewOf(s), s.procs) && q in s.procs
    ensures !SweepBlind(s.procs[q], e) ==> q.Sweeper? && (s.procs[q].Sweeping? || s.procs[q].Resetting?)
  {
    SweepersAreSweepers(s, q);
  }

  lemma NextStaysUnnamed(cfg: Config, s: State, m: Move, e: EventId)
    requires Inv(cfg, s) && Enabled(s, m) && Unnamed(s, e) && Inv(cfg, Next(cfg, s, m))
    requires var s' := Next(cfg, s, m); e in s'.hist.commits ==> ClaimedNameless(cfg, s'.hist.commits[e])
    ensures Unnamed(Next(cfg, s, m), e)
  {
    hide Resume, Inv;
    if m.Act? {
      ActStaysUnnamed(cfg, s, m.actor, m.choice, e);
    }
  }

  lemma LastWriteIsNoRecovery(cfg: Config, s: State, m: Move, e: EventId)
    requires Unnamed(s, e) && Enabled(s, m) && StateMoves(s, Next(cfg, s, m), e)
    ensures Recoveries(Next(cfg, s, m).hist.commits[e]) == Recoveries(s.hist.commits[e])
  {
    hide Resume;
    var s' := Next(cfg, s, m);
    if m.Act? && s.db.rows[e].status.Processing? && s'.db.rows[e].status.Queued? {
      WhoRecovers(cfg, Set(s, m.actor, Gone), m.actor, s.procs[m.actor], m.choice, e);
      WhoChangesARow(cfg, Set(s, m.actor, Gone), m.actor, s.procs[m.actor], m.choice);
    }
  }

  /**
   In every run, whatever other workers there are: an event claimed only by workers whose ids do not parse is never
   recovered, its row never names an owner, and no sweep over PROCESSING rows can tell whose it is.
   */
  lemma {:induction false} PoolWorkersAreNeverRecovered(cfg: Config, moves: seq<Move>, e: EventId)
    requires Legal(cfg, moves)
    requires e in After(cfg, moves).hist.commits ==> ClaimedNameless(cfg, After(cfg, moves).hist.commits[e])
    ensures Unnamed(After(cfg, moves), e)
    ensures e in After(cfg, moves).hist.commits ==> Recoveries(After(cfg, moves).hist.commits[e]) == 0
  {
    hide Next, Enabled, Inv, RowMoves, Unnamed;
    if moves == [] {
      NothingNamed(e);
    } else {
      var before, m := moves[..|moves| - 1], moves[|moves| - 1];
      var s, s' := After(cfg, before), After(cfg, moves);
      assert before + [m] == moves;
      RunsKeepInv(cfg, before);
      RunsKeepInv(cfg, moves);
      FactsOf(cfg, s);
      FactsOf(cfg, s');
      if e in s.hist.commits {
        LastMove(cfg, before, m, e);
        HistoryGrows(cfg, s, s', e);
      }
      PoolWorkersAreNeverRecovered(cfg, before, e);
      NextStaysUnnamed(cfg, s, m, e);
      if e in s.hist.commits {
        LastWriteIsNoRecovery(cfg, s, m, e);
      } else if e in s'.hist.commits {
        NewHistoriesAreEmpty(cfg, s, m, e);
      }
    }
  }

  lemma NothingNamed(e: EventId)
    ensures Unnamed(START, e) && e !in START.hist.commits
  {
  }

  lemma HistoryGrows(cfg: Config, s: State, s': State, e: EventId)
    requires StateMoves(s, s', e)
    ensures e in s.hist.commits && e in s'.hist.commits && s.hist.commits[e] <= s'.hist.commits[e]
    ensures ClaimedNameless(cfg, s'.hist.commits[e]) ==> ClaimedNameless(cfg, s.hist.commits[e])
  {
  }

  /** So once nobody holds such an event any more, its row never changes again, even if UUID workers start later. */
  lemma StrandedForever(cfg: Config, moves: seq<Move>, e: EventId)
    requires Legal(cfg, moves) && e in After(cfg, moves).db.rows && After(cfg, moves).db.rows[e].status.Processing?
    requires e in After(cfg, moves).hist.commits && ClaimedNameless(cfg, After(cfg, moves).hist.commits[e])
    requires NobodyHolds(After(cfg, moves), e)
    ensures FrozenFrom(cfg, moves, e)
  {
    hide Legal, After, ClaimedNameless, FrozenFrom, NobodyHolds;
    PoolWorkersAreNeverRecovered(cfg, moves, e);
    UnnamedIsAbandoned(After(cfg, moves), e);
    ProcessingIsAbandonedExactlyWhen(cfg, moves, e);
  }

  lemma UnnamedIsAbandoned(s: State, e: EventId)
    requires Unnamed(s, e) && e in s.db.rows
    ensures s.db.rows[e].worker.None? && NobodyResets(s, e)
  {
    forall q | q in s.procs ensures !MayReset(s.procs[q], e) {
      assert SweepBlind(s.procs[q], e);
    }
  }
}
