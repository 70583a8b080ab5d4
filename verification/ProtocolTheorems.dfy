/** What holds in every run of the delivery protocol, whatever interleaves, crashes or loses its answer. */
module ProtocolTheorems {
  import opened Events
  import opened Trails
  import opened EventStore
  import opened Streams
  import opened Backoff
  import opened Protocol
  import opened ProtocolInvariant
  import opened ProtocolSteps

  // ---- Single moves ----

  /** What one move may do to one row: nothing at all, or one valid status write, entered in its history. */
  ghost predicate RowMoves(rows: Rows, rows': Rows, commits: Commits, commits': Commits, e: EventId) {
    && e in rows && e in rows' && e in commits && e in commits'
    && var r, r', ws, ws' := rows[e], rows'[e], commits[e], commits'[e];
       || (r' == r && ws' == ws)
       || (|ws'| == |ws| + 1 && ws'[..|ws|] == ws && ws'[|ws|].from == r.status && ws'[|ws|].to == r'.status
           && IsValidTransition(r.status, r'.status))
  }

  ghost predicate StateMoves(s: State, s': State, e: EventId) {
    RowMoves(s.db.rows, s'.db.rows, s.hist.commits, s'.hist.commits, e)
  }

  lemma CommitMoves(s: State, p: ProcId, x: EventId, tx: Tx, e: EventId)
    requires s.hist.commits.Keys == s.db.rows.Keys && e in s.db.rows
    requires tx.err.Ok? ==> x in s.db.rows && x in tx.db.rows && tx.db.rows == s.db.rows[x := tx.db.rows[x]]
                            && IsValidTransition(s.db.rows[x].status, tx.db.rows[x].status)
    ensures StateMoves(s, Commit(s, p, x, tx), e)
  {
  }

  predicate Transacts(pc: Proc) {
    pc.Enqueuing? || pc.Claiming? || pc.Finalizing? || pc.Failing? || pc.Requeuing? || pc.Resetting?
  }

  lemma OthersWriteNothing(cfg: Config, s: State, p: ProcId, pc: Proc, c: Choice)
    requires !Transacts(pc)
    ensures var s' := Resume(cfg, s, p, pc, c); s'.db == s.db && s'.hist.commits == s.hist.commits
  {
    hide ActPublishing, ActPolling, ActClosing, ActWaiting, ActReleasing, ActSweeping;
  }

  lemma FailingMoves(cfg: Config, s: State, p: ProcId, job: Job, c: Choice, e: EventId)
    requires s.hist.commits.Keys == s.db.rows.Keys && e in s.db.rows
    ensures StateMoves(s, ActFailing(cfg, s, p, job, c), e)
  {
    hide CalculateBackoff, RowMoves;
    UnmovedMoves(s, e);
    CommitMoves(s, p, job.event, RecordFailureTx(s.db, job.event, cfg.maxAttempts, c.now), e);
  }

  lemma ClaimingMoves(cfg: Config, s: State, p: ProcId, job: Job, c: Choice, e: EventId)
    requires s.hist.commits.Keys == s.db.rows.Keys && e in s.db.rows
    ensures StateMoves(s, ActClaiming(cfg, s, p, job, c), e)
  {
    hide RowMoves;
    UnmovedMoves(s, e);
    if p.Worker? {
      CommitMoves(Find(s, job.receipt, job.event), p, job.event,
          AssignTx(s.db, job.event, OwnerOf(cfg, p.name), Queued, Processing, c.now), e);
    }
  }

  lemma FinalizingMoves(s: State, p: ProcId, job: Job, c: Choice, e: EventId)
    requires s.hist.commits.Keys == s.db.rows.Keys && e in s.db.rows
    ensures StateMoves(s, ActFinalizing(s, p, job, c), e)
  {
    CommitMoves(s, p, job.event, FinalizeTx(s.db, job.event, RESULT_HASH, c.now), e);
  }

  lemma HandoffMoves(s: State, p: ProcId, x: EventId, receipt: nat, tx: Tx, e: EventId)
    requires s.hist.commits.Keys == s.db.rows.Keys && e in s.db.rows
    requires tx.err.Ok? ==> x in s.db.rows && x in tx.db.rows && tx.db.rows == s.db.rows[x := tx.db.rows[x]]
                            && IsValidTransition(s.db.rows[x].status, tx.db.rows[x].status)
    ensures StateMoves(s, Handoff(s, p, x, receipt, tx), e)
  {
    CommitMoves(s, p, x, tx, e);
  }

  lemma TransactionMoves(cfg: Config, s: State, p: ProcId, pc: Proc, c: Choice, e: EventId)
    requires Transacts(pc) && s.hist.commits.Keys == s.db.rows.Keys && e in s.db.rows
    ensures StateMoves(s, Resume(cfg, s, p, pc, c), e)
  {
    hide ActFailing, ActClaiming, ActFinalizing, Handoff, RowMoves;
    UnmovedMoves(s, e);
    match pc {
      case Claiming(job) => ClaimingMoves(cfg, s, p, job, c, e);
      case Finalizing(job) => FinalizingMoves(s, p, job, c, e);
      case Failing(job) => FailingMoves(cfg, s, p, job, c, e);
      case Enqueuing(x, r) => HandoffMoves(s, p, x, r, UpdateStatusTx(s.db, x, Received, Queued, c.now), e);
      case Requeuing(job, r) => HandoffMoves(s, p, job.event, r,
          UpdateStatusTx(s.db, job.event, Retrying, Queued, c.now), e);
      case Resetting(status, todo, _, _, r) =>
        if todo != [] {
          HandoffMoves(s, p, todo[0].id, r, AssignTx(s.db, todo[0].id, None, status, Queued, c.now), e);
        }
    }
  }

  lemma UnmovedMoves(s: State, e: EventId)
    requires s.hist.commits.Keys == s.db.rows.Keys && e in s.db.rows
    ensures StateMoves(s, s, e)
  {
  }

  lemma NextMoves(cfg: Config, s: State, m: Move, e: EventId)
    requires Enabled(s, m) && s.hist.commits.Keys == s.db.rows.Keys && e in s.db.rows
    ensures StateMoves(s, Next(cfg, s, m), e)
  {
    hide Resume;
    if m.Act? {
      hide RowMoves;
      var parked, pc := Set(s, m.actor, Gone), s.procs[m.actor];
      UnmovedMoves(s, e);
      if Transacts(pc) {
        TransactionMoves(cfg, parked, m.actor, pc, m.choice, e);
      } else {
        OthersWriteNothing(cfg, parked, m.actor, pc, m.choice);
      }
    }
  }

  /** The same for the last move of a run. */
  lemma LastMove(cfg: Config, moves: seq<Move>, m: Move, e: EventId)
    requires Legal(cfg, moves) && Enabled(After(cfg, moves), m) && e in After(cfg, moves).db.rows
    ensures Legal(cfg, moves + [m]) && After(cfg, moves + [m]) == Next(cfg, After(cfg, moves), m)
    ensures StateMoves(After(cfg, moves), After(cfg, moves + [m]), e)
  {
    hide Next, QueueInv, HandoffInv, ProcInv, ReportsOk, IsPath, RowMoves;
    assert (moves + [m])[..|moves|] == moves;
    RunsKeepInv(cfg, moves);
    NextMoves(cfg, After(cfg, moves), m, e);
  }

  // ---- The event's history ----

  /** An event's committed statuses are a path of the transition table from RECEIVED to where its row now stands. */
  lemma StatusHistoryIsAPath(cfg: Config, moves: seq<Move>, e: EventId)
    requires Legal(cfg, moves) && e in After(cfg, moves).db.rows
    ensures var s := After(cfg, moves);
            && e in s.hist.commits && IsPath(s.hist.commits[e], s.db.rows[e].status)
            && (Terminal(s.db.rows[e].status) <==> s.db.rows[e].completedAt.Some?)
  {
    RunsKeepInv(cfg, moves);
    var s := After(cfg, moves);
    assert RowOk(cfg, s.db.rows[e], e in s.db.idempotency) && TrailOk(s.db.rows[e], s.hist.commits[e]);
  }

  /** Claims, outcomes, recoveries and queue entries balance for every event of every run. */
  lemma FlowBalances(cfg: Config, moves: seq<Move>, e: EventId)
    requires Legal(cfg, moves) && e in After(cfg, moves).db.rows
    ensures e in After(cfg, moves).hist.commits
    ensures var s := After(cfg, moves);
            var ws, st := s.hist.commits[e], s.db.rows[e].status;
            && Claims(ws) == Completions(ws) + Failures(ws) + Recoveries(ws) + One(st.Processing?)
            && Count(ws, Received, Queued) + Count(ws, Retrying, Queued) + Recoveries(ws)
                == Claims(ws) + One(st.Queued?)
            && SoftFailures(ws) == Count(ws, Retrying, Queued) + One(st.Retrying?)
            && Failures(ws) == s.db.rows[e].attempt
  {
    RunsKeepInv(cfg, moves);
    var s := After(cfg, moves);
    assert TrailOk(s.db.rows[e], s.hist.commits[e]);
    FlowConserved(s.hist.commits[e], s.db.rows[e].status);
  }

  /** At every moment of its history an event has at most one open claim. */
  lemma ClaimsAreExclusiveInHistory(cfg: Config, moves: seq<Move>, e: EventId, n: nat)
    requires Legal(cfg, moves) && e in After(cfg, moves).hist.commits && n <= |After(cfg, moves).hist.commits[e]|
    ensures var ws := After(cfg, moves).hist.commits[e][..n];
            var closed := Completions(ws) + Failures(ws) + Recoveries(ws);
            closed <= Claims(ws) <= closed + 1
  {
    RunsKeepInv(cfg, moves);
    var s := After(cfg, moves);
    assert TrailOk(s.db.rows[e], s.hist.commits[e]);
    ClaimsNeverOverlap(s.hist.commits[e], s.db.rows[e].status, n);
  }

  /** Exactly how many status writes an event has had, and hence how many it can ever have. */
  lemma StatusWritesAreBounded(cfg: Config, moves: seq<Move>, e: EventId)
    requires Legal(cfg, moves) && e in After(cfg, moves).db.rows
    ensures e in After(cfg, moves).hist.commits
    ensures var s := After(cfg, moves);
            var ws, r := s.hist.commits[e], s.db.rows[e];
            && |ws| == 3 * r.attempt + Offset(r.status) + 2 * Recoveries(ws)
            && |ws| <= 3 * Cap(cfg) + 2 * Recoveries(ws)
  {
    RunsKeepInv(cfg, moves);
    var s := After(cfg, moves);
    assert RowOk(cfg, s.db.rows[e], e in s.db.idempotency) && TrailOk(s.db.rows[e], s.hist.commits[e]);
    FlowConserved(s.hist.commits[e], s.db.rows[e].status);
  }

  /** Status writes a row can still make when `left` recoveries remain. */
  function RankOf(cfg: Config, r: Row, left: int): int {
    3 * Cap(cfg) + 2 * left - 3 * r.attempt - Offset(r.status)
  }

  /** The rank is what remains of the bound on status writes, so it is not negative while recoveries remain. */
  lemma RankIsWhatRemains(cfg: Config, moves: seq<Move>, e: EventId, allowed: nat)
    requires Legal(cfg, moves) && e in After(cfg, moves).db.rows
    ensures e in After(cfg, moves).hist.commits
    ensures var s := After(cfg, moves);
            var ws := s.hist.commits[e];
            var rank := RankOf(cfg, s.db.rows[e], allowed - Recoveries(ws));
            rank == 3 * Cap(cfg) + 2 * allowed - |ws| && (Recoveries(ws) <= allowed ==> rank >= 0)
  {
    hide Next, IsPath;
    StatusWritesAreBounded(cfg, moves, e);
  }

  /** Every move either leaves a row alone or lowers its rank by one. */
  lemma RankFalls(cfg: Config, moves: seq<Move>, m: Move, e: EventId, allowed: nat)
    requires Legal(cfg, moves) && Enabled(After(cfg, moves), m) && e in After(cfg, moves).db.rows
    ensures var s, s' := After(cfg, moves), Next(cfg, After(cfg, moves), m);
            && e in s.hist.commits && e in s'.db.rows && e in s'.hist.commits
            && (s'.db.rows[e] == s.db.rows[e]
                || RankOf(cfg, s'.db.rows[e], allowed - Recoveries(s'.hist.commits[e]))
                   == RankOf(cfg, s.db.rows[e], allowed - Recoveries(s.hist.commits[e])) - 1)
  {
    hide Next, RankOf, Count, Legal, After;
    LastMove(cfg, moves, m, e);
    RankIsWhatRemains(cfg, moves, e, allowed);
    RankIsWhatRemains(cfg, moves + [m], e, allowed);
  }

  /** From the moment a row is terminal, nothing in it ever changes. */
  lemma {:induction false} TerminalRowsAreFrozen(cfg: Config, moves: seq<Move>, n: nat, e: EventId)
    requires Legal(cfg, moves) && n <= |moves| && Legal(cfg, moves[..n])
    requires e in After(cfg, moves[..n]).db.rows && Terminal(After(cfg, moves[..n]).db.rows[e].status)
    ensures e in After(cfg, moves).db.rows && After(cfg, moves).db.rows[e] == After(cfg, moves[..n]).db.rows[e]
  {
    hide Next, Enabled;
    if n == |moves| {
      assert moves[..n] == moves;
    } else {
      var before, m := moves[..|moves| - 1], moves[|moves| - 1];
      assert before[..n] == moves[..n] && before + [m] == moves;
      TerminalRowsAreFrozen(cfg, before, n, e);
      LastMove(cfg, before, m, e);
    }
  }

  // ---- Finalization ----

  /**
   However many zombie workers, duplicates and recoveries there are, a row is COMPLETED exactly when its
   idempotency record exists, at most one finalization ever wrote it, and the store's "PROCESSING but
   already recorded" branch is never reached.
   */
  lemma FinalizedOnce(cfg: Config, moves: seq<Move>, e: EventId)
    requires Legal(cfg, moves)
    ensures var s := After(cfg, moves);
            && (e in s.db.idempotency <==> e in s.db.rows && s.db.rows[e].status.Completed?)
            && (e in s.hist.commits ==> Completions(s.hist.commits[e]) == One(e in s.db.idempotency))
            && (e in s.db.rows && s.db.rows[e].status.Processing? ==> e !in s.db.idempotency)
  {
    RunsKeepInv(cfg, moves);
    var s := After(cfg, moves);
    if e in s.db.rows {
      assert RowOk(cfg, s.db.rows[e], e in s.db.idempotency) && TrailOk(s.db.rows[e], s.hist.commits[e]);
      FlowConserved(s.hist.commits[e], s.db.rows[e].status);
    }
  }

  // ---- Attempts and delays ----

  /** A job held or carried by some process. */
  predicate Carries(pc: Proc, job: Job) {
    match pc
    case Claiming(j) => j == job
    case Running(j) => j == job
    case Finalizing(j) => j == job
    case Failing(j) => j == job
    case Closing(j, _, _) => j == job
    case Waiting(j) => j == job
    case Releasing(j, _) => j == job
    case Requeuing(j, _) => j == job
    case _ => false
  }

  /** Every message and every job refers to an existing row. The attempt it carries never runs ahead of
   the row's own counter, which decides the row's fate. */
  lemma AttemptDiscipline(cfg: Config, moves: seq<Move>)
    requires Legal(cfg, moves)
    ensures var s := After(cfg, moves);
            && (forall i | 0 <= i < |s.broker.log| :: MessageOk(s.db.rows, s.broker.log[i]))
            && (forall p, job | p in s.procs && Carries(s.procs[p], job) :: MessageOk(s.db.rows, MessageOf(job)))
            && (forall e | e in s.db.rows ::
                  var r := s.db.rows[e];
                  && (r.status.Retrying? ==> 1 <= r.attempt < cfg.maxAttempts)
                  && (if r.status.Failed? then r.attempt == Cap(cfg) else 0 <= r.attempt < Cap(cfg)))
  {
    hide Next, HandoffInv, ReportsOk, IsPath, Count, DelaysInv;
    RunsKeepInv(cfg, moves);
    var s := After(cfg, moves);
    forall p, job | p in s.procs && Carries(s.procs[p], job) ensures MessageOk(s.db.rows, MessageOf(job)) {
      assert ProcOk(ViewOf(s), p, s.procs[p]);
    }
    forall e | e in s.db.rows ensures RowOk(cfg, s.db.rows[e], e in s.db.idempotency) {
    }
  }

  /** All the waiting ever scheduled for one event, even when workers carry attempts that lag the row. */
  lemma BackoffOverALife(cfg: Config, moves: seq<Move>, e: EventId)
    requires Legal(cfg, moves) && e in After(cfg, moves).db.rows
    ensures e in After(cfg, moves).hist.delays
    ensures var ds := After(cfg, moves).hist.delays[e];
            && |ds| <= Cap(cfg) - 1
            && Sum(ds) <= (Cap(cfg) - 1) * MAX_DELAY
            && 10 * Sum(ds) <= 11 * cfg.baseDelay * (Pow2(Cap(cfg)) - 2)
  {
    hide CalculateBackoff, Next, QueueInv, HandoffInv, ProcInv, ReportsOk, IsPath, Count;
    RunsKeepInv(cfg, moves);
    var s := After(cfg, moves);
    assert RowOk(cfg, s.db.rows[e], e in s.db.idempotency);
    assert DelaysFit(cfg.baseDelay, s.hist.delays[e], NonFinal(s.db.rows[e]));
    DelaysFitMore(cfg.baseDelay, s.hist.delays[e], NonFinal(s.db.rows[e]), Cap(cfg) - 1);
  }

  // ---- Acknowledgements and handoffs ----

  /** An acknowledged message was delivered and its claim ran, and there is a reason why it was acknowledged. */
  lemma AcksAreJustified(cfg: Config, moves: seq<Move>, i: nat)
    requires Legal(cfg, moves) && i < |After(cfg, moves).broker.log| && After(cfg, moves).broker.Acked(i)
    ensures var s := After(cfg, moves); i in s.hist.found && Justified(s.db.rows, s.broker.log, s.hist.found, i)
  {
    RunsKeepInv(cfg, moves);
  }

  /** The justification already stood when the acknowledgement was made, so the later copy was published before it. */
  lemma AcksComeAfterTheirReason(cfg: Config, moves: seq<Move>, m: Move, i: nat)
    requires Legal(cfg, moves) && Enabled(After(cfg, moves), m)
    requires i < |After(cfg, moves).broker.log| && !After(cfg, moves).broker.Acked(i)
    requires i < |Next(cfg, After(cfg, moves), m).broker.log| && Next(cfg, After(cfg, moves), m).broker.Acked(i)
    ensures var s := After(cfg, moves); Justified(s.db.rows, s.broker.log, s.hist.found, i)
  {
    var s := After(cfg, moves);
    RunsKeepInv(cfg, moves);
    assert (moves + [m])[..|moves|] == moves;
    RunsKeepInv(cfg, moves + [m]);
    NewAckChangesNothingElse(cfg, s, m, i);
  }

  lemma NewAckChangesNothingElse(cfg: Config, s: State, m: Move, i: nat)
    requires s.broker.Valid() && Enabled(s, m) && i < |s.broker.log| && !s.broker.Acked(i)
    requires i < |Next(cfg, s, m).broker.log| && Next(cfg, s, m).broker.Acked(i)
    ensures var s' := Next(cfg, s, m); s'.db == s.db && s'.broker.log == s.broker.log && s'.hist.found == s.hist.found
  {
    hide ActPublishing, ActEnqueuing, ActPolling, ActClaiming, ActFinalizing, ActFailing,
      ActClosing, ActWaiting, ActReleasing, ActRequeuing, ActSweeping, ActResetting;
  }

  /**
   A QUEUED event's last handoff copy is still unclaimed exactly when no claim reached it between its publication
   and the status write; it is then unacknowledged: not yet delivered, or pending with a worker that may or may
   not come to claim it.
   */
  lemma HandoffCopiesAreKept(cfg: Config, moves: seq<Move>, e: EventId)
    requires Legal(cfg, moves) && e in After(cfg, moves).db.rows && After(cfg, moves).db.rows[e].status.Queued?
    ensures var s := After(cfg, moves);
            && e in s.hist.handoff && CopyOk(s.broker.log, e, s.hist.handoff[e])
            && (s.hist.handoff[e] !in s.hist.found <==> e !in s.hist.early)
            && (e !in s.hist.early ==>
                  !s.broker.IsDelivered(s.hist.handoff[e]) || s.hist.handoff[e] in s.broker.pending)
  {
    RunsKeepInv(cfg, moves);
    var s := After(cfg, moves);
    assert HandoffOk(s.broker.log, s.hist.found, s.hist.handoff, s.hist.early, e, s.db.rows[e].status);
  }

  // ---- Outcomes ----

  function Tally(rs: seq<Report>, v: Verdict): nat {
    if rs == [] then 0 else Tally(rs[..|rs| - 1], v) + One(rs[|rs| - 1].verdict == v)
  }

  function RowsWith(db: Db, status: Status): set<EventId> {
    set e | e in db.rows && db.rows[e].status == status
  }

  /** Distinct reports of one verdict are no more than the rows they name. */
  lemma {:induction false} TallyWithin(rs: seq<Report>, v: Verdict, ids: set<EventId>)
    requires forall i | 0 <= i < |rs| && rs[i].verdict == v :: rs[i].event in ids
    requires forall i, j | 0 <= i < j < |rs| :: rs[i].event != rs[j].event
    ensures Tally(rs, v) <= |ids|
  {
    if rs != [] {
      var last := rs[|rs| - 1];
      if last.verdict == v {
        TallyWithin(rs[..|rs| - 1], v, ids - {last.event});
        assert last.event in ids;
        assert |ids - {last.event}| == |ids| - 1;
      } else {
        TallyWithin(rs[..|rs| - 1], v, ids);
      }
    }
  }

  /**
   At most one outcome is ever announced for an event, it is the row's own, and the processed and failed
   counters never exceed the COMPLETED and FAILED rows.
   */
  lemma OutcomesAnnouncedOnce(cfg: Config, moves: seq<Move>)
    requires Legal(cfg, moves)
    ensures var s := After(cfg, moves);
            && (forall i, j | 0 <= i < j < |s.hist.announced| :: s.hist.announced[i].event != s.hist.announced[j].event)
            && (forall i | 0 <= i < |s.hist.announced| :: ReportOk(s.db.rows, s.hist.announced[i]))
            && Tally(s.hist.counted, Success) <= |RowsWith(s.db, Completed)|
            && Tally(s.hist.counted, Exhausted) <= |RowsWith(s.db, Failed)|
  {
    RunsKeepInv(cfg, moves);
    var s := After(cfg, moves);
    forall i | 0 <= i < |s.hist.counted| ensures ReportOk(s.db.rows, s.hist.counted[i]) {
    }
    TallyWithin(s.hist.counted, Success, RowsWith(s.db, Completed));
    TallyWithin(s.hist.counted, Exhausted, RowsWith(s.db, Failed));
  }
}
