/** Every move of the protocol keeps its invariant. */
module ProtocolSteps {
  import opened Events
  import opened Trails
  import opened EventStore
  import opened Streams
  import opened Backoff
  import opened Protocol
  import opened ProtocolInvariant

  // ---- Claims ----

  /** No other process claims the same receipt. */
  lemma ClaimDisturbsNobody(v: View, p: ProcId, job: Job, q: ProcId, pc: Proc, status: Status)
    requires ProcOk(v, p, Claiming(job)) && ProcOk(v, q, pc) && (q == p ==> pc == Gone)
    ensures Undisturbed(v.(found := v.found[job.receipt := status]), pc)
  {
  }

  lemma FindEvolves(v: View, i: nat, status: Status)
    requires i !in v.found
    ensures Evolves(v, v.(found := v.found[i := status]))
  {
  }

  lemma ClaimantRuns(v: View, p: ProcId, job: Job, status: Status)
    requires ProcOk(v, p, Claiming(job))
    ensures ProcOk(v.(found := v.found[job.receipt := status]), p, Running(job))
    ensures job.event in v.rows && job.receipt in v.taker && job.receipt !in v.found
  {
  }

  lemma FindKeepsCore(cfg: Config, s: State, p: ProcId, job: Job)
    requires CoreInv(cfg, s) && p in s.procs && s.procs[p] == Gone
    requires ProcOk(ViewOf(s), p, Claiming(job))
    ensures CoreInv(cfg, Find(s, job.receipt, job.event))
    ensures ProcOk(ViewOf(Find(s, job.receipt, job.event)), p, Running(job))
  {
    hide StoreInv, ReportsOk, QueueInv, ProcOk, Undisturbed, Evolves;
    var v := ViewOf(s);
    ClaimantRuns(v, p, job, Received);
    var s', status := Find(s, job.receipt, job.event), s.db.rows[job.event].status;
    assert ViewOf(s') == v.(found := v.found[job.receipt := status]);
    ClaimantRuns(v, p, job, status);
    FindKeepsQueue(s.broker, s.db.rows, s.hist.found, s.hist.taker, job.receipt, status);
    FindEvolves(v, job.receipt, status);
    forall q | q in s.procs ensures Undisturbed(ViewOf(s'), s.procs[q]) {
      ClaimDisturbsNobody(v, p, job, q, s.procs[q], status);
    }
    ProcsEvolve(s, s');
  }

  lemma HandoffsClaimed(rows: Rows, rows': Rows, log: seq<Message>, found: map<nat, Status>,
      handoff: map<EventId, nat>, early: set<EventId>, e: EventId, receipt: nat)
    requires HandoffInv(rows, log, found, handoff, early) && CopyOk(log, e, receipt)
    requires e in rows && e in rows' && rows' == rows[e := rows'[e]] && !rows'[e].status.Queued?
    ensures HandoffInv(rows', log, found[receipt := rows[e].status], handoff, early)
  {
    forall x | x in rows' ensures HandoffOk(log, found[receipt := rows[e].status], handoff, early, x, rows'[x].status) {
      assert HandoffOk(log, found, handoff, early, x, rows[x].status);
    }
  }

  /** The claim transaction, whatever its caller hears. */
  lemma ClaimKeeps(cfg: Config, s: State, p: ProcId, job: Job, owner: Option<Uuid>, now: nat)
    requires Inv(cfg, s) && p in s.procs && s.procs[p] == Gone
    requires ProcOk(ViewOf(s), p, Claiming(job))
    ensures var tx := AssignTx(s.db, job.event, owner, Queued, Processing, now);
            var s' := Commit(Find(s, job.receipt, job.event), p, job.event, tx);
            && Inv(cfg, s') && ProcOk(ViewOf(s'), p, Running(job))
            && (tx.err.InvalidTransition? ==> s'.hist.found[job.receipt] != Queued)
  {
    hide QueueInv, ReportsOk, ProcInv, IsPath, Count, DelaysInv;
    var tx := AssignTx(s.db, job.event, owner, Queued, Processing, now);
    var s1 := Find(s, job.receipt, job.event);
    FindKeepsCore(cfg, s, p, job);
    ClaimIsRowStep(cfg, s.db, job.event, owner, now);
    HandoffsClaimed(s.db.rows, tx.db.rows, s.broker.log, s.hist.found, s.hist.handoff, s.hist.early, job.event,
        job.receipt);
    if tx.err.Ok? {
      CommitKeepsCore(cfg, s1, p, job.event, tx);
      ProcEvolves(ViewOf(s1), ViewOf(Commit(s1, p, job.event, tx)), p, Running(job));
    }
  }

  lemma ClaimingKeeps(cfg: Config, s: State, p: ProcId, job: Job, c: Choice)
    requires Inv(cfg, s) && p in s.procs && s.procs[p] == Gone
    requires ProcOk(ViewOf(s), p, Claiming(job))
    ensures Inv(cfg, ActClaiming(cfg, s, p, job, c))
  {
    hide CoreInv, HandoffInv;
    if c.reply.Refused? {
      SetKeeps(cfg, s, p, Polling(High));
    } else {
      var tx := AssignTx(s.db, job.event, OwnerOf(cfg, p.name), Queued, Processing, c.now);
      var s1 := Commit(Find(s, job.receipt, job.event), p, job.event, tx);
      ClaimKeeps(cfg, s, p, job, OwnerOf(cfg, p.name), c.now);
      if !c.reply.Lost? && tx.err.Ok? {
        SetKeeps(cfg, s1, p, Running(job));
      } else if !c.reply.Lost? && tx.err.InvalidTransition? {
        assert ClosingOk(ViewOf(s1), p, job, Conflict, Chores(Conflict));
        SetKeeps(cfg, s1, p, Closing(job, Conflict, Chores(Conflict)));
      } else {
        SetKeeps(cfg, s1, p, Polling(High));
      }
    }
  }

  // ---- Outcomes ----

  /** A row that was not terminal cannot have been reported. */
  lemma NotReported(rows: Rows, rs: seq<Report>, e: EventId)
    requires ReportsOk(rows, rs) && e in rows && !Terminal(rows[e].status)
    ensures !Reported(rs, e)
  {
    forall i | 0 <= i < |rs| ensures rs[i].event != e {
      assert ReportOk(rows, rs[i]);
    }
  }

  lemma FinishedOwesReports(cfg: Config, s: State, p: ProcId, job: Job, job': Job, verdict: Verdict, tx: Tx)
    requires Inv(cfg, s) && JobOk(ViewOf(s), job) && job.receipt in s.hist.found && p.Worker?
    requires verdict.Success? || verdict.Exhausted?
    requires tx.err.Ok? && RowStep(cfg, s.db, tx.db, job.event)
    requires tx.db.rows[job.event].status == if verdict.Success? then Completed else Failed
    requires job' == job.(attempt := job'.attempt) && 0 <= job'.attempt <= tx.db.rows[job.event].attempt
    ensures ProcOk(ViewOf(Commit(s, p, job.event, tx)), p, Closing(job', verdict, Chores(verdict)))
  {
    hide QueueInv, DelaysInv, IsPath, Count;
    NotReported(s.db.rows, s.hist.counted, job.event);
    NotReported(s.db.rows, s.hist.announced, job.event);
    var v := ViewOf(Commit(s, p, job.event, tx));
    assert OwesReports(v, p, job', verdict, Chores(verdict));
  }

  lemma FinalizingKeeps(cfg: Config, s: State, p: ProcId, job: Job, c: Choice)
    requires Inv(cfg, s) && ProcOk(ViewOf(s), p, Finalizing(job))
    ensures Inv(cfg, ActFinalizing(s, p, job, c))
  {
    hide QueueInv, ReportsOk, ProcInv, HandoffInv, IsPath, Count, DelaysInv;
    if c.reply.Refused? {
      SetKeeps(cfg, s, p, Polling(High));
    } else {
      var tx := FinalizeTx(s.db, job.event, RESULT_HASH, c.now);
      var s1 := Commit(s, p, job.event, tx);
      FinalizeIsRowStep(cfg, s.db, job.event, c.now);
      CommitKeeps(cfg, s, p, job.event, tx);
      if !c.reply.Lost? && tx.err.Ok? {
        FinishedOwesReports(cfg, s, p, job, job, Success, tx);
        SetKeeps(cfg, s1, p, Closing(job, Success, Chores(Success)));
      } else if !c.reply.Lost? && tx.err.AlreadyFinalized? {
        assert RowOk(cfg, s.db.rows[job.event], job.event in s.db.idempotency);
        assert ClosingOk(ViewOf(s1), p, job, Duplicate, Chores(Duplicate));
        SetKeeps(cfg, s1, p, Closing(job, Duplicate, Chores(Duplicate)));
      } else {
        SetKeeps(cfg, s1, p, Polling(High));
      }
    }
  }

  lemma DelaysTakeOne(base: nat, ds: seq<int>, k: nat, attempt: int, u: real)
    requires DelaysFit(base, ds, k) && 1 <= attempt <= k + 1 && 0.0 <= u < 1.0
    ensures DelaysFit(base, ds + [CalculateBackoff(attempt, base, u)], k + 1)
  {
    hide CalculateBackoff, Budget;
    var d := CalculateBackoff(attempt, base, u);
    DelayFitsBudget(attempt, k + 1, base, u);
    assert (ds + [d])[..|ds|] == ds;
    assert Sum(ds + [d]) == Sum(ds) + d;
  }

  /** Scheduling a retry right after the failure that allows it. */
  lemma ScheduleKeeps(cfg: Config, s: State, s1: State, e: EventId, attempt: int, u: real)
    requires Inv(cfg, s1) && e in s.db.rows && e in s1.db.rows && s1.hist.delays == s.hist.delays
    requires e in s.hist.delays && DelaysFit(cfg.baseDelay, s.hist.delays[e], NonFinal(s.db.rows[e]))
    requires NonFinal(s1.db.rows[e]) == NonFinal(s.db.rows[e]) + 1 && 1 <= attempt <= NonFinal(s1.db.rows[e])
    requires 0.0 <= u < 1.0
    ensures Inv(cfg, Schedule(s1, e, CalculateBackoff(attempt, cfg.baseDelay, u)))
    ensures ViewOf(Schedule(s1, e, CalculateBackoff(attempt, cfg.baseDelay, u))) == ViewOf(s1)
  {
    hide CalculateBackoff, DelaysFit, QueueInv, HandoffInv, ReportsOk, ProcInv;
    var s2 := Schedule(s1, e, CalculateBackoff(attempt, cfg.baseDelay, u));
    assert ViewOf(s2) == ViewOf(s1);
    DelaysGrowBy(cfg.baseDelay, s1.db.rows, s.hist.delays, e, NonFinal(s.db.rows[e]), attempt, u);
  }

  lemma DelaysGrowBy(base: nat, rows: Rows, delays: map<EventId, seq<int>>, e: EventId, k: int, attempt: int, u: real)
    requires delays.Keys == rows.Keys && DelaysInv(base, rows, delays) && e in rows
    requires k >= 0 && DelaysFit(base, delays[e], k) && NonFinal(rows[e]) == k + 1 && 1 <= attempt <= k + 1
    requires 0.0 <= u < 1.0
    ensures DelaysInv(base, rows, delays[e := delays[e] + [CalculateBackoff(attempt, base, u)]])
  {
    hide CalculateBackoff, DelaysFit;
    DelaysTakeOne(base, delays[e], k, attempt, u);
  }

  lemma FailureCommits(cfg: Config, s: State, p: ProcId, job: Job, now: nat)
    requires Inv(cfg, s) && ProcOk(ViewOf(s), p, Failing(job))
    ensures var tx := RecordFailureTx(s.db, job.event, cfg.maxAttempts, now);
            Inv(cfg, Commit(s, p, job.event, tx))
    ensures var tx := RecordFailureTx(s.db, job.event, cfg.maxAttempts, now);
            tx.err.Ok? ==>
              && job.event in tx.db.rows && RowStep(cfg, s.db, tx.db, job.event)
              && tx.db.rows[job.event].status in {Retrying, Failed}
              && NonFinal(tx.db.rows[job.event])
                  == NonFinal(s.db.rows[job.event]) + One(tx.db.rows[job.event].status.Retrying?)
              && tx.db.rows[job.event].attempt == s.db.rows[job.event].attempt + 1
              && NonFinal(s.db.rows[job.event]) == s.db.rows[job.event].attempt >= 0
              && ProcOk(ViewOf(Commit(s, p, job.event, tx)), Task(job.event, tx.db.rows[job.event].attempt),
                  Waiting(job.(attempt := job.attempt + 1)))
  {
    hide QueueInv, ReportsOk, ProcInv, HandoffInv, IsPath, Count, DelaysInv;
    var tx := RecordFailureTx(s.db, job.event, cfg.maxAttempts, now);
    FailureIsRowStep(cfg, s.db, job.event, now);
    CommitKeeps(cfg, s, p, job.event, tx);
  }

  /** The failure is not the last: a retry is scheduled and the worker moves on. */
  lemma RetryKeeps(cfg: Config, s: State, p: ProcId, job: Job, c: Choice)
    requires Inv(cfg, s) && ProcOk(ViewOf(s), p, Failing(job)) && 0.0 <= c.jitter < 1.0
    requires var tx := RecordFailureTx(s.db, job.event, cfg.maxAttempts, c.now);
             tx.err.Ok? && job.event in tx.db.rows && tx.db.rows[job.event].status.Retrying?
    ensures var tx := RecordFailureTx(s.db, job.event, cfg.maxAttempts, c.now);
            var again := job.(attempt := job.attempt + 1);
            var s2 := Schedule(Commit(s, p, job.event, tx), job.event,
                CalculateBackoff(again.attempt, cfg.baseDelay, c.jitter));
            Inv(cfg, Set(Set(s2, Task(job.event, tx.db.rows[job.event].attempt), Waiting(again)), p, Polling(High)))
  {
    hide QueueInv, ReportsOk, ProcInv, HandoffInv, IsPath, Count, CalculateBackoff, DelaysFit, RowStep, RecordFailureTx;
    var e, again := job.event, job.(attempt := job.attempt + 1);
    var tx := RecordFailureTx(s.db, e, cfg.maxAttempts, c.now);
    FailureCommits(cfg, s, p, job, c.now);
    assert DelaysFit(cfg.baseDelay, s.hist.delays[e], NonFinal(s.db.rows[e]));
    ScheduleKeeps(cfg, s, Commit(s, p, e, tx), e, again.attempt, c.jitter);
    var s2 := Schedule(Commit(s, p, e, tx), e, CalculateBackoff(again.attempt, cfg.baseDelay, c.jitter));
    SetKeeps(cfg, s2, Task(e, tx.db.rows[e].attempt), Waiting(again));
    SetKeeps(cfg, Set(s2, Task(e, tx.db.rows[e].attempt), Waiting(again)), p, Polling(High));
  }

  lemma FailingKeeps(cfg: Config, s: State, p: ProcId, job: Job, c: Choice)
    requires Inv(cfg, s) && ProcOk(ViewOf(s), p, Failing(job)) && 0.0 <= c.jitter < 1.0
    ensures Inv(cfg, ActFailing(cfg, s, p, job, c))
  {
    hide StoreInv, QueueInv, ReportsOk, ProcInv, HandoffInv, CalculateBackoff, RowStep, RecordFailureTx;
    if c.reply.Refused? {
      SetKeeps(cfg, s, p, Polling(High));
    } else {
      var tx := RecordFailureTx(s.db, job.event, cfg.maxAttempts, c.now);
      FailureCommits(cfg, s, p, job, c.now);
      if c.reply.Lost? || !tx.err.Ok? {
        SetKeeps(cfg, Commit(s, p, job.event, tx), p, Polling(High));
      } else if tx.db.rows[job.event].status.Failed? {
        var again := job.(attempt := job.attempt + 1);
        FinishedOwesReports(cfg, s, p, job, again, Exhausted, tx);
        SetKeeps(cfg, Commit(s, p, job.event, tx), p, Closing(again, Exhausted, Chores(Exhausted)));
      } else {
        RetryKeeps(cfg, s, p, job, c);
      }
    }
  }

  // ---- Chores ----

  /** Adding a report by the process that owes it. */
  lemma ReportAdded(rows: Rows, rs: seq<Report>, r: Report)
    requires ReportsOk(rows, rs) && ReportOk(rows, r) && !Reported(rs, r.event)
    ensures ReportsOk(rows, rs + [r])
    ensures forall e | Reported(rs + [r], e) :: e == r.event || Reported(rs, e)
  {
    forall i | 0 <= i < |rs + [r]| ensures ReportOk(rows, (rs + [r])[i]) {
      assert i < |rs| ==> ReportOk(rows, rs[i]);
    }
  }

  /** Only the process that wrote a row's terminal status may report it, so nobody else's debt is touched. */
  lemma OthersUndisturbed(s: State, s': State, p: ProcId, e: EventId)
    requires ProcInv(ViewOf(s), s.procs) && p in s.procs && s.procs[p] == Gone
    requires e in s.db.rows && FinishedBy(s.hist.commits, e, p)
    requires s'.hist.found == s.hist.found
    requires forall x | Reported(s'.hist.counted, x) :: x == e || Reported(s.hist.counted, x)
    requires forall x | Reported(s'.hist.announced, x) :: x == e || Reported(s.hist.announced, x)
    ensures forall q | q in s.procs :: Undisturbed(ViewOf(s'), s.procs[q])
  {
    hide Reported, FinishedBy, ProcOk, Undisturbed;
    forall q | q in s.procs ensures Undisturbed(ViewOf(s'), s.procs[q]) {
      OtherUndisturbed(ViewOf(s), ViewOf(s'), p, e, q, s.procs[q]);
    }
  }

  lemma OtherUndisturbed(v: View, v': View, p: ProcId, e: EventId, q: ProcId, pc: Proc)
    requires ProcOk(v, q, pc) && (q == p ==> pc == Gone) && FinishedBy(v.commits, e, p) && v'.found == v.found
    requires forall x | Reported(v'.counted, x) :: x == e || Reported(v.counted, x)
    requires forall x | Reported(v'.announced, x) :: x == e || Reported(v.announced, x)
    ensures Undisturbed(v', pc)
  {
    hide Reported, JobOk;
  }

  lemma ChoresShrink(verdict: Verdict, chores: seq<Chore>)
    requires 0 < |chores| <= |Chores(verdict)| && chores == Chores(verdict)[|Chores(verdict)| - |chores|..]
    ensures chores[1..] == Chores(verdict)[|Chores(verdict)| - |chores[1..]|..]
    ensures chores[0] !in chores[1..]
    ensures forall x | x in chores[1..] :: x in chores
    ensures !chores[0].AckMessage? ==> verdict.Success? || verdict.Exhausted?
  {
  }

  /** What is left to do after a chore, when it made no report that is still owed. */
  lemma DebtShrinks(v: View, v': View, p: ProcId, job: Job, verdict: Verdict, chores: seq<Chore>)
    requires ProcOk(v, p, Closing(job, verdict, chores)) && |chores| > 1
    requires v' == v.(counted := v'.counted, announced := v'.announced)
    requires v'.counted == v.counted || CountOutcome !in chores[1..]
    requires v'.announced == v.announced || Announce !in chores[1..]
    ensures ProcOk(v', p, Closing(job, verdict, chores[1..]))
  {
    hide Reported, FinishedBy;
    ChoresShrink(verdict, chores);
  }

  /** The outcome a worker owes a report of is its row's, and nobody has reported it. */
  lemma OwedReport(v: View, p: ProcId, job: Job, verdict: Verdict, chores: seq<Chore>)
    requires ProcOk(v, p, Closing(job, verdict, chores)) && !chores[0].AckMessage?
    ensures job.event in v.rows && FinishedBy(v.commits, job.event, p)
    ensures ReportOk(v.rows, Report(job.event, verdict))
    ensures !Reported(if chores[0].CountOutcome? then v.counted else v.announced, job.event)
    ensures chores[0] !in chores[1..]
  {
    hide Reported, FinishedBy;
    ChoresShrink(verdict, chores);
  }

  lemma CountKeeps(cfg: Config, s: State, p: ProcId, job: Job, verdict: Verdict, chores: seq<Chore>)
    requires chores != [] && chores[0].CountOutcome?
    requires Inv(cfg, s) && p in s.procs && s.procs[p] == Gone
    requires ProcOk(ViewOf(s), p, Closing(job, verdict, chores))
    ensures var s' := s.(hist := s.hist.(counted := s.hist.counted + [Report(job.event, verdict)]));
            Inv(cfg, s') && (|chores| > 1 ==> ProcOk(ViewOf(s'), p, Closing(job, verdict, chores[1..])))
  {
    hide StoreInv, QueueInv, HandoffInv, ProcOk, Reported, ReportOk, Undisturbed, FinishedBy, ReportsOk;
    var s' := s.(hist := s.hist.(counted := s.hist.counted + [Report(job.event, verdict)]));
    OwedReport(ViewOf(s), p, job, verdict, chores);
    if |chores| > 1 {
      DebtShrinks(ViewOf(s), ViewOf(s'), p, job, verdict, chores);
    }
    ReportAdded(s.db.rows, s.hist.counted, Report(job.event, verdict));
    OthersUndisturbed(s, s', p, job.event);
    ProcsEvolve(s, s');
  }

  lemma AnnounceKeeps(cfg: Config, s: State, p: ProcId, job: Job, verdict: Verdict, chores: seq<Chore>)
    requires chores != [] && chores[0].Announce?
    requires Inv(cfg, s) && p in s.procs && s.procs[p] == Gone
    requires ProcOk(ViewOf(s), p, Closing(job, verdict, chores))
    ensures var s' := s.(hist := s.hist.(announced := s.hist.announced + [Report(job.event, verdict)]));
            Inv(cfg, s') && (|chores| > 1 ==> ProcOk(ViewOf(s'), p, Closing(job, verdict, chores[1..])))
  {
    hide StoreInv, QueueInv, HandoffInv, ProcOk, Reported, ReportOk, Undisturbed, FinishedBy, ReportsOk;
    var s' := s.(hist := s.hist.(announced := s.hist.announced + [Report(job.event, verdict)]));
    OwedReport(ViewOf(s), p, job, verdict, chores);
    if |chores| > 1 {
      DebtShrinks(ViewOf(s), ViewOf(s'), p, job, verdict, chores);
    }
    ReportAdded(s.db.rows, s.hist.announced, Report(job.event, verdict));
    OthersUndisturbed(s, s', p, job.event);
    ProcsEvolve(s, s');
  }

  lemma AckChoreKeeps(cfg: Config, s: State, p: ProcId, job: Job, verdict: Verdict, chores: seq<Chore>, refused: bool)
    requires Inv(cfg, s) && ProcOk(ViewOf(s), p, Closing(job, verdict, chores))
    ensures var s1 := if refused then s else Ack(s, job.receipt);
            Inv(cfg, s1) && (|chores| > 1 ==> ProcOk(ViewOf(s1), p, Closing(job, verdict, chores[1..])))
  {
    hide StoreInv, QueueInv, HandoffInv, ReportsOk, ProcInv, Reported;
    AckKeeps(cfg, s, job.receipt);
    assert ViewOf(Ack(s, job.receipt)) == ViewOf(s);
    if |chores| > 1 {
      DebtShrinks(ViewOf(s), ViewOf(s), p, job, verdict, chores);
    }
  }

  lemma CloserIsAWorker(v: View, p: ProcId, job: Job, verdict: Verdict, chores: seq<Chore>)
    requires ProcOk(v, p, Closing(job, verdict, chores))
    ensures chores != [] && p.Worker? && ProcOk(v, p, Polling(High)) && ProcIdOk(v.rows, p)
    ensures forall v' :: ProcOk(v', p, Polling(High))
  {
  }

  lemma ClosingKeeps(cfg: Config, s: State, p: ProcId, job: Job, verdict: Verdict, chores: seq<Chore>, c: Choice)
    requires Inv(cfg, s) && p in s.procs && s.procs[p] == Gone
    requires ProcOk(ViewOf(s), p, Closing(job, verdict, chores))
    ensures Inv(cfg, ActClosing(s, p, job, verdict, chores, c))
  {
    hide Inv, ProcOk;
    CloserIsAWorker(ViewOf(s), p, job, verdict, chores);
    var s1 := match chores[0]
              case AckMessage => if c.reply.Refused? then s else Ack(s, job.receipt)
              case CountOutcome => s.(hist := s.hist.(counted := s.hist.counted + [Report(job.event, verdict)]))
              case Announce => s.(hist := s.hist.(announced := s.hist.announced + [Report(job.event, verdict)]));
    match chores[0] {
      case AckMessage => AckChoreKeeps(cfg, s, p, job, verdict, chores, c.reply.Refused?);
      case CountOutcome => CountKeeps(cfg, s, p, job, verdict, chores);
      case Announce => AnnounceKeeps(cfg, s, p, job, verdict, chores);
    }
    if |chores| == 1 {
      SetKeeps(cfg, s1, p, Polling(High));
    } else {
      SetKeeps(cfg, s1, p, Closing(job, verdict, chores[1..]));
    }
  }

  // ---- Handlers, pollers and retries ----

  lemma PublishingKeeps(cfg: Config, s: State, p: ProcId, e: EventId, priority: int, c: Choice)
    requires Inv(cfg, s) && ProcIdOk(s.db.rows, p) && ProcOk(ViewOf(s), p, Publishing(e, priority))
    ensures Inv(cfg, ActPublishing(s, p, e, priority, c))
  {
    hide CoreInv, HandoffInv;
    if !c.reply.Refused? {
      AddKeeps(cfg, s, Message(e, priority, 0));
      if !c.reply.Lost? {
        SetKeeps(cfg, Add(s, Message(e, priority, 0)), p, Enqueuing(e, |s.broker.log|));
      }
    }
  }

  lemma RowsOk(cfg: Config, s: State)
    requires Inv(cfg, s)
    ensures forall e | e in s.db.rows :: RowOk(cfg, s.db.rows[e], e in s.db.idempotency)
  {
  }

  lemma EnqueuingKeeps(cfg: Config, s: State, p: ProcId, e: EventId, receipt: nat, c: Choice)
    requires Inv(cfg, s) && ProcOk(ViewOf(s), p, Enqueuing(e, receipt))
    ensures Inv(cfg, ActEnqueuing(s, p, e, receipt, c))
  {
    hide CoreInv, HandoffInv, RowStep;
    if !c.reply.Refused? {
      RowsOk(cfg, s);
      EnqueueIsRowStep(cfg, s.db, e, Received, c.now);
      HandoffKeeps(cfg, s, p, e, receipt, UpdateStatusTx(s.db, e, Received, Queued, c.now));
    }
  }

  lemma LogMessagesOk(cfg: Config, s: State)
    requires Inv(cfg, s)
    ensures s.broker.Valid() && forall i | 0 <= i < |s.broker.log| :: MessageOk(s.db.rows, s.broker.log[i])
  {
  }

  lemma PollingKeeps(cfg: Config, s: State, p: ProcId, stream: Stream, c: Choice)
    requires Inv(cfg, s) && ProcOk(ViewOf(s), p, Polling(stream))
    ensures Inv(cfg, ActPolling(s, p, stream, c))
  {
    hide CoreInv, HandoffInv;
    if c.reply.Refused? {
      SetKeeps(cfg, s, p, Polling(High));
    } else {
      var i, s1 := s.broker.Next(stream), Deliver(s, p, stream);
      LogMessagesOk(cfg, s);
      DeliverKeeps(cfg, s, p, stream);
      if c.reply.Lost? {
        SetKeeps(cfg, s1, p, Polling(High));
      } else if i == |s.broker.log| {
        SetKeeps(cfg, s1, p, Polling(Following(stream)));
      } else {
        SetKeeps(cfg, s1, p, Claiming(JobOf(i, s.broker.log[i])));
      }
    }
  }

  lemma WaitingKeeps(cfg: Config, s: State, p: ProcId, job: Job, c: Choice)
    requires Inv(cfg, s) && ProcIdOk(s.db.rows, p) && ProcOk(ViewOf(s), p, Waiting(job))
    ensures Inv(cfg, ActWaiting(s, p, job, c))
  {
    hide CoreInv, HandoffInv;
    if c.flag && !c.reply.Refused? {
      var s1 := Add(s, MessageOf(job));
      AddKeeps(cfg, s, MessageOf(job));
      if !c.reply.Lost? {
        assert LaterCopy(s1.broker.log, job.receipt, |s.broker.log|);
        SetKeeps(cfg, s1, p, Releasing(job, |s.broker.log|));
      }
    }
  }

  lemma ReleasingKeeps(cfg: Config, s: State, p: ProcId, job: Job, receipt: nat, c: Choice)
    requires Inv(cfg, s) && ProcIdOk(s.db.rows, p) && ProcOk(ViewOf(s), p, Releasing(job, receipt))
    ensures Inv(cfg, ActReleasing(s, p, job, receipt, c))
  {
    hide CoreInv, HandoffInv;
    if !c.reply.Refused? {
      assert Justified(s.db.rows, s.broker.log, s.hist.found, job.receipt);
      AckKeeps(cfg, s, job.receipt);
      assert ViewOf(Ack(s, job.receipt)) == ViewOf(s);
      if !c.reply.Lost? {
        SetKeeps(cfg, Ack(s, job.receipt), p, Requeuing(job, receipt));
      }
    }
  }

  lemma RequeuingKeeps(cfg: Config, s: State, p: ProcId, job: Job, receipt: nat, c: Choice)
    requires Inv(cfg, s) && ProcOk(ViewOf(s), p, Requeuing(job, receipt))
    ensures Inv(cfg, ActRequeuing(s, p, job, receipt, c))
  {
    hide CoreInv, HandoffInv, RowStep;
    if !c.reply.Refused? {
      RowsOk(cfg, s);
      EnqueueIsRowStep(cfg, s.db, job.event, Retrying, c.now);
      HandoffKeeps(cfg, s, p, job.event, receipt, UpdateStatusTx(s.db, job.event, Retrying, Queued, c.now));
    }
  }

  // ---- Sweeps ----

  lemma TodoEvolves(v: View, v': View, todo: seq<Stale>)
    requires TodoOk(v.rows, todo) && RowsGrow(v.rows, v'.rows)
    ensures TodoOk(v'.rows, todo)
  {
  }

  lemma SweepingKeeps(cfg: Config, s: State, p: ProcId, status: Status, todo: seq<Stale>, dead: map<Uuid, bool>,
      since: nat, c: Choice)
    requires Inv(cfg, s) && ProcOk(ViewOf(s), p, Sweeping(status, todo, dead, since))
    ensures Inv(cfg, ActSweeping(s, p, status, todo, dead, since, c))
  {
    hide CoreInv, HandoffInv;
    if todo != [] {
      var x := todo[0];
      var skipped := Sweeping(status, todo[1..], dead, since);
      match NextSweepStep(status, x.row, dead) {
        case Skip => SetKeeps(cfg, s, p, skipped);
        case Probe(u) =>
          if c.reply.Delivered? {
            SetKeeps(cfg, s, p, Sweeping(status, todo, dead[u := !c.flag], since));
          } else {
            SetKeeps(cfg, s, p, skipped);
          }
        case Republish =>
          var m := Message(x.id, x.row.priority, x.row.attempt);
          AddKeeps(cfg, s, m);
          TodoEvolves(ViewOf(s), ViewOf(Add(s, m)), todo);
          if c.reply.Refused? {
            SetKeeps(cfg, s, p, skipped);
          } else if c.reply.Lost? {
            SetKeeps(cfg, Add(s, m), p, skipped);
          } else {
            SetKeeps(cfg, Add(s, m), p, Resetting(status, todo, dead, since, |s.broker.log|));
          }
      }
    }
  }

  lemma ResettingKeeps(cfg: Config, s: State, p: ProcId, status: Status, todo: seq<Stale>, dead: map<Uuid, bool>,
      since: nat, receipt: nat, c: Choice)
    requires todo != []
    requires Inv(cfg, s) && ProcOk(ViewOf(s), p, Resetting(status, todo, dead, since, receipt))
    ensures Inv(cfg, ActResetting(s, p, status, todo, dead, since, receipt, c))
  {
    hide StoreInv, QueueInv, ReportsOk, ProcInv, HandoffInv;
    var e := todo[0].id;
    var tx := AssignTx(s.db, e, None, status, Queued, c.now);
    assert MessageOk(s.db.rows, Message(e, todo[0].row.priority, todo[0].row.attempt));
    if c.reply.Refused? || !tx.err.Ok? {
      SetKeeps(cfg, s, p, Sweeping(status, todo[1..], dead, since));
    } else {
      RowsOk(cfg, s);
      ResetIsRowStep(cfg, s.db, e, status, c.now);
      HandoffKeeps(cfg, s, p, e, receipt, tx);
      var s1 := Handoff(s, p, e, receipt, tx);
      RowStepGrows(cfg, s.db, tx.db, e);
      TodoEvolves(ViewOf(s), ViewOf(s1), todo);
      SetKeeps(cfg, s1, p, Sweeping(status, todo[1..], dead, since));
    }
  }

  lemma RowStepGrows(cfg: Config, db: Db, db': Db, e: EventId)
    requires RowStep(cfg, db, db', e)
    ensures RowsGrow(db.rows, db'.rows)
  {
  }

  // ---- Moves ----

  lemma ResumeKeeps(cfg: Config, s: State, p: ProcId, pc: Proc, c: Choice)
    requires Inv(cfg, s) && p in s.procs && s.procs[p] == Gone && 0.0 <= c.jitter < 1.0
    requires ProcIdOk(s.db.rows, p) && ProcOk(ViewOf(s), p, pc)
    ensures Inv(cfg, Resume(cfg, s, p, pc, c))
  {
    hide Inv;
    match pc {
      case Gone =>
      case Publishing(e, priority) => PublishingKeeps(cfg, s, p, e, priority, c);
      case Enqueuing(e, receipt) => EnqueuingKeeps(cfg, s, p, e, receipt, c);
      case Polling(stream) => PollingKeeps(cfg, s, p, stream, c);
      case Claiming(job) => ClaimingKeeps(cfg, s, p, job, c);
      case Running(job) => SetKeeps(cfg, s, p, if c.flag then Finalizing(job) else Failing(job));
      case Finalizing(job) => FinalizingKeeps(cfg, s, p, job, c);
      case Failing(job) => FailingKeeps(cfg, s, p, job, c);
      case Closing(job, verdict, chores) => ClosingKeeps(cfg, s, p, job, verdict, chores, c);
      case Waiting(job) => WaitingKeeps(cfg, s, p, job, c);
      case Releasing(job, receipt) => ReleasingKeeps(cfg, s, p, job, receipt, c);
      case Requeuing(job, receipt) => RequeuingKeeps(cfg, s, p, job, receipt, c);
      case Sweeping(status, todo, dead, since) => SweepingKeeps(cfg, s, p, status, todo, dead, since, c);
      case Resetting(status, todo, dead, since, receipt) =>
        ResettingKeeps(cfg, s, p, status, todo, dead, since, receipt, c);
    }
  }

  lemma AcceptKeepsStore(cfg: Config, db: Db, commits: Commits, delays: map<EventId, seq<int>>, e: EventId,
      priority: int, now: nat)
    requires StoreInv(cfg, db, commits, delays) && e !in db.rows
    ensures StoreInv(cfg, CreateTx(db, e, NewRow(priority, now)).db, commits[e := []], delays[e := []])
  {
    hide DelaysFit, IsPath, Count;
    var row := NewRow(priority, now);
    NothingOwed(cfg.baseDelay, row);
  }

  lemma NothingOwed(base: nat, row: Row)
    requires row.status.Received? && row.attempt == 0
    ensures DelaysFit(base, [], NonFinal(row)) && TrailOk(row, [])
  {
    assert Budget(base, 0) == 0;
  }

  lemma AcceptKeeps(cfg: Config, s: State, e: EventId, priority: int, reply: Reply, now: nat)
    requires Inv(cfg, s) && e !in s.db.rows
    ensures Inv(cfg, Accept(s, e, priority, reply, now))
  {
    hide StoreInv, QueueInv, ReportsOk, DelaysFit;
    if !reply.Refused? {
      var tx := CreateTx(s.db, e, NewRow(priority, now));
      var s1 := s.(db := tx.db, hist := s.hist.(commits := s.hist.commits[e := []], delays := s.hist.delays[e := []]));
      AcceptKeepsStore(cfg, s.db, s.hist.commits, s.hist.delays, e, priority, now);
      QueueGrows(s.broker, s.db.rows, tx.db.rows, s.hist.found, s.hist.taker);
      ReportsGrow(s.db.rows, tx.db.rows, s.hist.counted);
      ReportsGrow(s.db.rows, tx.db.rows, s.hist.announced);
      StillUndisturbed(s, s1);
      ProcsEvolve(s, s1);
      assert HandoffOk(s.broker.log, s.hist.found, s.hist.handoff, s.hist.early, e, Received);
      SetKeeps(cfg, s1, Handler(e), Publishing(e, priority));
    }
  }

  lemma PerformKeeps(cfg: Config, s: State, m: Move)
    requires Inv(cfg, s) && Enabled(s, m)
    ensures Inv(cfg, Perform(cfg, s, m))
  {
    hide StoreInv, QueueInv, ReportsOk, HandoffInv;
    match m {
      case Submit(e, priority, reply, now) => AcceptKeeps(cfg, s, e, priority, reply, now);
      case Boot(name) => SetKeeps(cfg, s, Worker(name), Polling(High));
      case Snapshot(run, status, cutoff, todo) =>
        SnapshotOk(cfg, s, status, cutoff, todo);
        SetKeeps(cfg, s, Sweeper(run), Sweeping(status, todo, map[], s.hist.clock));
      case Halt(p) => SetKeeps(cfg, s, p, Gone);
      case Act(p, c) =>
        assert ProcIdOk(s.db.rows, p) && ProcOk(ViewOf(s), p, s.procs[p]);
        SetKeeps(cfg, s, p, Gone);
        assert ViewOf(Set(s, p, Gone)) == ViewOf(s);
        ResumeKeeps(cfg, Set(s, p, Gone), p, s.procs[p], c);
    }
  }

  lemma SnapshotOk(cfg: Config, s: State, status: Status, cutoff: nat, todo: seq<Stale>)
    requires Inv(cfg, s) && IsSnapshot(s.db, status, cutoff, todo)
    ensures TodoOk(s.db.rows, todo)
  {
    forall i | 0 <= i < |todo|
      ensures MessageOk(s.db.rows, Message(todo[i].id, todo[i].row.priority, todo[i].row.attempt))
    {
      assert RowOk(cfg, s.db.rows[todo[i].id], todo[i].id in s.db.idempotency);
    }
  }

  lemma NextKeeps(cfg: Config, s: State, m: Move)
    requires Inv(cfg, s) && Enabled(s, m)
    ensures Inv(cfg, Next(cfg, s, m))
  {
    hide StoreInv, QueueInv, ReportsOk, HandoffInv, ProcInv, Perform;
    PerformKeeps(cfg, s, m);
    assert ViewOf(Next(cfg, s, m)) == ViewOf(Perform(cfg, s, m));
  }

  /** The invariant holds after every run. */
  lemma {:induction false} RunsKeepInv(cfg: Config, moves: seq<Move>)
    requires Legal(cfg, moves)
    ensures Inv(cfg, After(cfg, moves))
  {
    if moves != [] {
      RunsKeepInv(cfg, moves[..|moves| - 1]);
      NextKeeps(cfg, After(cfg, moves[..|moves| - 1]), moves[|moves| - 1]);
    }
  }
}
