/**
 Which events can still be completed, exactly. An event that has not stopped may be doomed all the same: RECEIVED with
 its handler about to queue it when every copy is spent, or PROCESSING without an owner when the only worker left on
 it is about to record its last failure or the only sweep left is about to queue it with a spent copy.
 */
module Completion {
  import opened Events
  import opened Trails
  import opened EventStore
  import opened Streams
  import opened Backoff
  import opened Protocol
  import opened ProtocolInvariant
  import opened ProtocolSteps
  import opened ProtocolTheorems
  import opened Exclusive
  import opened Continuations
  import opened Stopped

  /** Once the event is QUEUED nobody can claim it. */
  ghost predicate Spent(s: State, e: EventId) {
    AllDelivered(s.broker, e) && NobodyClaims(s, e) && NobodyPublishes(s, e)
  }

  /** The processor has failed, and that is not recorded yet. */
  predicate IsFailing(pc: Proc, e: EventId) {
    pc.Failing? && pc.job.event == e
  }

  /** A sweep has published its copy of PROCESSING event `e` and is about to queue the row. */
  predicate IsAtReset(pc: Proc, e: EventId) {
    pc.Resetting? && pc.status.Processing? && pc.todo != [] && pc.todo[0].id == e
  }

  /** The process can turn PROCESSING event `e`, which has no owner, towards completion. */
  ghost predicate Helps(cfg: Config, s: State, pc: Proc, e: EventId)
    requires e in s.db.rows
  {
    || IsAtWork(pc, e)
    || MayRepublish(pc, Processing, e)
    || (IsAtReset(pc, e) && !Spent(s, e))
    || (IsFailing(pc, e) && s.db.rows[e].attempt + 1 < cfg.maxAttempts)
  }

  ghost predicate NobodyHelps(cfg: Config, s: State, e: EventId)
    requires e in s.db.rows
  {
    forall q | q in s.procs :: !Helps(cfg, s, s.procs[q], e)
  }

  ghost predicate Doomed(cfg: Config, s: State, e: EventId)
    requires e in s.db.rows
  {
    match s.db.rows[e].status
    case Received => !Active(s, Handler(e)) || Spent(s, e)
    case Queued => Spent(s, e)
    case Processing => s.db.rows[e].worker.None? && NobodyHelps(cfg, s, e)
    case Retrying => false
    case Completed => false
    case Failed => true
  }

  // ---- What is doomed stays doomed ----

  lemma SpentStays(cfg: Config, s: State, p: ProcId, c: Choice, e: EventId)
    requires Inv(cfg, s) && Enabled(s, Act(p, c)) && Inv(cfg, Next(cfg, s, Act(p, c))) && Spent(s, e)
    requires IsFailing(s.procs[p], e) ==> NoRetryLeft(cfg, s.db.rows, e)
    ensures Spent(Next(cfg, s, Act(p, c)), e)
  {
    hide Resume, ProcInv, Inv, MayPublish, IsClaimant, AllDelivered, NobodyClaims, NobodyPublishes, NobodyHolds,
      NobodyResets;
    var parked, pc, s' := Set(s, p, Gone), s.procs[p], Next(cfg, s, Act(p, c));
    FactsOf(cfg, s);
    FactsOf(cfg, s');
    ParkedSpent(s, p, e);
    NoNewPublisher(cfg, parked, p, pc, c, e);
    NoNewCopy(cfg, parked, p, pc, c, e);
    TickKeeps(Resume(cfg, parked, p, pc, c), Act(p, c), e);
    NoNewClaimant(cfg, s, p, c, e);
  }

  lemma ParkedSpent(s: State, p: ProcId, e: EventId)
    requires p in s.procs && Spent(s, e)
    ensures NobodyPublishes(Set(s, p, Gone), e) && !MayPublish(s.procs[p], e)
  {
  }

  /** A worker comes to be at work on an event only by claiming it. */
  lemma HowToBeAtWork(cfg: Config, s: State, p: ProcId, pc: Proc, c: Choice, e: EventId)
    requires p in s.procs && s.procs[p] == Gone && s.hist.commits.Keys == s.db.rows.Keys && IsWorkerCounter(pc)
    requires e in s.db.rows && !s.db.rows[e].status.Queued? && !IsAtWork(pc, e)
    ensures var pc' := Resume(cfg, s, p, pc, c).procs[p];
            !IsAtWork(pc', e) && !(IsFailing(pc', e) && !IsFailing(pc, e))
  {
    hide CalculateBackoff, RecordFailureTx, FinalizeTx;
    match pc {
      case Polling(_) =>
      case Claiming(job) =>
      case Running(job) =>
      case Finalizing(job) =>
      case Failing(job) =>
      case Closing(_, _, _) =>
    }
  }

  lemma RepublishersAdvance(pc: Proc, c: Choice, pc': Proc, e: EventId)
    requires (pc.Sweeping? || pc.Resetting?) && SweepAdvances(pc, c, pc') && !MayRepublish(pc, Processing, e)
    ensures !MayRepublish(pc', Processing, e) && (IsAtReset(pc', e) ==> IsAtReset(pc, e))
  {
    if pc'.Resetting? {
      assert pc'.todo[0].id == e ==> Lists(pc.status, pc.todo, pc.dead, e);
    }
    SweepListsLess(pc, c, pc', e);
  }

  /** What a process that helps nobody's way to `e` may still be about to do. */
  predicate HelpsLess(pc: Proc, pc': Proc, e: EventId) {
    && !IsAtWork(pc', e) && !MayRepublish(pc', Processing, e)
    && (IsAtReset(pc', e) ==> IsAtReset(pc, e))
    && (IsFailing(pc', e) ==> IsFailing(pc, e))
  }

  lemma ActorHelpsLess(cfg: Config, s: State, p: ProcId, c: Choice, e: EventId)
    requires ProcInv(ViewOf(s), s.procs) && s.hist.commits.Keys == s.db.rows.Keys && Enabled(s, Act(p, c))
    requires var s' := Resume(cfg, Set(s, p, Gone), p, s.procs[p], c); ProcInv(ViewOf(s'), s'.procs) && p in s'.procs
    requires e in s.db.rows && s.db.rows[e].status.Processing?
    requires !IsAtWork(s.procs[p], e) && !MayRepublish(s.procs[p], Processing, e)
    ensures HelpsLess(s.procs[p], Resume(cfg, Set(s, p, Gone), p, s.procs[p], c).procs[p], e)
  {
    hide Resume, ProcInv, SweepAdvances, MayRepublish;
    var parked, pc := Set(s, p, Gone), s.procs[p];
    var s' := Resume(cfg, parked, p, pc, c);
    WhatHelpersAre(s, p, e);
    WhatHelpersAre(s', p, e);
    if p.Worker? {
      CounterOfWorker(s, p);
      HowToBeAtWork(cfg, parked, p, pc, c, e);
    } else if pc.Sweeping? || pc.Resetting? {
      SweeperAdvances(cfg, parked, p, pc, c);
      RepublishersAdvance(pc, c, s'.procs[p], e);
    } else {
      NewSweepsNeedASnapshot(cfg, s, p, c);
    }
  }

  lemma WhatHelpersAre(s: State, q: ProcId, e: EventId)
    requires ProcInv(ViewOf(s), s.procs) && q in s.procs
    ensures IsAtWork(s.procs[q], e) || IsFailing(s.procs[q], e) ==> q.Worker?
    ensures MayRepublish(s.procs[q], Processing, e) || IsAtReset(s.procs[q], e) ==>
              q.Sweeper? && (s.procs[q].Sweeping? || s.procs[q].Resetting?)
  {
    hide Lists;
    assert ProcOk(ViewOf(s), q, s.procs[q]);
  }

  /** Whoever helps after a step helped before it, unless the step was the help. */
  lemma HelpersAfter(cfg: Config, s: State, p: ProcId, c: Choice, q: ProcId, e: EventId)
    requires Inv(cfg, s) && Enabled(s, Act(p, c)) && Inv(cfg, Next(cfg, s, Act(p, c)))
    requires e in s.db.rows && s.db.rows[e].status.Processing? && NobodyHelps(cfg, s, e)
    requires var s' := Next(cfg, s, Act(p, c));
             q in s'.procs && e in s'.db.rows && s'.db.rows[e] == s.db.rows[e] && (Spent(s, e) ==> Spent(s', e))
    ensures !Helps(cfg, Next(cfg, s, Act(p, c)), Next(cfg, s, Act(p, c)).procs[q], e)
  {
    hide Resume, ProcInv, Inv, MayRepublish, Spent, IsAtWork, IsFailing, IsAtReset;
    var parked, s' := Set(s, p, Gone), Next(cfg, s, Act(p, c));
    FactsOf(cfg, s);
    FactsOf(cfg, s');
    OnlyTheActorMoves(cfg, parked, p, s.procs[p], c);
    WhatHelpersAre(s', q, e);
    assert !Helps(cfg, s, s.procs[p], e);
    if q == p {
      TickKeeps(Resume(cfg, parked, p, s.procs[p], c), Act(p, c), e);
      ActorHelpsLess(cfg, s, p, c, e);
    } else if !q.Task? {
      assert q in parked.procs && !Helps(cfg, s, s.procs[q], e);
    }
  }

  lemma LastFailureFails(cfg: Config, s: State, p: ProcId, job: Job, c: Choice)
    requires job.event in s.db.rows && s.db.rows[job.event].status.Processing?
    requires s.db.rows[job.event].attempt + 1 >= cfg.maxAttempts
    ensures var rows' := ActFailing(cfg, s, p, job, c).db.rows;
            job.event in rows' && (rows'[job.event] == s.db.rows[job.event] || rows'[job.event].status.Failed?)
  {
    hide CalculateBackoff;
  }

  lemma ProcessingStaysDoomed(cfg: Config, s: State, p: ProcId, c: Choice, e: EventId)
    requires Inv(cfg, s) && Enabled(s, Act(p, c)) && Inv(cfg, Next(cfg, s, Act(p, c)))
    requires e in s.db.rows && s.db.rows[e].status.Processing? && Doomed(cfg, s, e)
    ensures e in Next(cfg, s, Act(p, c)).db.rows && Doomed(cfg, Next(cfg, s, Act(p, c)), e)
  {
    hide Resume, Inv, Spent, MayRepublish;
    var parked, pc, s' := Set(s, p, Gone), s.procs[p], Next(cfg, s, Act(p, c));
    WhoChangesARow(cfg, parked, p, pc, c);
    assert !Helps(cfg, s, pc, e);
    if Spent(s, e) {
      SpentStays(cfg, s, p, c, e);
    }
    if s'.db.rows[e] == s.db.rows[e] {
      forall q | q in s'.procs ensures !Helps(cfg, s', s'.procs[q], e) {
        HelpersAfter(cfg, s, p, c, q, e);
      }
    } else if pc.Failing? {
      FailingResumes(cfg, parked, p, pc.job, c);
      LastFailureFails(cfg, parked, p, pc.job, c);
    } else {
      ResetQueues(cfg, parked, p, pc, c, e);
    }
  }

  lemma FailingResumes(cfg: Config, s: State, p: ProcId, job: Job, c: Choice)
    ensures Resume(cfg, s, p, Failing(job), c) == ActFailing(cfg, s, p, job, c)
  {
  }

  lemma ReceivedStaysDoomed(cfg: Config, s: State, p: ProcId, c: Choice, e: EventId)
    requires Inv(cfg, s) && Enabled(s, Act(p, c)) && Inv(cfg, Next(cfg, s, Act(p, c)))
    requires e in s.db.rows && s.db.rows[e].status.Received? && Active(s, Handler(e)) && Spent(s, e)
    ensures e in Next(cfg, s, Act(p, c)).db.rows && Doomed(cfg, Next(cfg, s, Act(p, c)), e)
  {
    hide Next, Inv, Spent, RowMoves;
    FactsOf(cfg, s);
    SpentStays(cfg, s, p, c, e);
    NextMoves(cfg, s, Act(p, c), e);
    ReceivedMovesOn(s, Next(cfg, s, Act(p, c)), e);
  }

  lemma ReceivedMovesOn(s: State, s': State, e: EventId)
    requires StateMoves(s, s', e) && s.db.rows[e].status.Received?
    ensures e in s'.db.rows && (s'.db.rows[e].status.Received? || s'.db.rows[e].status.Queued?)
  {
  }

  lemma StoppedIsDoomed(cfg: Config, s: State, e: EventId)
    requires e in s.db.rows && !s.db.rows[e].status.Completed?
    ensures HasStopped(s, e) ==> Doomed(cfg, s, e)
    ensures Doomed(cfg, s, e) && !s.db.rows[e].status.Processing? && !s.db.rows[e].status.Received? ==> HasStopped(s, e)
    ensures s.db.rows[e].status.Received? && !Active(s, Handler(e)) ==> HasStopped(s, e)
  {
    hide Lists, IsAtWork, AllDelivered, NobodyClaims, NobodyPublishes;
    if s.db.rows[e].status.Processing? && Abandoned(s, e) {
      forall q | q in s.procs ensures !Helps(cfg, s, s.procs[q], e) {
        AbandonedByAll(cfg, s, q, e);
      }
    }
  }

  lemma AbandonedByAll(cfg: Config, s: State, q: ProcId, e: EventId)
    requires Abandoned(s, e) && q in s.procs
    ensures !Helps(cfg, s, s.procs[q], e)
  {
    hide Lists;
    assert !Holds(s.procs[q], e) && !MayReset(s.procs[q], e);
  }

  lemma ActKeepsDoomed(cfg: Config, s: State, p: ProcId, c: Choice, e: EventId)
    requires Inv(cfg, s) && Enabled(s, Act(p, c)) && Inv(cfg, Next(cfg, s, Act(p, c)))
    requires e in s.db.rows && Doomed(cfg, s, e)
    ensures e in Next(cfg, s, Act(p, c)).db.rows && Doomed(cfg, Next(cfg, s, Act(p, c)), e)
  {
    hide Next, Enabled, Inv, NobodyHelps, Spent, HasStopped;
    StoppedIsDoomed(cfg, s, e);
    if HasStopped(s, e) {
      ActKeepsStopped(cfg, s, p, c, e);
      StoppedRowsExist(Next(cfg, s, Act(p, c)), e);
      StoppedIsDoomed(cfg, Next(cfg, s, Act(p, c)), e);
    } else if s.db.rows[e].status.Processing? {
      ProcessingStaysDoomed(cfg, s, p, c, e);
    } else {
      ReceivedStaysDoomed(cfg, s, p, c, e);
    }
  }

  /** A new process neither helps nor supplies the event. */
  lemma NewcomersDoNothing(cfg: Config, s: State, m: Move, q: ProcId, e: EventId)
    requires Enabled(s, m) && !m.Act? && e in s.db.rows && Doomed(cfg, s, e)
    requires q in Next(cfg, s, m).procs && !(q in s.procs && Next(cfg, s, m).procs[q] == s.procs[q])
    ensures var pc := Next(cfg, s, m).procs[q];
            && !IsClaimant(pc, e) && !IsAtWork(pc, e) && !IsAtReset(pc, e) && !IsFailing(pc, e)
            && (!s.db.rows[e].status.Failed? ==> !MayPublish(pc, e) && !MayRepublish(pc, Processing, e))
  {
    hide Lists, IsSnapshot, Helps, Spent;
    match m
    case Submit(_, _, _, _) =>
    case Boot(_) =>
    case Snapshot(_, status, cutoff, todo) =>
      SnapshotListsNothingNew(s, status, cutoff, todo, e);
    case Halt(_) =>
  }

  lemma OtherMovesChangeNoRow(cfg: Config, s: State, m: Move, e: EventId)
    requires Enabled(s, m) && !m.Act? && e in s.db.rows
    ensures var s' := Next(cfg, s, m);
            && e in s'.db.rows && s'.db.rows[e] == s.db.rows[e] && s'.broker == s.broker
            && (!Active(s, Handler(e)) ==> !Active(s', Handler(e)))
  {
    hide IsSnapshot;
  }

  lemma OtherMovesKeepDoomed(cfg: Config, s: State, m: Move, e: EventId)
    requires Enabled(s, m) && !m.Act? && e in s.db.rows && Doomed(cfg, s, e)
    ensures e in Next(cfg, s, m).db.rows && Doomed(cfg, Next(cfg, s, m), e)
  {
    hide Next, Lists, MayPublish, MayRepublish, IsAtWork, IsAtReset, IsFailing, IsClaimant;
    var s' := Next(cfg, s, m);
    OtherMovesChangeNoRow(cfg, s, m, e);
    if !s.db.rows[e].status.Failed? {
      if Spent(s, e) {
        forall q | q in s'.procs ensures !IsClaimant(s'.procs[q], e) && !MayPublish(s'.procs[q], e) {
          if !(q in s.procs && s'.procs[q] == s.procs[q]) {
            NewcomersDoNothing(cfg, s, m, q, e);
          }
        }
      }
      if s.db.rows[e].status.Processing? {
        forall q | q in s'.procs ensures !Helps(cfg, s', s'.procs[q], e) {
          if q in s.procs && s'.procs[q] == s.procs[q] {
            assert !Helps(cfg, s, s.procs[q], e);
          } else {
            NewcomersDoNothing(cfg, s, m, q, e);
          }
        }
      }
    }
  }

  lemma {:induction false} DoomedForever(cfg: Config, moves: seq<Move>, more: seq<Move>, e: EventId)
    requires Legal(cfg, moves) && Legal(cfg, moves + more)
    requires e in After(cfg, moves).db.rows && Doomed(cfg, After(cfg, moves), e)
    ensures e in After(cfg, moves + more).db.rows && Doomed(cfg, After(cfg, moves + more), e)
  {
    hide Next, Enabled, Inv, Doomed;
    if more == [] {
      assert moves + more == moves;
    } else {
      var before, m := more[..|more| - 1], more[|more| - 1];
      assert (moves + more)[..|moves + more| - 1] == moves + before;
      DoomedForever(cfg, moves, before, e);
      RunsKeepInv(cfg, moves + before);
      RunsKeepInv(cfg, moves + more);
      if m.Act? {
        ActKeepsDoomed(cfg, After(cfg, moves + before), m.actor, m.choice, e);
      } else {
        OtherMovesKeepDoomed(cfg, After(cfg, moves + before), m, e);
      }
    }
  }

  // ---- What is not doomed can be completed ----

  ghost predicate Completes(cfg: Config, moves: seq<Move>, more: seq<Move>, e: EventId) {
    Legal(cfg, moves + more) && e in After(cfg, moves + more).db.rows
    && After(cfg, moves + more).db.rows[e].status.Completed?
  }

  lemma CompletesLater(cfg: Config, moves: seq<Move>, first: seq<Move>, rest: seq<Move>, e: EventId)
    requires Completes(cfg, moves + first, rest, e)
    ensures Completes(cfg, moves, first + rest, e)
  {
    hide Legal, After;
    Joined(moves, first, rest);
  }

  /** A result whose calls go through is recorded. */
  lemma WorkCompletes(cfg: Config, moves: seq<Move>, e: EventId) returns (more: seq<Move>)
    requires Legal(cfg, moves) && BeingRun(After(cfg, moves), e)
    requires e in After(cfg, moves).db.rows && After(cfg, moves).db.rows[e].status.Processing?
    ensures Completes(cfg, moves, more, e)
  {
    hide Legal, After, Next, ProcInv;
    KnownRows(cfg, moves);
    var s := After(cfg, moves);
    var q :| q in s.procs && IsAtWork(s.procs[q], e);
    var step := [Act(q, YES)];
    WorkGoesOn(cfg, s, q, e);
    OneMore(cfg, moves, step[0]);
    more := step;
    if s.procs[q].Running? {
      KnownRows(cfg, moves + step);
      WorkGoesOn(cfg, After(cfg, moves + step), q, e);
      OneMore(cfg, moves + step, step[0]);
      CompletesLater(cfg, moves, step, step, e);
      more := step + step;
    }
  }

  lemma WorkGoesOn(cfg: Config, s: State, q: ProcId, e: EventId)
    requires q in s.procs && IsAtWork(s.procs[q], e) && e in s.hist.commits && e !in s.db.idempotency
    requires e in s.db.rows && s.db.rows[e].status.Processing?
    ensures Enabled(s, Act(q, YES))
    ensures var s' := Next(cfg, s, Act(q, YES));
            && e in s'.db.rows && q in s'.procs
            && if s.procs[q].Running? then s'.db == s.db && s'.procs[q] == Finalizing(s.procs[q].job)
               else s'.db.rows[e].status.Completed?
  {
  }

  lemma QueuedCompletes(cfg: Config, moves: seq<Move>, e: EventId) returns (more: seq<Move>)
    requires Legal(cfg, moves) && e in After(cfg, moves).db.rows && After(cfg, moves).db.rows[e].status.Queued?
    requires !Spent(After(cfg, moves), e)
    ensures Completes(cfg, moves, more, e)
  {
    hide Legal, After, AllDelivered, NobodyClaims, NobodyPublishes, BeingRun, Completes;
    var first := CanBeClaimed(cfg, moves, e);
    var rest := WorkCompletes(cfg, moves + first, e);
    CompletesLater(cfg, moves, first, rest, e);
    more := first + rest;
  }

  lemma FreshIsNotSpent(s: State, e: EventId)
    requires !AllDelivered(s.broker, e)
    ensures !Spent(s, e)
  {
  }

  lemma RecoverableCompletes(cfg: Config, moves: seq<Move>, e: EventId) returns (more: seq<Move>)
    requires Legal(cfg, moves) && e in After(cfg, moves).db.rows
    requires var r := After(cfg, moves).db.rows[e]; r.status.Retrying? || (r.status.Processing? && r.worker.Some?)
    ensures Completes(cfg, moves, more, e)
  {
    hide Legal, After, AllDelivered, Spent, Completes;
    var first := CanBeRecovered(cfg, moves, e);
    FreshIsNotSpent(After(cfg, moves + first), e);
    var rest := QueuedCompletes(cfg, moves + first, e);
    CompletesLater(cfg, moves, first, rest, e);
    more := first + rest;
  }

  lemma PublicationGoesOn(cfg: Config, s: State, e: EventId)
    requires Inv(cfg, s) && Active(s, Handler(e)) && s.procs[Handler(e)].Publishing? && e in s.db.rows
    ensures Enabled(s, Act(Handler(e), YES))
    ensures var s' := Next(cfg, s, Act(Handler(e), YES));
            && s'.db == s.db && Active(s', Handler(e)) && s'.procs[Handler(e)].Enqueuing? && !AllDelivered(s'.broker, e)
  {
    hide StoreInv, ProcInv, ReportsOk, HandoffInv;
    HandlerStands(cfg, s, e);
    assert s.broker.Valid();
    var b' := Next(cfg, s, Act(Handler(e), YES)).broker;
    assert b'.log[|s.broker.log|].event == e && !b'.IsDelivered(|s.broker.log|);
  }

  lemma EnqueuingGoesOn(cfg: Config, s: State, e: EventId)
    requires Inv(cfg, s) && Active(s, Handler(e)) && s.procs[Handler(e)].Enqueuing?
    requires e in s.db.rows && s.db.rows[e].status.Received? && !Spent(s, e)
    ensures Enabled(s, Act(Handler(e), YES))
    ensures var s' := Next(cfg, s, Act(Handler(e), YES));
            e in s'.db.rows && s'.db.rows[e].status.Queued? && !Spent(s', e)
  {
    hide Next, Inv, Spent;
    HandlerStands(cfg, s, e);
    FactsOf(cfg, s);
    EnqueuingQueues(cfg, s, e);
    HandlerSuppliesNothing(s, Next(cfg, s, Act(Handler(e), YES)), e);
  }

  lemma HandlerSuppliesNothing(s: State, s': State, e: EventId)
    requires Active(s, Handler(e)) && s.procs[Handler(e)].Enqueuing? && !Spent(s, e)
    requires s'.broker == s.broker && s'.procs == s.procs[Handler(e) := Gone]
    ensures !Spent(s', e)
  {
    hide Lists;
    var pc := s.procs[Handler(e)];
    assert !MayPublish(pc, e) && !IsClaimant(pc, e);
    hide MayPublish, IsClaimant;
    if AllDelivered(s.broker, e) && NobodyClaims(s, e) {
      var q :| q in s.procs && MayPublish(s.procs[q], e);
      assert q in s'.procs && s'.procs[q] == s.procs[q];
    } else if AllDelivered(s.broker, e) {
      var q :| q in s.procs && IsClaimant(s.procs[q], e);
      assert q in s'.procs && s'.procs[q] == s.procs[q];
    }
  }

  lemma EnqueuingQueues(cfg: Config, s: State, e: EventId)
    requires Active(s, Handler(e)) && s.procs[Handler(e)].Enqueuing? && s.procs[Handler(e)].event == e
    requires e in s.db.rows && s.db.rows[e].status.Received? && e in s.hist.commits
    ensures var s' := Next(cfg, s, Act(Handler(e), YES));
            && e in s'.db.rows && s'.db.rows[e].status.Queued? && s'.broker == s.broker
            && s'.procs == s.procs[Handler(e) := Gone]
  {
  }

  lemma ReceivedCompletes(cfg: Config, moves: seq<Move>, e: EventId) returns (more: seq<Move>)
    requires Legal(cfg, moves) && e in After(cfg, moves).db.rows && After(cfg, moves).db.rows[e].status.Received?
    requires Active(After(cfg, moves), Handler(e)) && !Spent(After(cfg, moves), e)
    ensures Completes(cfg, moves, more, e)
  {
    hide Legal, After, Next, Inv, Spent, AllDelivered, Completes;
    RunsKeepInv(cfg, moves);
    HandlerStands(cfg, After(cfg, moves), e);
    var step := [Act(Handler(e), YES)];
    if After(cfg, moves).procs[Handler(e)].Publishing? {
      PublicationGoesOn(cfg, After(cfg, moves), e);
      OneMore(cfg, moves, step[0]);
      FreshIsNotSpent(After(cfg, moves + step), e);
      var rest := EnqueuedCompletes(cfg, moves + step, e);
      CompletesLater(cfg, moves, step, rest, e);
      more := step + rest;
    } else {
      more := EnqueuedCompletes(cfg, moves, e);
    }
  }

  lemma EnqueuedCompletes(cfg: Config, moves: seq<Move>, e: EventId) returns (more: seq<Move>)
    requires Legal(cfg, moves) && e in After(cfg, moves).db.rows && After(cfg, moves).db.rows[e].status.Received?
    requires Active(After(cfg, moves), Handler(e)) && After(cfg, moves).procs[Handler(e)].Enqueuing?
    requires !Spent(After(cfg, moves), e)
    ensures Completes(cfg, moves, more, e)
  {
    hide Legal, After, Next, Inv, Spent, Completes;
    RunsKeepInv(cfg, moves);
    var step := [Act(Handler(e), YES)];
    EnqueuingGoesOn(cfg, After(cfg, moves), e);
    OneMore(cfg, moves, step[0]);
    var rest := QueuedCompletes(cfg, moves + step, e);
    CompletesLater(cfg, moves, step, rest, e);
    more := step + rest;
  }

  lemma ResetKeepsSupply(s: State, s': State, q: ProcId, e: EventId)
    requires q in s.procs && s.procs[q].Resetting? && s.procs[q].todo != [] && !Spent(s, e) && s'.broker == s.broker
    requires var pc := s.procs[q]; s'.procs == s.procs[q := Sweeping(pc.status, pc.todo[1..], pc.dead, pc.since)]
    ensures !Spent(s', e)
  {
    hide Lists;
    var pc, pc' := s.procs[q], s'.procs[q];
    assert MayPublish(pc, e) == MayPublish(pc', e) && !IsClaimant(pc, e);
    hide MayPublish, IsClaimant;
    if AllDelivered(s.broker, e) && NobodyClaims(s, e) {
      var p :| p in s.procs && MayPublish(s.procs[p], e);
      assert p in s'.procs && MayPublish(s'.procs[p], e);
    } else if AllDelivered(s.broker, e) {
      var p :| p in s.procs && IsClaimant(s.procs[p], e);
      assert p in s'.procs && s'.procs[p] == s.procs[p];
    }
  }

  lemma FailureIsRetried(cfg: Config, s: State, q: ProcId, e: EventId)
    requires q in s.procs && IsFailing(s.procs[q], e) && e in s.hist.commits
    requires e in s.db.rows && s.db.rows[e].status.Processing? && s.db.rows[e].attempt + 1 < cfg.maxAttempts
    ensures Enabled(s, Act(q, YES))
    ensures var s' := Next(cfg, s, Act(q, YES)); e in s'.db.rows && s'.db.rows[e].status.Retrying?
  {
    hide CalculateBackoff;
  }

  lemma HelpedCompletes(cfg: Config, moves: seq<Move>, q: ProcId, e: EventId) returns (more: seq<Move>)
    requires Legal(cfg, moves) && e in After(cfg, moves).db.rows && After(cfg, moves).db.rows[e].status.Processing?
    requires q in After(cfg, moves).procs && Helps(cfg, After(cfg, moves), After(cfg, moves).procs[q], e)
    ensures Completes(cfg, moves, more, e)
  {
    hide Legal, After, Next, MayRepublish, Spent, AllDelivered, Completes, ProcInv, RowOk;
    var s := After(cfg, moves);
    var step := [Act(q, YES)];
    if IsAtWork(s.procs[q], e) {
      more := WorkCompletes(cfg, moves, e);
    } else if MayRepublish(s.procs[q], Processing, e) {
      var first := ListedQueues(cfg, moves, q, e);
      FreshIsNotSpent(After(cfg, moves + first), e);
      var rest := QueuedCompletes(cfg, moves + first, e);
      CompletesLater(cfg, moves, first, rest, e);
      more := first + rest;
    } else if IsAtReset(s.procs[q], e) {
      ResetSucceeds(cfg, moves, q, e);
      ResetKeepsSupply(s, After(cfg, moves + step), q, e);
      var rest := QueuedCompletes(cfg, moves + step, e);
      CompletesLater(cfg, moves, step, rest, e);
      more := step + rest;
    } else {
      KnownRows(cfg, moves);
      FailureIsRetried(cfg, s, q, e);
      OneMore(cfg, moves, step[0]);
      var rest := RecoverableCompletes(cfg, moves + step, e);
      CompletesLater(cfg, moves, step, rest, e);
      more := step + rest;
    }
  }

  // ---- The theorem ----

  /** In every run: an event has a continuation in which it is COMPLETED if and only if it is not doomed. */
  lemma CanBeCompletedExactlyWhen(cfg: Config, moves: seq<Move>, e: EventId)
    requires Legal(cfg, moves) && e in After(cfg, moves).db.rows
    ensures (exists more :: Completes(cfg, moves, more, e)) <==> !Doomed(cfg, After(cfg, moves), e)
  {
    hide Legal, After, Helps, Spent;
    var s := After(cfg, moves);
    if Doomed(cfg, s, e) {
      forall more ensures !Completes(cfg, moves, more, e) {
        if Legal(cfg, moves + more) {
          DoomedForever(cfg, moves, more, e);
        }
      }
    } else {
      hide Completes;
      var more := NotDoomedCompletes(cfg, moves, e);
    }
  }

  lemma NotDoomedCompletes(cfg: Config, moves: seq<Move>, e: EventId) returns (more: seq<Move>)
    requires Legal(cfg, moves) && e in After(cfg, moves).db.rows && !Doomed(cfg, After(cfg, moves), e)
    ensures Completes(cfg, moves, more, e)
  {
    hide Legal, After, Helps, Spent;
    var s := After(cfg, moves);
    match s.db.rows[e].status {
      case Received => more := ReceivedCompletes(cfg, moves, e);
      case Queued => more := QueuedCompletes(cfg, moves, e);
      case Retrying => more := RecoverableCompletes(cfg, moves, e);
      case Completed =>
        more := [];
        assert moves + more == moves;
      case Processing =>
        if s.db.rows[e].worker.Some? {
          more := RecoverableCompletes(cfg, moves, e);
        } else {
          var q :| q in s.procs && Helps(cfg, s, s.procs[q], e);
          more := HelpedCompletes(cfg, moves, q, e);
        }
    }
  }

  /** What has stopped short of completion is doomed. */
  lemma StoppedEventsAreDoomed(cfg: Config, moves: seq<Move>, e: EventId)
    requires Legal(cfg, moves) && HasStopped(After(cfg, moves), e)
    requires !After(cfg, moves).db.rows[e].status.Completed?
    ensures Doomed(cfg, After(cfg, moves), e)
  {
    hide Legal, After;
    StoppedIsDoomed(cfg, After(cfg, moves), e);
  }
}
