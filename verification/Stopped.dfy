/**
 When an event has stopped for good, exactly. A row that is not terminal never changes again if and only if
 it is RECEIVED and its handler has ended, or QUEUED with every copy delivered, nobody about to claim one and nobody
 about to publish another, or PROCESSING without an owner, held by nobody and listed by no sweep that could reset
 it. In every other case the run has a continuation in which the row moves on.
 */
module Stopped {
  import opened Events
  import opened Trails
  import opened EventStore
  import opened Streams
  import opened Backoff
  import opened Protocol
  import opened ProtocolInvariant
  import opened ProtocolSteps
  import opened ProtocolTheorems
  import opened Exclusive
  import opened Continuations

  /** A sweep with this list and memo may still republish `e`. */
  predicate Lists(status: Status, todo: seq<Stale>, dead: map<Uuid, bool>, e: EventId) {
    exists i :: 0 <= i < |todo| && todo[i].id == e && !NextSweepStep(status, todo[i].row, dead).Skip?
  }

  /** The process may still publish a copy of `e`. */
  predicate MayPublish(pc: Proc, e: EventId) {
    match pc
    case Publishing(x, _) => x == e
    case Waiting(job) => job.event == e
    case Sweeping(status, todo, dead, _) => Lists(status, todo, dead, e)
    case Resetting(status, todo, dead, _, _) => todo != [] && Lists(status, todo[1..], dead, e)
    case _ => false
  }

  /** The process may still put `e` back from PROCESSING. */
  predicate MayReset(pc: Proc, e: EventId) {
    match pc
    case Sweeping(status, todo, dead, _) => status.Processing? && Lists(status, todo, dead, e)
    case Resetting(status, todo, dead, _, _) =>
      status.Processing? && todo != [] && (todo[0].id == e || Lists(status, todo[1..], dead, e))
    case _ => false
  }

  /** A sweep over rows of the given status that may still publish a copy of `e`. */
  predicate MayRepublish(pc: Proc, status: Status, e: EventId) {
    match pc
    case Sweeping(st, todo, dead, _) => st == status && Lists(st, todo, dead, e)
    case Resetting(st, todo, dead, _, _) => st == status && todo != [] && Lists(st, todo[1..], dead, e)
    case _ => false
  }

  predicate IsClaimant(pc: Proc, e: EventId) {
    pc.Claiming? && pc.job.event == e
  }

  ghost predicate NobodyClaims(s: State, e: EventId) {
    forall q | q in s.procs :: !IsClaimant(s.procs[q], e)
  }

  ghost predicate NobodyPublishes(s: State, e: EventId) {
    forall q | q in s.procs :: !MayPublish(s.procs[q], e)
  }

  ghost predicate NobodyHolds(s: State, e: EventId) {
    forall q | q in s.procs :: !Holds(s.procs[q], e)
  }

  ghost predicate NobodyResets(s: State, e: EventId) {
    forall q | q in s.procs :: !MayReset(s.procs[q], e)
  }

  ghost predicate AllDelivered(b: Broker, e: EventId) {
    forall i | 0 <= i < |b.log| && b.log[i].event == e :: b.IsDelivered(i)
  }

  /** RECEIVED, and the handler that would have queued it has ended. */
  ghost predicate NeverQueued(s: State, e: EventId) {
    e in s.db.rows && s.db.rows[e].status.Received? && !Active(s, Handler(e))
  }

  /** QUEUED, but no copy can be claimed any more, and no other will be published. */
  ghost predicate LostInQueue(s: State, e: EventId) {
    && e in s.db.rows && s.db.rows[e].status.Queued? && AllDelivered(s.broker, e)
    && NobodyClaims(s, e) && NobodyPublishes(s, e)
  }

  /** PROCESSING, but nobody works on it, and no sweep can tell whose it was. */
  ghost predicate Abandoned(s: State, e: EventId) {
    && e in s.db.rows && s.db.rows[e].status.Processing? && s.db.rows[e].worker.None?
    && NobodyHolds(s, e) && NobodyResets(s, e)
  }

  ghost predicate HasStopped(s: State, e: EventId) {
    && e in s.db.rows
    && (Terminal(s.db.rows[e].status) || NeverQueued(s, e) || LostInQueue(s, e) || Abandoned(s, e))
  }

  // ---- What is stopped stays stopped ----

  lemma StoppedRowStays(cfg: Config, s: State, p: ProcId, c: Choice, e: EventId)
    requires ProcInv(ViewOf(s), s.procs) && Active(s, p) && HasStopped(s, e)
    ensures var rows' := Resume(cfg, Set(s, p, Gone), p, s.procs[p], c).db.rows;
            e in rows' && rows'[e] == s.db.rows[e]
  {
    hide Resume;
    var pc := s.procs[p];
    assert ProcOk(ViewOf(s), p, pc);
    WhoChangesARow(cfg, Set(s, p, Gone), p, pc, c);
    assert pc.Resetting? && pc.todo != [] && pc.todo[0].id == e && pc.status.Processing? ==> MayReset(pc, e);
  }

  lemma TailListsLess(status: Status, todo: seq<Stale>, dead: map<Uuid, bool>, e: EventId)
    requires todo != [] && Lists(status, todo[1..], dead, e)
    ensures Lists(status, todo, dead, e)
  {
    var i :| 0 <= i < |todo[1..]| && todo[1..][i].id == e && !NextSweepStep(status, todo[1..][i].row, dead).Skip?;
    assert todo[i + 1].id == e;
  }

  /** A new answer only takes rows off the list. */
  lemma AnswerListsLess(status: Status, todo: seq<Stale>, dead: map<Uuid, bool>, dead': map<Uuid, bool>, u: Uuid,
      e: EventId)
    requires u in dead' && dead' == dead[u := dead'[u]] && (dead'[u] ==> u !in dead)
    requires Lists(status, todo, dead', e)
    ensures Lists(status, todo, dead, e)
  {
    var i :| 0 <= i < |todo| && todo[i].id == e && !NextSweepStep(status, todo[i].row, dead').Skip?;
    assert !NextSweepStep(status, todo[i].row, dead).Skip?;
  }

  lemma SweepListsLess(pc: Proc, c: Choice, pc': Proc, e: EventId)
    requires (pc.Sweeping? || pc.Resetting?) && SweepAdvances(pc, c, pc')
    ensures MayPublish(pc', e) ==> MayPublish(pc, e)
    ensures MayReset(pc', e) ==> MayReset(pc, e)
  {
    if pc'.Sweeping? && pc'.todo == pc.todo && pc.Sweeping? && Lists(pc'.status, pc'.todo, pc'.dead, e) {
      if pc'.dead != pc.dead {
        var u :| u in pc'.dead && pc'.dead == pc.dead[u := pc'.dead[u]] && (pc'.dead[u] ==> FindsAbsent(pc, c, u));
        AnswerListsLess(pc.status, pc.todo, pc.dead, pc'.dead, u, e);
      }
    } else if pc'.Sweeping? && pc.Sweeping? && Lists(pc'.status, pc'.todo, pc'.dead, e) {
      TailListsLess(pc.status, pc.todo, pc.dead, e);
    } else if pc'.Resetting? {
      if Lists(pc'.status, pc'.todo[1..], pc'.dead, e) {
        TailListsLess(pc.status, pc.todo, pc.dead, e);
      }
      assert pc'.todo[0].id == e ==> Lists(pc.status, pc.todo, pc.dead, e);
    }
  }

  lemma SweeperPublishesNoMore(cfg: Config, s: State, p: ProcId, pc: Proc, c: Choice, e: EventId)
    requires NobodyPublishes(s, e) && !MayPublish(pc, e) && p in s.procs && s.procs[p] == Gone
    requires pc.Sweeping? || pc.Resetting?
    ensures NobodyPublishes(Resume(cfg, s, p, pc, c), e)
  {
    hide MayPublish, SweepAdvances, ActSweeping, ActResetting;
    var s' := Resume(cfg, s, p, pc, c);
    SweeperAdvances(cfg, s, p, pc, c);
    SweepListsLess(pc, c, s'.procs[p], e);
    SweeperMovesAlone(cfg, s, p, pc, c);
  }

  lemma WorkerPublishesNoMore(cfg: Config, s: State, p: ProcId, pc: Proc, c: Choice, e: EventId)
    requires NobodyPublishes(s, e)
    requires pc.Polling? || pc.Claiming? || pc.Finalizing? || pc.Closing? || pc.Running?
    ensures NobodyPublishes(Resume(cfg, s, p, pc, c), e)
  {
    hide ActPolling, ActClaiming, ActFinalizing, ActClosing;
  }

  /** A failure of `e` recorded now would leave it no retry. */
  predicate NoRetryLeft(cfg: Config, rows: Rows, e: EventId) {
    e in rows && (!rows[e].status.Processing? || rows[e].attempt + 1 >= cfg.maxAttempts)
  }

  lemma FailerPublishesNoMore(cfg: Config, s: State, p: ProcId, job: Job, c: Choice, e: EventId)
    requires NobodyPublishes(s, e) && (job.event == e ==> NoRetryLeft(cfg, s.db.rows, e))
    ensures NobodyPublishes(ActFailing(cfg, s, p, job, c), e)
  {
    if job.event == e {
      LastFailureSpawnsNobody(cfg, s, p, job, c);
    }
    hide ActFailing;
  }

  lemma LastFailureSpawnsNobody(cfg: Config, s: State, p: ProcId, job: Job, c: Choice)
    requires NoRetryLeft(cfg, s.db.rows, job.event)
    ensures var procs := ActFailing(cfg, s, p, job, c).procs; p in procs && procs == s.procs[p := procs[p]]
  {
    hide CalculateBackoff;
  }

  lemma NoNewPublisher(cfg: Config, s: State, p: ProcId, pc: Proc, c: Choice, e: EventId)
    requires NobodyPublishes(s, e) && !MayPublish(pc, e) && p in s.procs && s.procs[p] == Gone
    requires pc.Failing? && pc.job.event == e ==> NoRetryLeft(cfg, s.db.rows, e)
    ensures NobodyPublishes(Resume(cfg, s, p, pc, c), e)
  {
    hide ActPolling, ActClaiming, ActFinalizing, ActFailing, ActClosing, ActSweeping, ActResetting,
      UpdateStatusTx, Lists;
    match pc {
      case Failing(job) => FailerPublishesNoMore(cfg, s, p, job, c, e);
      case Sweeping(_, _, _, _) => SweeperPublishesNoMore(cfg, s, p, pc, c, e);
      case Resetting(_, _, _, _, _) => SweeperPublishesNoMore(cfg, s, p, pc, c, e);
      case Polling(_) => WorkerPublishesNoMore(cfg, s, p, pc, c, e);
      case Claiming(_) => WorkerPublishesNoMore(cfg, s, p, pc, c, e);
      case Running(_) => WorkerPublishesNoMore(cfg, s, p, pc, c, e);
      case Finalizing(_) => WorkerPublishesNoMore(cfg, s, p, pc, c, e);
      case Closing(_, _, _) => WorkerPublishesNoMore(cfg, s, p, pc, c, e);
      case _ =>
    }
  }

  /** A copy of `e` is added only by a process that could publish one, and what was delivered stays delivered. */
  lemma NoNewCopy(cfg: Config, s: State, p: ProcId, pc: Proc, c: Choice, e: EventId)
    requires s.broker.Valid() && AllDelivered(s.broker, e) && !MayPublish(pc, e)
    ensures AllDelivered(Resume(cfg, s, p, pc, c).broker, e)
  {
    hide ActPublishing, ActEnqueuing, ActPolling, ActClaiming, ActFinalizing, ActFailing,
      ActClosing, ActWaiting, ActReleasing, ActRequeuing, ActResetting, Lists;
    if pc.Polling? {
      DeliverKeepsValid(s.broker, pc.stream);
    } else if pc.Sweeping? {
      SweeperAddsNoCopy(cfg, s, p, pc, c, e);
    }
  }

  lemma SweeperAddsNoCopy(cfg: Config, s: State, p: ProcId, pc: Proc, c: Choice, e: EventId)
    requires pc.Sweeping? && !MayPublish(pc, e) && AllDelivered(s.broker, e)
    ensures AllDelivered(Resume(cfg, s, p, pc, c).broker, e)
  {
    hide ActSweeping;
    SweeperAddsListed(cfg, s, p, pc, c);
  }

  lemma SweeperAddsListed(cfg: Config, s: State, p: ProcId, pc: Proc, c: Choice)
    requires pc.Sweeping?
    ensures var s' := Resume(cfg, s, p, pc, c);
            || s'.broker == s.broker
            || (pc.todo != [] && !NextSweepStep(pc.status, pc.todo[0].row, pc.dead).Skip?
                && s'.broker == s.broker.Add(Message(pc.todo[0].id, pc.todo[0].row.priority, pc.todo[0].row.attempt)))
  {
  }

  /** Only a read makes a claimant, and only of a message that had not been delivered. */
  lemma WhoStartsToClaim(cfg: Config, s: State, p: ProcId, pc: Proc, c: Choice)
    requires p in s.procs && s.procs[p] == Gone
    ensures var s' := Resume(cfg, s, p, pc, c);
            p in s'.procs &&
            (s'.procs[p].Claiming? ==>
               pc.Polling? && s.broker.Next(pc.stream) < |s.broker.log|
               && s'.procs[p].job.event == s.broker.log[s.broker.Next(pc.stream)].event)
  {
    hide CalculateBackoff, RecordFailureTx, FinalizeTx, AssignTx, UpdateStatusTx, NextFrom;
  }

  lemma NoNewClaimant(cfg: Config, s: State, p: ProcId, c: Choice, e: EventId)
    requires ProcInv(ViewOf(s), s.procs) && Active(s, p) && s.broker.Valid()
    requires NobodyClaims(s, e) && AllDelivered(s.broker, e)
    requires var s' := Resume(cfg, Set(s, p, Gone), p, s.procs[p], c); ProcInv(ViewOf(s'), s'.procs)
    ensures NobodyClaims(Resume(cfg, Set(s, p, Gone), p, s.procs[p], c), e)
  {
    hide Resume, ProcInv;
    var parked, pc := Set(s, p, Gone), s.procs[p];
    var s' := Resume(cfg, parked, p, pc, c);
    WhoStartsToClaim(cfg, parked, p, pc, c);
    OnlyTheActorMoves(cfg, parked, p, pc, c);
    forall q | q in s'.procs ensures !IsClaimant(s'.procs[q], e) {
      ClaimantsAreWorkers(s', q, e);
      assert q == p || q.Task? || q in parked.procs;
    }
  }

  lemma ClaimantsAreWorkers(s: State, q: ProcId, e: EventId)
    requires ProcInv(ViewOf(s), s.procs) && q in s.procs
    ensures IsClaimant(s.procs[q], e) ==> q.Worker?
  {
    assert ProcOk(ViewOf(s), q, s.procs[q]);
  }

  lemma NoNewHolder(cfg: Config, s: State, p: ProcId, c: Choice, e: EventId)
    requires ProcInv(ViewOf(s), s.procs) && s.hist.commits.Keys == s.db.rows.Keys && Active(s, p)
    requires NobodyHolds(s, e) && e in s.db.rows && !s.db.rows[e].status.Queued?
    requires var s' := Resume(cfg, Set(s, p, Gone), p, s.procs[p], c); ProcInv(ViewOf(s'), s'.procs)
    ensures NobodyHolds(Resume(cfg, Set(s, p, Gone), p, s.procs[p], c), e)
  {
    hide Resume, ProcInv;
    var parked, pc := Set(s, p, Gone), s.procs[p];
    var s' := Resume(cfg, parked, p, pc, c);
    OnlyTheActorMoves(cfg, parked, p, pc, c);
    forall q | q in s'.procs ensures !Holds(s'.procs[q], e) {
      assert q == p || q.Task? || q in parked.procs;
      if Holds(s'.procs[q], e) {
        HoldersAreWorkers(s', q, e);
        if q == p {
          CounterOfWorker(s, p);
          HowToHold(cfg, parked, p, pc, c, e);
        }
      }
    }
  }

  lemma CounterOfWorker(s: State, p: ProcId)
    requires ProcInv(ViewOf(s), s.procs) && Active(s, p) && p.Worker?
    ensures IsWorkerCounter(s.procs[p])
  {
    assert ProcOk(ViewOf(s), p, s.procs[p]);
  }

  lemma NoNewResetter(cfg: Config, s: State, p: ProcId, c: Choice, e: EventId)
    requires ProcInv(ViewOf(s), s.procs) && Enabled(s, Act(p, c)) && NobodyResets(s, e)
    requires var s' := Resume(cfg, Set(s, p, Gone), p, s.procs[p], c); ProcInv(ViewOf(s'), s'.procs)
    ensures NobodyResets(Resume(cfg, Set(s, p, Gone), p, s.procs[p], c), e)
  {
    hide Resume, ProcInv, MayReset, SweepAdvances;
    var parked, pc := Set(s, p, Gone), s.procs[p];
    var s' := Resume(cfg, parked, p, pc, c);
    OnlyTheActorMoves(cfg, parked, p, pc, c);
    forall q | q in s'.procs ensures !MayReset(s'.procs[q], e) {
      ResettersSweep(s', q, e);
      assert q == p || q.Task? || q in parked.procs;
      if q == p && (pc.Sweeping? || pc.Resetting?) {
        SweeperAdvances(cfg, parked, p, pc, c);
        SweepListsLess(pc, c, s'.procs[p], e);
      } else if q == p && MayReset(s'.procs[q], e) {
        NewSweepsNeedASnapshot(cfg, s, p, c);
      }
    }
  }

  lemma ResettersSweep(s: State, q: ProcId, e: EventId)
    requires ProcInv(ViewOf(s), s.procs) && q in s.procs
    ensures MayReset(s.procs[q], e) ==> q.Sweeper? && (s.procs[q].Sweeping? || s.procs[q].Resetting?)
  {
    SweepersAreSweepers(s, q);
  }

  lemma ActKeepsStopped(cfg: Config, s: State, p: ProcId, c: Choice, e: EventId)
    requires Inv(cfg, s) && Enabled(s, Act(p, c)) && HasStopped(s, e) && Inv(cfg, Next(cfg, s, Act(p, c)))
    ensures var s' := Next(cfg, s, Act(p, c)); HasStopped(s', e) && s'.db.rows[e] == s.db.rows[e]
  {
    hide Resume, ProcInv, Inv, Holds, MayReset, MayPublish, IsClaimant, AllDelivered, NobodyClaims, NobodyHolds,
      NobodyPublishes, NobodyResets;
    var parked, pc, s' := Set(s, p, Gone), s.procs[p], Next(cfg, s, Act(p, c));
    StoppedRowStays(cfg, s, p, c, e) by { FactsOf(cfg, s); }
    FactsOf(cfg, s);
    FactsOf(cfg, s');
    if NeverQueued(s, e) {
      OnlyTheActorMoves(cfg, parked, p, pc, c);
      assert Handler(e) in parked.procs <==> Handler(e) in s.procs;
    } else if LostInQueue(s, e) {
      ParkedLost(s, p, e);
      NoNewPublisher(cfg, parked, p, pc, c, e);
      NoNewCopy(cfg, parked, p, pc, c, e);
      NoNewClaimant(cfg, s, p, c, e);
      TickKeeps(Resume(cfg, parked, p, pc, c), Act(p, c), e);
    } else if Abandoned(s, e) {
      NoNewHolder(cfg, s, p, c, e);
      NoNewResetter(cfg, s, p, c, e);
      TickKeeps(Resume(cfg, parked, p, pc, c), Act(p, c), e);
    }
  }

  lemma TickKeeps(s: State, m: Move, e: EventId)
    ensures ProcInv(ViewOf(s), s.procs) == ProcInv(ViewOf(Tick(s, m)), s.procs)
    ensures NobodyClaims(Tick(s, m), e) == NobodyClaims(s, e) && NobodyPublishes(Tick(s, m), e) == NobodyPublishes(s, e)
    ensures NobodyHolds(Tick(s, m), e) == NobodyHolds(s, e) && NobodyResets(Tick(s, m), e) == NobodyResets(s, e)
  {
    assert ViewOf(Tick(s, m)) == ViewOf(s);
  }

  lemma ParkedLost(s: State, p: ProcId, e: EventId)
    requires p in s.procs && LostInQueue(s, e)
    ensures NobodyPublishes(Set(s, p, Gone), e) && !MayPublish(s.procs[p], e) && AllDelivered(Set(s, p, Gone).broker, e)
  {
  }

  lemma OtherMovesKeepStopped(cfg: Config, s: State, m: Move, e: EventId)
    requires Inv(cfg, s) && Enabled(s, m) && !m.Act? && HasStopped(s, e)
    ensures HasStopped(Next(cfg, s, m), e) && Next(cfg, s, m).db.rows[e] == s.db.rows[e]
  {
    hide Inv, Lists, IsSnapshot;
    match m
    case Submit(_, _, _, _) =>
    case Boot(_) =>
    case Snapshot(_, status, cutoff, todo) =>
      SnapshotListsNothingNew(s, status, cutoff, todo, e);
    case Halt(_) =>
  }

  /** A sweep that starts now lists only rows that are not stopped. */
  lemma SnapshotListsNothingNew(s: State, status: Status, cutoff: nat, todo: seq<Stale>, e: EventId)
    requires IsSnapshot(s.db, status, cutoff, todo) && status in {Processing, Retrying} && e in s.db.rows
    ensures s.db.rows[e].status.Queued? || s.db.rows[e].status.Received? ==> !Lists(status, todo, map[], e)
    ensures s.db.rows[e].status.Processing? && s.db.rows[e].worker.None? ==> !Lists(status, todo, map[], e)
  {
  }

  /** What is stopped is stopped for good. */
  lemma {:induction false} StoppedForever(cfg: Config, moves: seq<Move>, more: seq<Move>, e: EventId)
    requires Legal(cfg, moves) && Legal(cfg, moves + more) && HasStopped(After(cfg, moves), e)
    ensures HasStopped(After(cfg, moves + more), e)
    ensures After(cfg, moves + more).db.rows[e] == After(cfg, moves).db.rows[e]
  {
    hide Next, Enabled, Inv, HasStopped;
    if more == [] {
      assert moves + more == moves;
    } else {
      var before, m := more[..|more| - 1], more[|more| - 1];
      assert (moves + more)[..|moves + more| - 1] == moves + before;
      StoppedForever(cfg, moves, before, e);
      RunsKeepInv(cfg, moves + before);
      RunsKeepInv(cfg, moves + more);
      if m.Act? {
        ActKeepsStopped(cfg, After(cfg, moves + before), m.actor, m.choice, e);
      } else {
        OtherMovesKeepStopped(cfg, After(cfg, moves + before), m, e);
      }
    }
  }

  // ---- What is not stopped can go on ----

  /** The run has a continuation in which `e` reaches a later status. */
  ghost predicate Goes(cfg: Config, moves: seq<Move>, more: seq<Move>, e: EventId)
    requires Legal(cfg, moves)
  {
    && Legal(cfg, moves + more) && e in After(cfg, moves).db.rows && e in After(cfg, moves + more).db.rows
    && IsValidTransition(After(cfg, moves).db.rows[e].status, After(cfg, moves + more).db.rows[e].status)
  }

  /** Steps that change no row leave an event where it was. */
  lemma GoesLater(cfg: Config, moves: seq<Move>, first: seq<Move>, rest: seq<Move>, e: EventId)
    requires Legal(cfg, moves) && Legal(cfg, moves + first) && Goes(cfg, moves + first, rest, e)
    requires e in After(cfg, moves).db.rows
    requires After(cfg, moves + first).db.rows[e].status == After(cfg, moves).db.rows[e].status
    ensures Goes(cfg, moves, first + rest, e)
  {
    Joined(moves, first, rest);
  }

  lemma HandlerStands(cfg: Config, s: State, e: EventId)
    requires Inv(cfg, s) && Active(s, Handler(e))
    ensures var pc := s.procs[Handler(e)]; (pc.Publishing? || pc.Enqueuing?) && pc.event == e
  {
    assert ProcOk(ViewOf(s), Handler(e), s.procs[Handler(e)]);
  }

  /** A handler that has not ended can still queue its row. */
  lemma HandlerQueues(cfg: Config, moves: seq<Move>, e: EventId) returns (more: seq<Move>)
    requires Legal(cfg, moves) && Active(After(cfg, moves), Handler(e))
    requires e in After(cfg, moves).db.rows && After(cfg, moves).db.rows[e].status.Received?
    ensures Goes(cfg, moves, more, e)
  {
    hide Legal, After, Inv;
    RunsKeepInv(cfg, moves);
    HandlerStands(cfg, After(cfg, moves), e);
    KnownRows(cfg, moves);
    var write := [Act(Handler(e), YES)];
    OneMore(cfg, moves, write[0]);
    if After(cfg, moves).procs[Handler(e)].Enqueuing? {
      more := write;
    } else {
      KnownRows(cfg, moves + write);
      OneMore(cfg, moves + write, write[0]);
      GoesLater(cfg, moves, write, write, e);
      more := write + write;
    }
  }

  lemma ListedAt(status: Status, todo: seq<Stale>, dead: map<Uuid, bool>, e: EventId) returns (i: nat)
    requires Lists(status, todo, dead, e)
    ensures i < |todo| && todo[i].id == e && todo[i..] != [] && todo[i..][0] == todo[i]
    ensures !NextSweepStep(status, todo[i].row, dead).Skip?
  {
    i :| 0 <= i < |todo| && todo[i].id == e && !NextSweepStep(status, todo[i].row, dead).Skip?;
  }

  /** A sweep that lists `e` can come to it and publish a copy. */
  lemma SweepPublishes(cfg: Config, moves: seq<Move>, q: ProcId, e: EventId) returns (more: seq<Move>)
    requires Legal(cfg, moves) && q in After(cfg, moves).procs
    requires var pc := After(cfg, moves).procs[q]; pc.Sweeping? && Lists(pc.status, pc.todo, pc.dead, e)
    ensures Legal(cfg, moves + more)
    ensures var s, s' := After(cfg, moves), After(cfg, moves + more);
            && s'.db == s.db && s'.broker.cursors == s.broker.cursors
            && |s'.broker.log| == |s.broker.log| + 1 && s'.broker.log[|s.broker.log|].event == e
            && q in s'.procs && s'.procs[q].Resetting? && s'.procs[q].status == s.procs[q].status
            && s'.procs[q].todo != [] && s'.procs[q].todo[0].id == e
  {
    hide Legal, After;
    var pc := After(cfg, moves).procs[q];
    var i := ListedAt(pc.status, pc.todo, pc.dead, e);
    var first := DropTo(cfg, moves, q, i);
    var second := Republishes(cfg, moves + first, q);
    Joined(moves, first, second);
    more := first + second;
  }

  lemma SweepGivesUpHead(cfg: Config, moves: seq<Move>, q: ProcId, e: EventId)
    requires Legal(cfg, moves) && q in After(cfg, moves).procs
    requires var pc := After(cfg, moves).procs[q];
             pc.Resetting? && pc.todo != [] && Lists(pc.status, pc.todo[1..], pc.dead, e)
    ensures Legal(cfg, moves + [Act(q, FAILS)])
    ensures var s, s' := After(cfg, moves), After(cfg, moves + [Act(q, FAILS)]);
            && s'.db == s.db && s'.broker == s.broker && q in s'.procs && s'.procs[q].Sweeping?
            && s'.procs[q].status == s.procs[q].status
            && Lists(s'.procs[q].status, s'.procs[q].todo, s'.procs[q].dead, e)
  {
    hide Legal, After, Lists;
    DropHead(cfg, moves, q);
  }

  /** Whoever may publish a copy of `e` can do so, leaving all rows alone. */
  lemma CanPublish(cfg: Config, moves: seq<Move>, q: ProcId, e: EventId) returns (more: seq<Move>)
    requires Legal(cfg, moves) && q in After(cfg, moves).procs && MayPublish(After(cfg, moves).procs[q], e)
    ensures Legal(cfg, moves + more)
    ensures var s, s' := After(cfg, moves), After(cfg, moves + more);
            && s'.db == s.db && s'.broker.cursors == s.broker.cursors
            && |s'.broker.log| == |s.broker.log| + 1 && s'.broker.log[|s.broker.log|].event == e
  {
    hide Legal, After, Lists;
    var pc := After(cfg, moves).procs[q];
    if pc.Publishing? || pc.Waiting? {
      more := [Act(q, YES)];
      OneMore(cfg, moves, more[0]);
    } else if pc.Sweeping? {
      more := SweepPublishes(cfg, moves, q, e);
    } else {
      SweepGivesUpHead(cfg, moves, q, e);
      var rest := SweepPublishes(cfg, moves + [Act(q, FAILS)], q, e);
      Joined(moves, [Act(q, FAILS)], rest);
      more := [Act(q, FAILS)] + rest;
    }
  }

  /** A QUEUED event that is not lost can still be claimed. */
  lemma CanBeClaimed(cfg: Config, moves: seq<Move>, e: EventId) returns (more: seq<Move>)
    requires Legal(cfg, moves) && e in After(cfg, moves).db.rows && After(cfg, moves).db.rows[e].status.Queued?
    requires !LostInQueue(After(cfg, moves), e)
    ensures Goes(cfg, moves, more, e) && BeingRun(After(cfg, moves + more), e)
  {
    hide Legal, After, MayPublish, RowOk, ProcInv, BeingRun;
    var s := After(cfg, moves);
    KnownRows(cfg, moves);
    if !AllDelivered(s.broker, e) {
      var i :| 0 <= i < |s.broker.log| && s.broker.log[i].event == e && !s.broker.IsDelivered(i);
      more := FetchedAndClaimed(cfg, moves, i);
    } else if !NobodyClaims(s, e) {
      var q :| q in s.procs && IsClaimant(s.procs[q], e);
      ClaimantsAreWorkers(s, q, e);
      ClaimSucceeds(cfg, moves, q);
      more := [Act(q, YES)];
    } else {
      var q :| q in s.procs && MayPublish(s.procs[q], e);
      var first := CanPublish(cfg, moves, q, e);
      KnownRows(cfg, moves + first);
      assert !After(cfg, moves + first).broker.IsDelivered(|s.broker.log|);
      var rest := FetchedAndClaimed(cfg, moves + first, |s.broker.log|);
      GoesLater(cfg, moves, first, rest, e);
      Joined(moves, first, rest);
      more := first + rest;
    }
  }

  /** A sweep of the row's status that lists `e` can queue it, with a copy nobody has been handed. */
  lemma ListedQueues(cfg: Config, moves: seq<Move>, q: ProcId, e: EventId) returns (more: seq<Move>)
    requires Legal(cfg, moves) && q in After(cfg, moves).procs && e in After(cfg, moves).db.rows
    requires var s := After(cfg, moves);
             MayRepublish(s.procs[q], s.db.rows[e].status, e) && s.db.rows[e].status in {Processing, Retrying}
    ensures Goes(cfg, moves, more, e) && After(cfg, moves + more).db.rows[e].status.Queued?
    ensures !AllDelivered(After(cfg, moves + more).broker, e)
  {
    hide Legal, After, Lists, RowOk, ProcInv, AssignTx;
    KnownRows(cfg, moves);
    var first;
    if After(cfg, moves).procs[q].Sweeping? {
      first := SweepPublishes(cfg, moves, q, e);
    } else {
      SweepGivesUpHead(cfg, moves, q, e);
      var rest := SweepPublishes(cfg, moves + [Act(q, FAILS)], q, e);
      Joined(moves, [Act(q, FAILS)], rest);
      first := [Act(q, FAILS)] + rest;
    }
    assert !After(cfg, moves + first).broker.IsDelivered(|After(cfg, moves).broker.log|);
    ResetSucceeds(cfg, moves + first, q, e);
    GoesLater(cfg, moves, first, [Act(q, YES)], e);
    Joined(moves, first, [Act(q, YES)]);
    more := first + [Act(q, YES)];
  }

  /** A sweep that may still reset a row of the status it works on can do so. */
  lemma SweepQueues(cfg: Config, moves: seq<Move>, q: ProcId, e: EventId) returns (more: seq<Move>)
    requires Legal(cfg, moves) && q in After(cfg, moves).procs && e in After(cfg, moves).db.rows
    requires var s := After(cfg, moves);
             var pc := s.procs[q];
             && (pc.Sweeping? || pc.Resetting?) && pc.status == s.db.rows[e].status
             && pc.status in {Processing, Retrying}
             && (pc.Sweeping? ==> Lists(pc.status, pc.todo, pc.dead, e))
             && (pc.Resetting? ==>
                   pc.todo != [] && (pc.todo[0].id == e || Lists(pc.status, pc.todo[1..], pc.dead, e)))
    ensures Goes(cfg, moves, more, e) && After(cfg, moves + more).db.rows[e].status.Queued?
  {
    hide Legal, After, Lists, RowOk, ProcInv, AssignTx;
    var pc := After(cfg, moves).procs[q];
    if pc.Resetting? && pc.todo[0].id == e {
      ResetSucceeds(cfg, moves, q, e);
      more := [Act(q, YES)];
    } else {
      more := ListedQueues(cfg, moves, q, e);
    }
  }

  lemma ResetSucceeds(cfg: Config, moves: seq<Move>, q: ProcId, e: EventId)
    requires Legal(cfg, moves) && q in After(cfg, moves).procs && e in After(cfg, moves).db.rows
    requires var s := After(cfg, moves);
             && s.procs[q].Resetting? && s.procs[q].todo != [] && s.procs[q].todo[0].id == e
             && s.procs[q].status == s.db.rows[e].status && s.procs[q].status in {Processing, Retrying}
    ensures Goes(cfg, moves, [Act(q, YES)], e)
    ensures var s, s' := After(cfg, moves), After(cfg, moves + [Act(q, YES)]);
            var pc := s.procs[q];
            && s'.db.rows[e].status.Queued? && s'.broker == s.broker
            && s'.procs == s.procs[q := Sweeping(pc.status, pc.todo[1..], pc.dead, pc.since)]
  {
    hide Legal, After, Next, RowOk, ProcInv;
    KnownRows(cfg, moves);
    ResetQueuesRow(cfg, After(cfg, moves), q, e);
    OneMore(cfg, moves, Act(q, YES));
  }

  lemma ResetQueuesRow(cfg: Config, s: State, q: ProcId, e: EventId)
    requires q in s.procs && s.procs[q].Resetting? && s.procs[q].todo != [] && s.procs[q].todo[0].id == e
    requires e in s.db.rows && e in s.hist.commits && s.procs[q].status == s.db.rows[e].status
    requires s.procs[q].status in {Processing, Retrying}
    ensures var s', pc := Next(cfg, s, Act(q, YES)), s.procs[q];
            && e in s'.db.rows && s'.db.rows[e].status.Queued? && s'.broker == s.broker
            && s'.procs == s.procs[q := Sweeping(pc.status, pc.todo[1..], pc.dead, pc.since)]
  {
  }

  /** The query a new sweep makes lists `e`. */
  lemma NewSweep(cfg: Config, moves: seq<Move>, e: EventId) returns (m: Move, q: ProcId)
    requires Legal(cfg, moves) && e in After(cfg, moves).db.rows
    requires var r := After(cfg, moves).db.rows[e]; r.status.Retrying? || (r.status.Processing? && r.worker.Some?)
    ensures Legal(cfg, moves + [m])
    ensures var s, s' := After(cfg, moves), After(cfg, moves + [m]);
            && s'.db == s.db && q in s'.procs && s'.procs[q].Sweeping? && s'.procs[q].status == s.db.rows[e].status
            && Lists(s'.procs[q].status, s'.procs[q].todo, s'.procs[q].dead, e)
  {
    var s := After(cfg, moves);
    var row := s.db.rows[e];
    var run := FreshRun(s.procs);
    var todo := SnapshotExists(s.db, row.status, row.updatedAt + 1);
    m, q := Snapshot(run, row.status, row.updatedAt + 1, todo), Sweeper(run);
    OneMore(cfg, moves, m);
    hide Legal, After;
    var i :| 0 <= i < |todo| && todo[i].id == e;
    assert !NextSweepStep(row.status, todo[i].row, map[]).Skip?;
  }

  /** A row that is RETRYING, or PROCESSING under a known owner, can always be recovered. */
  lemma CanBeRecovered(cfg: Config, moves: seq<Move>, e: EventId) returns (more: seq<Move>)
    requires Legal(cfg, moves) && e in After(cfg, moves).db.rows
    requires var s := After(cfg, moves);
             var r := s.db.rows[e];
             || r.status.Retrying?
             || (r.status.Processing? && (r.worker.Some? || !NobodyResets(s, e)))
    ensures Goes(cfg, moves, more, e) && After(cfg, moves + more).db.rows[e].status.Queued?
    ensures var r := After(cfg, moves).db.rows[e];
            r.status.Retrying? || r.worker.Some? ==> !AllDelivered(After(cfg, moves + more).broker, e)
  {
    hide Legal, After, Lists;
    var s := After(cfg, moves);
    if s.db.rows[e].status.Processing? && s.db.rows[e].worker.None? {
      var q :| q in s.procs && MayReset(s.procs[q], e);
      more := SweepQueues(cfg, moves, q, e);
    } else {
      var m, q := NewSweep(cfg, moves, e);
      var rest := ListedQueues(cfg, moves + [m], q, e);
      GoesLater(cfg, moves, [m], rest, e);
      Joined(moves, [m], rest);
      more := [m] + rest;
    }
  }

  /** A holder whose calls go through records an outcome. */
  lemma HolderFinishes(cfg: Config, moves: seq<Move>, q: ProcId, e: EventId) returns (more: seq<Move>)
    requires Legal(cfg, moves) && q in After(cfg, moves).procs && Holds(After(cfg, moves).procs[q], e)
    requires e in After(cfg, moves).db.rows && After(cfg, moves).db.rows[e].status.Processing?
    ensures Goes(cfg, moves, more, e)
  {
    hide Legal, After, ProcInv;
    KnownRows(cfg, moves);
    var write := [Act(q, YES)];
    var pc := After(cfg, moves).procs[q];
    if pc.Running? {
      OneMore(cfg, moves, write[0]);
      HolderWrites(cfg, moves + write, q, e);
      GoesLater(cfg, moves, write, write, e);
      more := write + write;
    } else {
      HolderWrites(cfg, moves, q, e);
      more := write;
    }
  }

  lemma HolderWrites(cfg: Config, moves: seq<Move>, q: ProcId, e: EventId)
    requires Legal(cfg, moves) && q in After(cfg, moves).procs && Holds(After(cfg, moves).procs[q], e)
    requires !After(cfg, moves).procs[q].Running?
    requires e in After(cfg, moves).db.rows && After(cfg, moves).db.rows[e].status.Processing?
    ensures Goes(cfg, moves, [Act(q, YES)], e)
  {
    hide Legal, After, Next, ProcInv;
    KnownRows(cfg, moves);
    HolderWritesRow(cfg, After(cfg, moves), q, e);
    OneMore(cfg, moves, Act(q, YES));
  }

  lemma HolderWritesRow(cfg: Config, s: State, q: ProcId, e: EventId)
    requires q in s.procs && Holds(s.procs[q], e) && !s.procs[q].Running?
    requires e in s.db.rows && s.db.rows[e].status.Processing? && e in s.hist.commits && e !in s.db.idempotency
    ensures var s' := Next(cfg, s, Act(q, YES)); e in s'.db.rows && IsValidTransition(Processing, s'.db.rows[e].status)
  {
    hide CalculateBackoff;
  }

  lemma CanGoOn(cfg: Config, moves: seq<Move>, e: EventId) returns (more: seq<Move>)
    requires Legal(cfg, moves) && e in After(cfg, moves).db.rows && !HasStopped(After(cfg, moves), e)
    ensures Goes(cfg, moves, more, e)
  {
    hide Legal, After, LostInQueue, Holds, NobodyResets;
    var s := After(cfg, moves);
    match s.db.rows[e].status {
      case Received => more := HandlerQueues(cfg, moves, e);
      case Queued => more := CanBeClaimed(cfg, moves, e);
      case Retrying => more := CanBeRecovered(cfg, moves, e);
      case Processing =>
        if !NobodyHolds(s, e) {
          var q :| q in s.procs && Holds(s.procs[q], e);
          more := HolderFinishes(cfg, moves, q, e);
        } else {
          more := CanBeRecovered(cfg, moves, e);
        }
    }
  }

  // ---- The theorems ----

  /** The row is the same in every continuation of the run. */
  ghost predicate FrozenFrom(cfg: Config, moves: seq<Move>, e: EventId)
    requires Legal(cfg, moves) && e in After(cfg, moves).db.rows
  {
    forall more | Legal(cfg, moves + more) ::
      e in After(cfg, moves + more).db.rows && After(cfg, moves + more).db.rows[e] == After(cfg, moves).db.rows[e]
  }

  /** In every run: a row never changes again if and only if its event is stopped. */
  lemma StopsExactlyWhen(cfg: Config, moves: seq<Move>, e: EventId)
    requires Legal(cfg, moves) && e in After(cfg, moves).db.rows
    ensures FrozenFrom(cfg, moves, e) <==> HasStopped(After(cfg, moves), e)
  {
    hide Legal, After, HasStopped;
    if HasStopped(After(cfg, moves), e) {
      forall more | Legal(cfg, moves + more)
        ensures e in After(cfg, moves + more).db.rows
        ensures After(cfg, moves + more).db.rows[e] == After(cfg, moves).db.rows[e]
      {
        StoppedForever(cfg, moves, more, e);
        StoppedRowsExist(After(cfg, moves + more), e);
      }
    } else {
      var more := CanGoOn(cfg, moves, e);
    }
  }

  lemma StoppedRowsExist(s: State, e: EventId)
    requires HasStopped(s, e)
    ensures e in s.db.rows
  {
  }

  /** A RECEIVED row is stuck exactly when its handler has ended, whatever became of the copy it published. */
  lemma ReceivedIsStuckExactlyWhen(cfg: Config, moves: seq<Move>, e: EventId)
    requires Legal(cfg, moves) && e in After(cfg, moves).db.rows && After(cfg, moves).db.rows[e].status.Received?
    ensures FrozenFrom(cfg, moves, e) <==> !Active(After(cfg, moves), Handler(e))
  {
    hide Legal, After, FrozenFrom;
    StopsExactlyWhen(cfg, moves, e);
  }

  /**
   A QUEUED event is lost, in that nothing ever happens to its row again, exactly when every copy has been delivered,
   no process stands before claiming one and none may publish another; otherwise it can still be claimed.
   */
  lemma QueuedIsLostExactlyWhen(cfg: Config, moves: seq<Move>, e: EventId)
    requires Legal(cfg, moves) && e in After(cfg, moves).db.rows && After(cfg, moves).db.rows[e].status.Queued?
    ensures FrozenFrom(cfg, moves, e) <==> LostInQueue(After(cfg, moves), e)
    ensures !LostInQueue(After(cfg, moves), e) ==>
              exists more :: Legal(cfg, moves + more) && e in After(cfg, moves + more).db.rows
                             && After(cfg, moves + more).db.rows[e].status.Processing?
  {
    hide Legal, After, FrozenFrom, LostInQueue;
    StopsExactlyWhen(cfg, moves, e);
    if !LostInQueue(After(cfg, moves), e) {
      var more := CanBeClaimed(cfg, moves, e);
    }
  }

  /** The copy of the last handoff was claimed before the status write, or it was delivered and never claimed at all. */
  lemma HowAnEventIsLost(cfg: Config, moves: seq<Move>, e: EventId)
    requires Legal(cfg, moves) && LostInQueue(After(cfg, moves), e)
    ensures var s := After(cfg, moves);
            && e in s.hist.handoff && CopyOk(s.broker.log, e, s.hist.handoff[e])
            && var r := s.hist.handoff[e];
               if e in s.hist.early then r in s.hist.found
               else s.broker.IsDelivered(r) && r in s.broker.pending && r !in s.hist.found && NobodyClaims(s, e)
  {
    hide Legal, After;
    HandoffCopiesAreKept(cfg, moves, e);
  }

  /**
   A PROCESSING event that nobody holds is abandoned for good exactly when its row names no owner and no sweep still
   lists it with one; otherwise a sweep can put it back to QUEUED.
   */
  lemma ProcessingIsAbandonedExactlyWhen(cfg: Config, moves: seq<Move>, e: EventId)
    requires Legal(cfg, moves) && e in After(cfg, moves).db.rows && After(cfg, moves).db.rows[e].status.Processing?
    requires NobodyHolds(After(cfg, moves), e)
    ensures var s := After(cfg, moves);
            FrozenFrom(cfg, moves, e) <==> s.db.rows[e].worker.None? && NobodyResets(s, e)
    ensures !FrozenFrom(cfg, moves, e) ==>
              exists more :: Legal(cfg, moves + more) && e in After(cfg, moves + more).db.rows
                             && After(cfg, moves + more).db.rows[e].status.Queued?
  {
    hide Legal, After, FrozenFrom, NobodyResets, NobodyHolds;
    StopsExactlyWhen(cfg, moves, e);
    if !FrozenFrom(cfg, moves, e) {
      var more := CanBeRecovered(cfg, moves, e);
    }
  }

  /** A RETRYING event is never stuck: the next sweep can queue it, whatever became of its retry goroutine. */
  lemma RetryingIsNeverStuck(cfg: Config, moves: seq<Move>, e: EventId)
    requires Legal(cfg, moves) && e in After(cfg, moves).db.rows && After(cfg, moves).db.rows[e].status.Retrying?
    ensures exists more :: Legal(cfg, moves + more) && e in After(cfg, moves + more).db.rows
                           && After(cfg, moves + more).db.rows[e].status.Queued?
  {
    hide Legal, After;
    var more := CanBeRecovered(cfg, moves, e);
  }
}
