/**
 The code of a worker's job loop and of its retry goroutines. Every call is a real call on the repository or the
 queue, and each method is proved to leave its process at the program counter the protocol gives it: a call that
 is skipped, swapped or added leaves the runs of the protocol.
 */
module Workers {
  import opened Events
  import opened EventStore
  import opened Streams
  import opened Backoff
  import opened Protocol
  import opened ProtocolInvariant
  import opened ProtocolSteps
  import opened Runtime
  import opened Settlements

  /** What `Consume` tells the job loop; `Killed` stands for a process that never gets to hear it. */
  datatype Consumed = Got(job: Job) | Empty | Broken | Cancelled | Killed

  /** How a job ended, as far as its worker knows. */
  datatype JobEnd =
    | Discarded   // the claim was refused
    | Unsure      // a call was not confirmed
    | Succeeded   // the result was recorded
    | Repeated    // another worker had recorded one
    | Overtaken   // the row had moved on before the result could be recorded
    | Postponed   // the failure was recorded, and a retry started
    | GivenUp     // the failure was recorded, and was the last
    | Unrecorded  // the row had moved on before the failure could be recorded

  /** The reports on one event. */
  function ReportsOf(rs: seq<Report>, e: EventId): seq<Report> {
    if rs == [] then []
    else ReportsOf(rs[..|rs| - 1], e) + if rs[|rs| - 1].event == e then [rs[|rs| - 1]] else []
  }

  /** Of the reports on its event, exactly `r` was made. */
  ghost predicate GainsOnly(before: seq<Report>, after: seq<Report>, r: Report) {
    before <= after && ReportsOf(before, r.event) == [] && ReportsOf(after, r.event) == [r]
  }

  lemma {:induction false} NoReportsOf(rs: seq<Report>, e: EventId)
    requires !Reported(rs, e)
    ensures ReportsOf(rs, e) == []
  {
    if rs != [] {
      assert rs[|rs| - 1].event != e;
      assert forall i | 0 <= i < |rs| - 1 :: rs[..|rs| - 1][i] == rs[i];
      NoReportsOf(rs[..|rs| - 1], e);
    }
  }

  lemma {:induction false} OneReportOf(rs: seq<Report>, r: Report)
    requires r in rs && forall i, j | 0 <= i < j < |rs| :: rs[i].event != rs[j].event
    ensures ReportsOf(rs, r.event) == [r]
  {
    var n := |rs| - 1;
    var rest := rs[..n];
    assert forall i | 0 <= i < n :: rest[i] == rs[i];
    if rs[n] == r {
      NoReportsOf(rest, r.event);
    } else {
      var i :| 0 <= i < |rs| && rs[i] == r;
      assert rest[i] == r;
      OneReportOf(rest, r);
      assert [r] + [] == [r];
    }
  }

  /** A report made since on an event that had none is the only one. */
  lemma OnlyReport(cfg: Config, s: State, before: seq<Report>, r: Report)
    requires Inv(cfg, s) && !Reported(before, r.event)
    ensures r in s.hist.counted && before <= s.hist.counted ==> GainsOnly(before, s.hist.counted, r)
    ensures r in s.hist.announced && before <= s.hist.announced ==> GainsOnly(before, s.hist.announced, r)
  {
    NoReportsOf(before, r.event);
    if r in s.hist.counted {
      OneReportOf(s.hist.counted, r);
    }
    if r in s.hist.announced {
      OneReportOf(s.hist.announced, r);
    }
  }

  /** What has been reported stays reported. */
  lemma StillSo(a: Books, b: Books, r: Report)
    requires Onward(a, b)
    ensures r in a.counted ==> r in b.counted
    ensures r in a.announced ==> r in b.announced
  {
  }

  lemma StillAcked(a: Books, b: Books, receipt: nat)
    requires Onward(a, b) && receipt < |a.broker.log| && a.broker.IsDelivered(receipt)
    ensures receipt in b.broker.pending ==> receipt in a.broker.pending
  {
  }

  lemma ReportedOnce(sys: System, before: Books, r: Report)
    requires sys.Valid() && Onward(before, sys.Ledger())
    requires !Reported(before.counted, r.event) && !Reported(before.announced, r.event)
    ensures r in sys.hist.counted ==> GainsOnly(before.counted, sys.hist.counted, r)
    ensures r in sys.hist.announced ==> GainsOnly(before.announced, sys.hist.announced, r)
  {
    hide Legal, After, Inv, Reported, GainsOnly;
    RunsKeepInv(sys.cfg, sys.moves);
    OnlyReport(sys.cfg, sys.Current(), before.counted, r);
    OnlyReport(sys.cfg, sys.Current(), before.announced, r);
  }

  /** A job wound up since a later moment was wound up since an earlier one. */
  lemma WoundUpSince(w: Worker, job: Job, again: Job, verdict: Verdict, before: Books, known: Books, from: nat, n: nat)
    requires Onward(before, known) && from <= n && again.event == job.event && again.receipt == job.receipt
    ensures w.WoundUp(again, verdict, known, n) ==> w.WoundUp(job, verdict, before, from)
  {
    if w.WoundUp(again, verdict, known, n) {
      EarlierHasNone(before.counted, known.counted, job.event);
      EarlierHasNone(before.announced, known.announced, job.event);
    }
  }

  lemma {:induction false} EarlierHasNone(before: seq<Report>, known: seq<Report>, e: EventId)
    requires before <= known && ReportsOf(known, e) == []
    ensures ReportsOf(before, e) == []
    decreases |known|
  {
    if before == known {
    } else {
      EarlierHasNone(before, known[..|known| - 1], e);
    }
  }

  /** What the protocol makes of a read. */
  lemma ReadMade(cfg: Config, s: State, p: ProcId, c: Choice)
    requires p in s.procs && s.procs[p].Polling? && p.Worker? && Enabled(s, Act(p, c))
    ensures var t, s' := s.procs[p].stream, Next(cfg, s, Act(p, c));
            var i := s.broker.Next(t);
            && s'.db == s.db && p in s'.procs
            && s'.broker == (if c.reply.Refused? then s.broker else s.broker.Deliver(t))
            && s'.procs[p] == if !c.reply.Delivered? then Polling(High)
                              else if i == |s.broker.log| then Polling(Following(t))
                              else Claiming(JobOf(i, s.broker.log[i]))
  {
    hide NextFrom;
  }

  /** What the protocol makes of a retry's timer. */
  lemma TimerEnds(cfg: Config, s: State, p: ProcId, job: Job, c: Choice)
    requires p in s.procs && s.procs[p] == Waiting(job) && Enabled(s, Act(p, c))
    ensures var s' := Next(cfg, s, Act(p, c));
            && s'.db == s.db && p in s'.procs
            && s'.broker == (if c.flag && !c.reply.Refused? then s.broker.Add(MessageOf(job)) else s.broker)
            && s'.procs[p] == if c.flag && c.reply.Delivered? then Releasing(job, |s.broker.log|) else Gone
  {
  }

  /** What the protocol makes of a retry's status write. */
  lemma RetryQueues(cfg: Config, s: State, p: ProcId, job: Job, copy: nat, c: Choice)
    requires p in s.procs && s.procs[p] == Requeuing(job, copy) && Enabled(s, Act(p, c))
    requires s.hist.commits.Keys == s.db.rows.Keys
    ensures var s', tx := Next(cfg, s, Act(p, c)), UpdateStatusTx(s.db, job.event, Retrying, Queued, c.now);
            && s'.db == EventRepo.Effect(s.db, tx, c.reply) && s'.broker == s.broker
            && p in s'.procs && s'.procs[p] == Gone
            && (tx.err.Ok? && !c.reply.Refused? ==>
                  job.event in s'.hist.handoff && s'.hist.handoff[job.event] == copy)
  {
  }

  /** What the protocol makes of a claim. */
  lemma ClaimRecorded(cfg: Config, s: State, p: ProcId, job: Job, c: Choice)
    requires p in s.procs && s.procs[p] == Claiming(job) && p.Worker? && Enabled(s, Act(p, c))
    requires s.hist.commits.Keys == s.db.rows.Keys
    ensures var tx := AssignTx(s.db, job.event, OwnerOf(cfg, p.name), Queued, Processing, c.now);
            var s', err := Next(cfg, s, Act(p, c)), EventRepo.Answer(tx, c.reply);
            && s'.db == EventRepo.Effect(s.db, tx, c.reply) && s'.broker == s.broker && p in s'.procs
            && s'.procs[p] == (if err.Ok? then Running(job)
                               else if err.InvalidTransition? then Closing(job, Conflict, Chores(Conflict))
                               else Polling(High))
  {
  }

  /** What the protocol makes of a recorded failure. */
  lemma FailureRecorded(cfg: Config, s: State, p: ProcId, job: Job, c: Choice)
    requires p in s.procs && s.procs[p] == Failing(job) && p.Worker? && Enabled(s, Act(p, c))
    requires s.hist.commits.Keys == s.db.rows.Keys == s.hist.delays.Keys
    ensures var tx, s' := RecordFailureTx(s.db, job.event, cfg.maxAttempts, c.now), Next(cfg, s, Act(p, c));
            var again := job.(attempt := job.attempt + 1);
            && s'.db == EventRepo.Effect(s.db, tx, c.reply) && s'.broker == s.broker && p in s'.procs
            && (!EventRepo.Answer(tx, c.reply).Ok? ==> s'.procs[p] == Polling(High))
            && (EventRepo.Answer(tx, c.reply).Ok? ==>
                  job.event in s'.db.rows &&
                  if s'.db.rows[job.event].status.Failed? then s'.procs[p]
                      == Closing(again, Exhausted, Chores(Exhausted))
                  else
                    var task := Task(job.event, s'.db.rows[job.event].attempt);
                    && s'.procs[p] == Polling(High) && task in s'.procs && s'.procs[task] == Waiting(again)
                    && job.event in s'.hist.delays
                    && s'.hist.delays[job.event]
                       == s.hist.delays[job.event] + [CalculateBackoff(again.attempt, cfg.baseDelay, c.jitter)])
  {
    hide CalculateBackoff;
  }

  /** What the protocol makes of a finalization. */
  lemma FinalizationRecorded(cfg: Config, s: State, p: ProcId, job: Job, c: Choice)
    requires p in s.procs && s.procs[p] == Finalizing(job) && p.Worker? && Enabled(s, Act(p, c))
    requires s.hist.commits.Keys == s.db.rows.Keys
    ensures var tx, s' := FinalizeTx(s.db, job.event, RESULT_HASH, c.now), Next(cfg, s, Act(p, c));
            var err := EventRepo.Answer(tx, c.reply);
            && s'.db == EventRepo.Effect(s.db, tx, c.reply) && s'.broker == s.broker && p in s'.procs
            && s'.procs[p] == (if err.Ok? then Closing(job, Success, Chores(Success))
                               else if err.AlreadyFinalized? then Closing(job, Duplicate, Chores(Duplicate))
                               else Polling(High))
  {
  }

  class Worker {
    const sys: System
    const id: string

    constructor (sys: System, id: string)
      ensures this.sys == sys && this.id == id
    {
      this.sys, this.id := sys, id;
    }

    function Me(): ProcId {
      ProcId.Worker(id)
    }

    ghost predicate At(pc: Proc)
      reads sys
    {
      sys.Stands(Me(), pc)
    }

    /** Killed between two steps, or returned. */
    ghost predicate Ended()
      reads sys
    {
      sys.Ended(Me())
    }

    /** The job is a delivered copy of its event, not acknowledged yet. */
    ghost predicate Holds(job: Job)
      reads sys.queue
    {
      && job.receipt < |sys.queue.log| && job.receipt in sys.queue.pending
      && sys.queue.log[job.receipt] == Message(job.event, job.priority, job.attempt)
    }

    /**
     The job has been reported as `verdict`, once and nowhere before, and its copy is acknowledged unless a call since
     the `from`-th move was refused.
     */
    ghost predicate WoundUp(job: Job, verdict: Verdict, before: Books, from: nat)
      reads sys, sys.queue
    {
      && GainsOnly(before.counted, sys.hist.counted, Report(job.event, verdict))
      && GainsOnly(before.announced, sys.hist.announced, Report(job.event, verdict))
      && (sys.RefusedSince(from, Me()) || job.receipt !in sys.queue.pending)
    }

    // ---- Consuming ----

    /** The next unread entry of one stream. */
    method Probe(stream: Stream) returns (r: Consumed)
      requires sys.Valid() && At(Polling(stream))
      modifies sys, sys.repo, sys.queue
      ensures sys.Valid() && old(sys.moves) <= sys.moves && |sys.script| <= |old(sys.script)|
      ensures match r
              case Got(job) => At(Claiming(job))
              case Empty => At(Polling(Following(stream)))
              case Broken => At(Polling(High))
              case Killed => Ended() && Me() in sys.killed
              case Cancelled => false
      ensures !r.Killed? ==> |sys.script| < |old(sys.script)| && sys.Acted(Me())
      ensures r.Got? ==> Holds(r.job) && stream == if r.job.priority == 10 then High
                                                   else if r.job.priority == 5 then Normal else Low
      ensures r.Broken? <==> !r.Killed? && !sys.last.choice.reply.Delivered?
    {
      hide Legal, After, Next, NextFrom, RedisQueue.Valid;
      var alive, turn := sys.Wait(Me());
      if !alive {
        return Killed;
      }
      var before := sys.Current();
      ReadMade(sys.cfg, before, Me(), turn.choice);
      var found := sys.queue.ReadGroup(stream, turn.choice.reply);
      sys.Enter(before, Act(Me(), turn.choice));
      if !turn.choice.reply.Delivered? {
        return Broken;
      }
      match found
      case None => return Empty;
      case Some(x) => return Got(JobOf(x.id, x.msg));
    }

    /** Rounds over the three streams in priority order until there is a message, an error or a shutdown. */
    method Consume() returns (r: Consumed)
      requires sys.Valid() && At(Polling(High))
      modifies sys, sys.repo, sys.queue
      ensures sys.Valid() && old(sys.moves) <= sys.moves && |sys.script| <= |old(sys.script)|
      ensures match r
              case Got(job) => At(Claiming(job))
              case Empty => false
              case Broken => At(Polling(High))
              case Killed => Ended() && Me() in sys.killed
              case Cancelled => At(Polling(High)) && sys.Cancelled()
      ensures r.Got? ==> Holds(r.job)
      ensures r.Got? || r.Broken? ==> |sys.script| < |old(sys.script)|
    {
      hide System.Valid, System.Cancelled, System.Stands, System.Ended;
      while true
        invariant sys.Valid() && old(sys.moves) <= sys.moves && |sys.script| <= |old(sys.script)|
        invariant At(Polling(High))
        decreases |sys.script|
      {
        if sys.Cancelled() {
          return Cancelled;
        }
        var order, k := [High, Normal, Low], 0;
        ghost var left := |sys.script|;
        while k < |order|
          invariant 0 <= k <= |order|
          invariant sys.Valid() && old(sys.moves) <= sys.moves && |sys.script| + k <= left
          invariant At(Polling(if k < |order| then order[k] else High))
        {
          r := Probe(order[k]);
          if !r.Empty? {
            return r;
          }
          k := k + 1;
        }
        if sys.Cancelled() {
          return Cancelled;
        }
      }
    }

    // ---- One job ----

    /** The claim: it succeeds exactly on a QUEUED row, which then is this worker's, and is refused on any other. */
    method Assign(job: Job) returns (alive: bool, err: StoreError)
      requires sys.Valid() && At(Claiming(job))
      modifies sys, sys.repo, sys.queue
      ensures sys.Valid() && old(sys.moves) <= sys.moves && |sys.script| <= |old(sys.script)|
      ensures alive ==> At(if err.Ok? then Running(job)
                           else if err.InvalidTransition? then Closing(job, Conflict, Chores(Conflict))
                           else Polling(High))
      ensures alive ==>
          var row, was := sys.repo.events, sys.Before().db.rows;
          && job.event in was && job.event in row
          && (err.Infra? <==> !sys.last.choice.reply.Delivered?)
          && (err.Ok? <==> sys.last.choice.reply.Delivered? && was[job.event].status.Queued?)
          && (err.InvalidTransition? <==> sys.last.choice.reply.Delivered? && !was[job.event].status.Queued?)
          && (err.Ok? ==>
                var r := was[job.event];
                row[job.event] == Row(r.priority, Processing, r.attempt, if id == "" then None else sys.cfg.parse(id),
                                      sys.last.choice.now, r.completedAt))
          && (err.InvalidTransition? ==> row == was)
      ensures if alive then sys.Acted(Me()) else Ended() && Me() in sys.killed
      ensures Onward(old(sys.Ledger()), sys.Ledger())
    {
      hide Legal, After, Next, RedisQueue.Valid, Inv, Onward, AssignTx;
      var turn;
      err := Infra;
      alive, turn := sys.Wait(Me());
      if alive {
        var before := sys.Current();
        RunsKeepInv(sys.cfg, sys.moves);
        JobIsKnown(sys.cfg, before, Me());
        ClaimRecorded(sys.cfg, before, Me(), job, turn.choice);
        err := sys.repo.AssignEvent(
          job.event, OwnerOf(sys.cfg, id), Queued, Processing, turn.choice.now, turn.choice.reply);
        sys.Enter(before, Act(Me(), turn.choice));
        OnwardTrans(old(sys.Ledger()), BooksOf(before), sys.Ledger());
      }
    }

    /** The processor runs to its end even during a shutdown; what it answers is up to it. */
    method Process(job: Job) returns (alive: bool, ok: bool)
      requires sys.Valid() && At(Running(job))
      modifies sys, sys.repo, sys.queue
      ensures sys.Valid() && old(sys.moves) <= sys.moves && |sys.script| <= |old(sys.script)|
      ensures alive ==> At(if ok then Finalizing(job) else Failing(job))
      ensures if alive then sys.Acted(Me()) && ok == sys.last.choice.flag else Ended() && Me() in sys.killed
      ensures Onward(old(sys.Ledger()), sys.Ledger())
    {
      hide Legal, After, NextFrom, RedisQueue.Valid, Onward;
      var turn;
      alive, turn := sys.Wait(Me());
      ok := turn.choice.flag;
      if alive {
        var before := sys.Current();
        sys.Enter(before, Act(Me(), turn.choice));
        OnwardTrans(old(sys.Ledger()), BooksOf(before), sys.Ledger());
      }
    }

    /** Recording the result: done exactly on a PROCESSING row, and a repetition exactly on a COMPLETED one. */
    method Finalize(job: Job) returns (alive: bool, err: StoreError)
      requires sys.Valid() && At(Finalizing(job))
      modifies sys, sys.repo, sys.queue
      ensures sys.Valid() && old(sys.moves) <= sys.moves && |sys.script| <= |old(sys.script)|
      ensures alive ==> At(if err.Ok? then Closing(job, Success, Chores(Success))
                           else if err.AlreadyFinalized? then Closing(job, Duplicate, Chores(Duplicate))
                           else Polling(High))
      ensures alive ==>
          var row, was := sys.repo.events, sys.Before().db.rows;
          && job.event in was && job.event in row
          && (err.Infra? <==> !sys.last.choice.reply.Delivered?)
          && (err.Ok? <==> sys.last.choice.reply.Delivered? && was[job.event].status.Processing?)
          && (err.AlreadyFinalized? <==> sys.last.choice.reply.Delivered? && was[job.event].status.Completed?)
          && !err.NotFound?
          && (err.Ok? ==>
                var r := was[job.event];
                && row[job.event] == Row(r.priority, Completed, r.attempt, r.worker, sys.last.choice.now,
                                         Some(sys.last.choice.now))
                && job.event in sys.repo.idempotency
                && sys.repo.idempotency[job.event]
                   == "a38c4b12759e669bc01a742880c9261a8f9024f0c4369e8b7f8df1cb52fc4cf2")
          && (!err.Ok? && !err.Infra? ==> row == was)
      ensures alive && err.Ok? ==>
          !Reported(sys.hist.counted, job.event) && !Reported(sys.hist.announced, job.event)
      ensures if alive then sys.Acted(Me()) else Ended() && Me() in sys.killed
      ensures Onward(old(sys.Ledger()), sys.Ledger())
    {
      hide Legal, After, Next, RedisQueue.Valid, FinalizeTx, Inv, Onward, Reported;
      var turn;
      err := Infra;
      alive, turn := sys.Wait(Me());
      if alive {
        var before := sys.Current();
        RunsKeepInv(sys.cfg, sys.moves);
        JobIsKnown(sys.cfg, before, Me());
        FinalizationRecorded(sys.cfg, before, Me(), job, turn.choice);
        NothingReported(sys.cfg, before, Me(), turn.choice);
        err := sys.repo.FinalizeEvent(job.event, RESULT_HASH, turn.choice.now, turn.choice.reply);
        sys.Enter(before, Act(Me(), turn.choice));
        OnwardTrans(old(sys.Ledger()), BooksOf(before), sys.Ledger());
      }
    }

    /** Records the failure; a row left RETRYING has its retry goroutine started and its backoff delay scheduled. */
    method Record(job: Job) returns (alive: bool, next: Status, err: StoreError, draw: real)
      requires sys.Valid() && At(Failing(job))
      modifies sys, sys.repo, sys.queue
      ensures sys.Valid() && old(sys.moves) <= sys.moves && |sys.script| <= |old(sys.script)|
      ensures alive ==>
          var again := job.(attempt := job.attempt + 1);
          if !err.Ok? then At(Polling(High))
          else if next.Failed? then At(Closing(again, Exhausted, Chores(Exhausted)))
          else At(Polling(High)) && sys.Scheduled(again, CalculateBackoff(again.attempt, sys.cfg.baseDelay, draw))
      ensures alive ==>
          var row, was := sys.repo.events, sys.Before().db.rows;
          && job.event in was && job.event in row
          && (err.Infra? <==> !sys.last.choice.reply.Delivered?)
          && (err.Ok? <==> sys.last.choice.reply.Delivered? && was[job.event].status.Processing?)
          && !err.NotFound? && !err.AlreadyFinalized?
          && (err.Ok? ==>
                var r, now := was[job.event], sys.last.choice.now;
                && next == (if r.attempt + 1 < sys.cfg.maxAttempts then Retrying else Failed)
                && row[job.event] == Row(r.priority, next, r.attempt + 1, r.worker, now,
                                         if next.Failed? then Some(now) else r.completedAt))
          && (err.InvalidTransition? ==> row == was)
      ensures alive && err.Ok? ==>
          !Reported(sys.hist.counted, job.event) && !Reported(sys.hist.announced, job.event)
      ensures if alive then sys.Acted(Me()) && draw == sys.last.choice.jitter else Ended() && Me() in sys.killed
      ensures Onward(old(sys.Ledger()), sys.Ledger())
    {
      hide Legal, After, Next, RedisQueue.Valid, CalculateBackoff, RecordFailureTx, Inv, Onward, Reported, Chores;
      var turn;
      next, err := Processing, Infra;
      alive, turn := sys.Wait(Me());
      draw := turn.choice.jitter;
      if alive {
        var before := sys.Current();
        RunsKeepInv(sys.cfg, sys.moves);
        JobIsKnown(sys.cfg, before, Me());
        FailureRecorded(sys.cfg, before, Me(), job, turn.choice);
        NothingReported(sys.cfg, before, Me(), turn.choice);
        next, err := sys.repo.RecordFailure(job.event, sys.cfg.maxAttempts, turn.choice.now, turn.choice.reply);
        sys.Enter(before, Act(Me(), turn.choice));
        OnwardTrans(old(sys.Ledger()), BooksOf(before), sys.Ledger());
      }
    }

    /** Nothing depends on whether the acknowledgement got through. */
    method Ack(job: Job, verdict: Verdict, chores: seq<Chore>) returns (alive: bool)
      requires sys.Valid() && At(Closing(job, verdict, chores)) && chores != [] && chores[0].AckMessage?
      modifies sys, sys.repo, sys.queue
      ensures sys.Valid() && old(sys.moves) <= sys.moves && |sys.script| <= |old(sys.script)|
      ensures alive ==> At(if |chores| == 1 then Polling(High) else Closing(job, verdict, chores[1..]))
      ensures alive ==> sys.RefusedSince(|old(sys.moves)|, Me()) || job.receipt !in sys.queue.pending
      ensures alive ==> job.receipt < |sys.queue.log| && sys.queue.Server().IsDelivered(job.receipt)
      ensures if alive then sys.Acted(Me()) else Ended() && Me() in sys.killed
      ensures Onward(old(sys.Ledger()), sys.Ledger())
    {
      hide Legal, After, Next, RedisQueue.Valid, Inv, Onward, Reported, Terminal, Chores;
      var turn;
      alive, turn := sys.Wait(Me());
      if alive {
        var before := sys.Current();
        RunsKeepInv(sys.cfg, sys.moves);
        JobIsKnown(sys.cfg, before, Me());
        ChoreEffect(sys.cfg, before, Me(), turn.choice);
        var _ := sys.queue.Ack(job.receipt, turn.choice.reply);
        sys.Enter(before, Act(Me(), turn.choice));
        OnwardTrans(old(sys.Ledger()), BooksOf(before), sys.Ledger());
        assert sys.moves[|sys.moves| - 1] == Act(Me(), turn.choice);
      }
    }

    /** A metric increment or a broadcast. */
    method Tell(job: Job, verdict: Verdict, chores: seq<Chore>) returns (alive: bool)
      requires sys.Valid() && At(Closing(job, verdict, chores)) && chores != [] && !chores[0].AckMessage?
      modifies sys, sys.repo, sys.queue
      ensures sys.Valid() && old(sys.moves) <= sys.moves && |sys.script| <= |old(sys.script)|
      ensures alive ==> At(if |chores| == 1 then Polling(High) else Closing(job, verdict, chores[1..]))
      ensures alive ==>
          Report(job.event, verdict) in if chores[0].Announce? then sys.hist.announced else sys.hist.counted
      ensures if alive then sys.Acted(Me()) else Ended() && Me() in sys.killed
      ensures Onward(old(sys.Ledger()), sys.Ledger())
    {
      hide Legal, After, Next, RedisQueue.Valid, Onward;
      var turn;
      alive, turn := sys.Wait(Me());
      if alive {
        var before := sys.Current();
        ChoreEffect(sys.cfg, before, Me(), turn.choice);
        sys.Enter(before, Act(Me(), turn.choice));
        OnwardTrans(old(sys.Ledger()), BooksOf(before), sys.Ledger());
      }
    }

    /** A last failure is counted, acknowledged and announced, in this order. */
    method GiveUp(job: Job) returns (alive: bool)
      requires sys.Valid() && At(Closing(job, Exhausted, Chores(Exhausted)))
      requires !Reported(sys.hist.counted, job.event) && !Reported(sys.hist.announced, job.event)
      modifies sys, sys.repo, sys.queue
      ensures sys.Valid() && old(sys.moves) <= sys.moves && |sys.script| <= |old(sys.script)|
      ensures if alive then At(Polling(High)) else Ended() && Me() in sys.killed
      ensures alive ==> WoundUp(job, Exhausted, old(sys.Ledger()), |old(sys.moves)|)
      ensures Onward(old(sys.Ledger()), sys.Ledger())
    {
      hide System.Valid, System.Stands, System.Ended, Onward, GainsOnly, Reported;
      assert [CountOutcome, AckMessage, Announce][1..] == [AckMessage, Announce];
      assert [AckMessage, Announce][1..] == [Announce];
      alive := Tell(job, Exhausted, [CountOutcome, AckMessage, Announce]);
      if alive {
        ghost var told := sys.Ledger();
        alive := Ack(job, Exhausted, [AckMessage, Announce]);
        OnwardTrans(old(sys.Ledger()), told, sys.Ledger());
        ghost var acked := sys.Ledger();
        if alive {
          alive := Tell(job, Exhausted, [Announce]);
          OnwardTrans(old(sys.Ledger()), acked, sys.Ledger());
          OnwardTrans(told, acked, sys.Ledger());
          StillSo(told, sys.Ledger(), Report(job.event, Exhausted));
          StillAcked(acked, sys.Ledger(), job.receipt);
          ReportedOnce(sys, old(sys.Ledger()), Report(job.event, Exhausted));
        }
      }
    }

    /** A success is acknowledged, counted and announced, in this order. */
    method Succeed(job: Job) returns (alive: bool)
      requires sys.Valid() && At(Closing(job, Success, Chores(Success)))
      requires !Reported(sys.hist.counted, job.event) && !Reported(sys.hist.announced, job.event)
      modifies sys, sys.repo, sys.queue
      ensures sys.Valid() && old(sys.moves) <= sys.moves && |sys.script| <= |old(sys.script)|
      ensures if alive then At(Polling(High)) else Ended() && Me() in sys.killed
      ensures alive ==> WoundUp(job, Success, old(sys.Ledger()), |old(sys.moves)|)
      ensures Onward(old(sys.Ledger()), sys.Ledger())
    {
      hide System.Valid, System.Stands, System.Ended, Onward, GainsOnly, Reported;
      assert [AckMessage, CountOutcome, Announce][1..] == [CountOutcome, Announce];
      assert [CountOutcome, Announce][1..] == [Announce];
      alive := Ack(job, Success, [AckMessage, CountOutcome, Announce]);
      if alive {
        ghost var acked := sys.Ledger();
        alive := Tell(job, Success, [CountOutcome, Announce]);
        OnwardTrans(old(sys.Ledger()), acked, sys.Ledger());
        ghost var told := sys.Ledger();
        if alive {
          alive := Tell(job, Success, [Announce]);
          OnwardTrans(old(sys.Ledger()), told, sys.Ledger());
          OnwardTrans(acked, told, sys.Ledger());
          StillSo(told, sys.Ledger(), Report(job.event, Success));
          StillAcked(acked, sys.Ledger(), job.receipt);
          ReportedOnce(sys, old(sys.Ledger()), Report(job.event, Success));
        }
      }
    }

    /** `delay` is the backoff of the retry that was started, if one was. */
    method HandleFailure(job: Job) returns (alive: bool, end: JobEnd, delay: Option<int>)
      requires sys.Valid() && At(Failing(job))
      modifies sys, sys.repo, sys.queue
      ensures sys.Valid() && old(sys.moves) <= sys.moves && |sys.script| <= |old(sys.script)|
      ensures if alive then At(Polling(High)) else Ended() && Me() in sys.killed
      ensures alive ==> end.Unsure? || end.Postponed? || end.GivenUp? || end.Unrecorded?
      ensures alive && end.Unsure? ==> sys.Acted(Me()) && !sys.last.choice.reply.Delivered?
      ensures alive && end.Unrecorded? ==>
          job.event in sys.repo.events && !sys.repo.events[job.event].status.Processing?
      ensures alive && end.Postponed? ==>
          && job.event in sys.repo.events && sys.repo.events[job.event].status.Retrying?
          && sys.repo.events[job.event].attempt < sys.cfg.maxAttempts
      ensures alive && end.GivenUp? ==> WoundUp(job, Exhausted, old(sys.Ledger()), |old(sys.moves)|)
      ensures delay.Some? ==> alive && sys.Scheduled(job.(attempt := job.attempt + 1), delay.value)
      ensures delay.Some? <==> alive && end.Postponed?
      ensures Onward(old(sys.Ledger()), sys.Ledger())
    {
      hide System.Valid, System.Stands, System.Ended, System.Scheduled, CalculateBackoff, Onward, Reported, WoundUp;
      delay, end := None, Unsure;
      var next, err, draw;
      alive, next, err, draw := Record(job);
      if !alive || !err.Ok? {
        end := if err.InvalidTransition? then Unrecorded else Unsure;
        return;
      }
      var again := job.(attempt := job.attempt + 1);
      if next.Failed? {
        end := GivenUp;
        ghost var known, n := sys.Ledger(), |sys.moves|;
        alive := GiveUp(again);
        OnwardTrans(old(sys.Ledger()), known, sys.Ledger());
        WoundUpSince(this, job, again, Exhausted, old(sys.Ledger()), known, |old(sys.moves)|, n);
        return;
      }
      end := Postponed;
      delay := Some(CalculateBackoff(again.attempt, sys.cfg.baseDelay, draw));
    }

    /**
     One job, from the claim to the next poll. Unless a call was not confirmed the worker knows how it ended: a recorded
     result or last failure has then been reported exactly once, and the copy of a job that was discarded, repeated,
     recorded or given up has been acknowledged, unless that call was refused.
     */
    method HandleJob(job: Job) returns (alive: bool, end: JobEnd)
      requires sys.Valid() && At(Claiming(job))
      modifies sys, sys.repo, sys.queue
      ensures sys.Valid() && old(sys.moves) <= sys.moves && |sys.script| <= |old(sys.script)|
      ensures if alive then At(Polling(High)) else Ended() && Me() in sys.killed
      ensures alive && end.Unsure? ==> sys.Acted(Me()) && !sys.last.choice.reply.Delivered?
      ensures alive && end.Succeeded? ==> WoundUp(job, Success, old(sys.Ledger()), |old(sys.moves)|)
      ensures alive && end.GivenUp? ==> WoundUp(job, Exhausted, old(sys.Ledger()), |old(sys.moves)|)
      ensures alive && (end.Discarded? || end.Repeated?) ==>
          sys.RefusedSince(|old(sys.moves)|, Me()) || job.receipt !in sys.queue.pending
      ensures alive && end.Overtaken? ==>
          && job.event in sys.repo.events
          && !sys.repo.events[job.event].status.Processing? && !sys.repo.events[job.event].status.Completed?
      ensures alive && end.Unrecorded? ==>
          job.event in sys.repo.events && !sys.repo.events[job.event].status.Processing?
      ensures alive && end.Postponed? ==>
          job.event in sys.repo.events && sys.repo.events[job.event].status.Retrying?
      ensures Onward(old(sys.Ledger()), sys.Ledger())
    {
      hide System.Valid, System.Stands, System.Ended, Onward, Reported, WoundUp;
      var err, ok;
      end := Unsure;
      alive, err := Assign(job);
      if !alive {
        return;
      }
      ghost var claimed, n := sys.Ledger(), |sys.moves|;
      if !err.Ok? {
        if err.InvalidTransition? {
          end := Discarded;
          alive := Ack(job, Conflict, [AckMessage]);
          OnwardTrans(old(sys.Ledger()), claimed, sys.Ledger());
        }
        return;
      }
      alive, ok := Process(job);
      OnwardTrans(old(sys.Ledger()), claimed, sys.Ledger());
      if !alive {
        return;
      }
      claimed, n := sys.Ledger(), |sys.moves|;
      if ok {
        alive, end := RecordResult(job);
        OnwardTrans(old(sys.Ledger()), claimed, sys.Ledger());
        WoundUpSince(this, job, job, Success, old(sys.Ledger()), claimed, |old(sys.moves)|, n);
      } else {
        var delay;
        alive, end, delay := HandleFailure(job);
        OnwardTrans(old(sys.Ledger()), claimed, sys.Ledger());
        WoundUpSince(this, job, job, Exhausted, old(sys.Ledger()), claimed, |old(sys.moves)|, n);
      }
    }

    /** From a successful processor call to the next poll. */
    method RecordResult(job: Job) returns (alive: bool, end: JobEnd)
      requires sys.Valid() && At(Finalizing(job))
      modifies sys, sys.repo, sys.queue
      ensures sys.Valid() && old(sys.moves) <= sys.moves && |sys.script| <= |old(sys.script)|
      ensures if alive then At(Polling(High)) else Ended() && Me() in sys.killed
      ensures alive ==> end.Unsure? || end.Succeeded? || end.Repeated? || end.Overtaken?
      ensures alive && end.Unsure? ==> sys.Acted(Me()) && !sys.last.choice.reply.Delivered?
      ensures alive && end.Succeeded? ==> WoundUp(job, Success, old(sys.Ledger()), |old(sys.moves)|)
      ensures alive && end.Repeated? ==>
          sys.RefusedSince(|old(sys.moves)|, Me()) || job.receipt !in sys.queue.pending
      ensures alive && end.Overtaken? ==>
          && job.event in sys.repo.events
          && !sys.repo.events[job.event].status.Processing? && !sys.repo.events[job.event].status.Completed?
      ensures Onward(old(sys.Ledger()), sys.Ledger())
    {
      hide System.Valid, System.Stands, System.Ended, Onward, Reported, WoundUp;
      var err;
      end := Unsure;
      alive, err := Finalize(job);
      if !alive {
        return;
      }
      ghost var known, n := sys.Ledger(), |sys.moves|;
      if err.AlreadyFinalized? {
        end := Repeated;
        alive := Ack(job, Duplicate, [AckMessage]);
        OnwardTrans(old(sys.Ledger()), known, sys.Ledger());
      } else if err.Ok? {
        end := Succeeded;
        alive := Succeed(job);
        OnwardTrans(old(sys.Ledger()), known, sys.Ledger());
        WoundUpSince(this, job, job, Success, old(sys.Ledger()), known, |old(sys.moves)|, n);
      } else if err.InvalidTransition? {
        end := Overtaken;
      }
    }

    method Return()
      requires sys.Valid() && At(Polling(High))
      modifies sys, sys.repo, sys.queue
      ensures sys.Valid() && old(sys.moves) <= sys.moves && Ended() && sys.Cancelled() == old(sys.Cancelled())
    {
      hide System.Valid;
      sys.Return(Me());
    }

    /** It goes on until it finds its context cancelled, or is killed. */
    method RunJobLoop()
      requires sys.Valid() && At(Polling(High))
      modifies sys, sys.repo, sys.queue
      ensures sys.Valid() && old(sys.moves) <= sys.moves && Ended()
      ensures sys.Cancelled() || Me() in sys.killed
    {
      hide System.Valid, System.Cancelled, System.Stands, System.Ended;
      while true
        invariant sys.Valid() && old(sys.moves) <= sys.moves && At(Polling(High))
        decreases |sys.script|
      {
        if sys.Cancelled() {
          Return();
          return;
        }
        var r := Consume();
        match r
        case Killed =>
          return;
        case Cancelled =>
          Return();
          return;
        case Broken =>
          if sys.Cancelled() {
            Return();
            return;
          }
        case Got(job) =>
          var alive, _ := HandleJob(job);
          if !alive {
            return;
          }
      }
    }

    // ---- The retry goroutine of the `failure`-th recorded failure ----

    /** The timer fires and a copy is published, unless shutdown comes first. */
    method PublishCopy(job: Job, failure: int) returns (ok: bool, copy: nat)
      requires sys.Valid() && sys.Stands(Task(job.event, failure), Waiting(job))
      modifies sys, sys.repo, sys.queue
      ensures sys.Valid() && old(sys.moves) <= sys.moves && old(sys.queue.log) <= sys.queue.log
      ensures if ok
              then sys.Stands(Task(job.event, failure), Releasing(job, copy)) else sys.Ended(Task(job.event, failure))
      ensures ok ==>
          && |old(sys.queue.log)| <= copy < |sys.queue.log|
          && sys.queue.log[copy] == Message(job.event, job.priority, job.attempt)
      ensures Task(job.event, failure) !in sys.killed ==>
          && (ok <==> sys.last.choice.flag && sys.last.choice.reply.Delivered?)
          && (!sys.last.choice.flag ==> sys.queue.Server() == sys.Before().broker)
      ensures Task(job.event, failure) in sys.killed || sys.Acted(Task(job.event, failure))
    {
      hide Legal, After, Next, RedisQueue.Valid;
      var me := Task(job.event, failure);
      ok, copy := false, 0;
      var alive, turn := sys.Wait(me);
      if alive {
        var before := sys.Current();
        TimerEnds(sys.cfg, before, me, job, turn.choice);
        if turn.choice.flag {
          copy := |before.broker.log|;
          ok := sys.queue.Publish(MessageOf(job), turn.choice.reply);
        }
        sys.Enter(before, Act(me, turn.choice));
      }
    }

    method AckOriginal(job: Job, failure: int, copy: nat) returns (ok: bool)
      requires sys.Valid() && sys.Stands(Task(job.event, failure), Releasing(job, copy))
      modifies sys, sys.repo, sys.queue
      ensures sys.Valid() && old(sys.moves) <= sys.moves && old(sys.queue.log) <= sys.queue.log
      ensures if ok
              then sys.Stands(Task(job.event, failure), Requeuing(job, copy)) else sys.Ended(Task(job.event, failure))
      ensures ok ==> job.receipt < |sys.queue.log| && sys.queue.Server().IsDelivered(job.receipt)
      ensures ok ==> job.receipt !in sys.queue.pending
      ensures Task(job.event, failure) in sys.killed || sys.Acted(Task(job.event, failure))
    {
      hide Legal, After, NextFrom, RedisQueue.Valid, Inv, Reported, Terminal;
      var me := Task(job.event, failure);
      ok := false;
      var alive, turn := sys.Wait(me);
      if alive {
        var before := sys.Current();
        RunsKeepInv(sys.cfg, sys.moves);
        JobIsKnown(sys.cfg, before, me);
        ok := sys.queue.Ack(job.receipt, turn.choice.reply);
        sys.Enter(before, Act(me, turn.choice));
      }
    }

    method MarkQueued(job: Job, failure: int, copy: nat) returns (ok: bool)
      requires sys.Valid() && sys.Stands(Task(job.event, failure), Requeuing(job, copy))
      modifies sys, sys.repo, sys.queue
      ensures sys.Valid() && old(sys.moves) <= sys.moves && old(sys.queue.log) <= sys.queue.log
      ensures sys.Ended(Task(job.event, failure))
      ensures ok ==>
          && job.event in sys.Before().db.rows && sys.Before().db.rows[job.event].status.Retrying?
          && job.event in sys.repo.events
          && sys.repo.events[job.event]
             == sys.Before().db.rows[job.event].(status := Queued, updatedAt := sys.last.choice.now)
      ensures ok ==> job.event in sys.hist.handoff && sys.hist.handoff[job.event] == copy
      ensures Task(job.event, failure) in sys.killed || sys.Acted(Task(job.event, failure))
      ensures Onward(old(sys.Ledger()), sys.Ledger())
    {
      hide Legal, After, Next, RedisQueue.Valid, Onward;
      var me := Task(job.event, failure);
      ok := false;
      var alive, turn := sys.Wait(me);
      if alive {
        var before := sys.Current();
        RetryQueues(sys.cfg, before, me, job, copy, turn.choice);
        var err := sys.repo.UpdateStatus(job.event, Retrying, Queued, turn.choice.now, turn.choice.reply);
        ok := err.Ok?;
        sys.Enter(before, Act(me, turn.choice));
        OnwardTrans(old(sys.Ledger()), BooksOf(before), sys.Ledger());
      }
    }

    /** A requeued row's handoff copy is the one this goroutine published; any error on the way leaves it RETRYING. */
    method RunRetry(job: Job, failure: int) returns (requeued: bool)
      requires sys.Valid() && sys.Stands(Task(job.event, failure), Waiting(job))
      modifies sys, sys.repo, sys.queue
      ensures sys.Valid() && old(sys.moves) <= sys.moves && sys.Ended(Task(job.event, failure))
      ensures requeued ==> job.event in sys.repo.events && sys.repo.events[job.event].status.Queued?
      ensures requeued ==>
          && job.event in sys.hist.handoff && |old(sys.queue.log)| <= sys.hist.handoff[job.event] < |sys.queue.log|
          && sys.queue.log[sys.hist.handoff[job.event]] == Message(job.event, job.priority, job.attempt)
          && job.receipt !in sys.queue.pending
    {
      hide System.Valid, System.Stands, System.Ended, Onward;
      var ok, copy := PublishCopy(job, failure);
      requeued := false;
      if ok {
        ok := AckOriginal(job, failure, copy);
        if ok {
          ghost var acked := sys.Ledger();
          requeued := MarkQueued(job, failure, copy);
          StillAcked(acked, sys.Ledger(), job.receipt);
        }
      }
    }
  }
}
