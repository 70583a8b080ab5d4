/**
 What becomes of a job once its worker has been told the outcome. Nothing here speaks of how the worker goes about it:
 a result or a last failure that was confirmed is counted and announced, and a message that is done with is
 acknowledged, by the time the worker polls again, unless it is killed or its acknowledgement is refused.
 */
module Settlements {
  import opened Events
  import opened Trails
  import opened EventStore
  import opened Streams
  import opened Backoff
  import opened Protocol
  import opened ProtocolInvariant
  import opened ProtocolSteps
  import opened Exclusive
  import opened Runtime
  import opened Continuations

  /** The step tells worker `p` that its claim is refused, its result is recorded or repeated, or it failed for good. */
  predicate Told(cfg: Config, s: State, p: ProcId, c: Choice, v: Verdict) {
    && p in s.procs && p.Worker? && c.reply.Delivered?
    && match s.procs[p]
       case Claiming(job) => v.Conflict? && job.event in s.db.rows && !s.db.rows[job.event].status.Queued?
       case Finalizing(job) =>
         && job.event in s.db.rows
         && if s.db.rows[job.event].status.Processing? then v.Success?
            else v.Duplicate? && s.db.rows[job.event].status.Completed?
       case Failing(job) =>
         && v.Exhausted? && job.event in s.db.rows && s.db.rows[job.event].status.Processing?
         && s.db.rows[job.event].attempt + 1 >= cfg.maxAttempts
       case _ => false
  }

  predicate IsOutcome(v: Verdict) {
    v.Success? || v.Exhausted?
  }

  /** Everything the outcome asks for has been done; `refused` excuses the acknowledgement. */
  predicate Settled(s: State, job: Job, v: Verdict, refused: bool) {
    && (IsOutcome(v) ==>
          Report(job.event, v) in s.hist.counted && Report(job.event, v) in s.hist.announced)
    && (job.receipt in s.broker.pending ==> refused)
  }

  /** `p` is on its way there. */
  predicate Settling(s: State, p: ProcId, job: Job, v: Verdict, refused: bool) {
    && p in s.procs && s.procs[p].Closing? && s.procs[p].verdict == v
    && s.procs[p].job.receipt == job.receipt && s.procs[p].job.event == job.event
    && var left := s.procs[p].chores;
       && (IsOutcome(v) ==>
             && (CountOutcome in left || Report(job.event, v) in s.hist.counted)
             && (Announce in left || Report(job.event, v) in s.hist.announced))
       && (AckMessage in left || job.receipt !in s.broker.pending || refused)
  }

  ghost predicate OnTheWay(s: State, p: ProcId, job: Job, v: Verdict, refused: bool) {
    && job.receipt < |s.broker.log| && s.broker.IsDelivered(job.receipt)
    && (Settled(s, job, v, refused) || Settling(s, p, job, v, refused))
  }

  // ---- The telling step ----

  lemma ClaimTold(cfg: Config, s: State, p: ProcId, c: Choice, v: Verdict)
    requires Enabled(s, Act(p, c)) && Told(cfg, s, p, c, v) && s.procs[p].Claiming?
    ensures Settling(Next(cfg, s, Act(p, c)), p, s.procs[p].job, v, false)
  {
  }

  lemma FinalizingTold(cfg: Config, s: State, p: ProcId, c: Choice, v: Verdict)
    requires Enabled(s, Act(p, c)) && Told(cfg, s, p, c, v) && s.procs[p].Finalizing?
    requires var e := s.procs[p].job.event; e in s.db.idempotency ==> s.db.rows[e].status.Completed?
    ensures Settling(Next(cfg, s, Act(p, c)), p, s.procs[p].job, v, false)
  {
  }

  lemma FailingTold(cfg: Config, s: State, p: ProcId, c: Choice, v: Verdict)
    requires Enabled(s, Act(p, c)) && Told(cfg, s, p, c, v) && s.procs[p].Failing?
    ensures Settling(Next(cfg, s, Act(p, c)), p, s.procs[p].job, v, false)
  {
    hide CalculateBackoff;
  }

  /** What a worker that has a job in hand can rely on. */
  lemma JobIsKnown(cfg: Config, s: State, p: ProcId)
    requires Inv(cfg, s) && p in s.procs
    requires var pc := s.procs[p]; pc.Claiming? || pc.Finalizing? || pc.Failing? || pc.Closing? || pc.Releasing?
    ensures var job := s.procs[p].job;
            && job.event in s.db.rows && job.receipt < |s.broker.log| && s.broker.IsDelivered(job.receipt)
            && s.broker.log[job.receipt].event == job.event
            && (s.db.rows[job.event].status.Completed? <==> job.event in s.db.idempotency)
            && (!Terminal(s.db.rows[job.event].status) ==>
                  !Reported(s.hist.counted, job.event) && !Reported(s.hist.announced, job.event))
  {
    hide TrailOk, DelaysInv;
    FactsOf(cfg, s);
    assert ProcOk(ViewOf(s), p, s.procs[p]);
    var e := s.procs[p].job.event;
    assert RowOk(cfg, s.db.rows[e], e in s.db.idempotency);
    if !Terminal(s.db.rows[e].status) {
      NotReported(s.db.rows, s.hist.counted, e);
      NotReported(s.db.rows, s.hist.announced, e);
    }
  }

  lemma TellingStarts(cfg: Config, moves: seq<Move>, p: ProcId, c: Choice, v: Verdict)
    requires Legal(cfg, moves) && Enabled(After(cfg, moves), Act(p, c)) && Told(cfg, After(cfg, moves), p, c, v)
    ensures OnTheWay(Next(cfg, After(cfg, moves), Act(p, c)), p, After(cfg, moves).procs[p].job, v, false)
  {
    hide Legal, After, Next, Inv, Settling, Onward;
    var s := After(cfg, moves);
    RunsKeepInv(cfg, moves);
    JobIsKnown(cfg, s, p);
    MoveGoesOn(cfg, moves, Act(p, c));
    ReceiptKept(BooksOf(s), BooksOf(Next(cfg, s, Act(p, c))), s.procs[p].job.receipt);
    match s.procs[p] {
      case Claiming(_) => ClaimTold(cfg, s, p, c, v);
      case Finalizing(_) => FinalizingTold(cfg, s, p, c, v);
      case Failing(_) => FailingTold(cfg, s, p, c, v);
    }
  }

  lemma ReceiptKept(a: Books, b: Books, i: nat)
    requires Onward(a, b) && i < |a.broker.log| && a.broker.IsDelivered(i)
    ensures i < |b.broker.log| && b.broker.IsDelivered(i) && (i in b.broker.pending ==> i in a.broker.pending)
    ensures forall r | r in a.counted :: r in b.counted
    ensures forall r | r in a.announced :: r in b.announced
  {
  }

  // ---- The steps after it ----

  /** A step that did not carry out its call, and was no report either. */
  predicate RefusesAck(s: State, m: Move, s': State, p: ProcId) {
    && m.Act? && m.actor == p && m.choice.reply.Refused?
    && s'.hist.counted == s.hist.counted && s'.hist.announced == s.hist.announced
  }

  lemma ChoreDone(cfg: Config, s: State, p: ProcId, c: Choice, job: Job, v: Verdict, refused: bool)
    requires Enabled(s, Act(p, c)) && Settling(s, p, job, v, refused)
    ensures var s' := Next(cfg, s, Act(p, c));
            var refused' := refused || RefusesAck(s, Act(p, c), s', p);
            Settled(s', job, v, refused') || Settling(s', p, job, v, refused')
  {
    var pc, s' := s.procs[p], Next(cfg, s, Act(p, c));
    if pc.chores == [] {
      NothingLeft(cfg, s, p, c);
      hide Next, Enabled;
    } else {
      ChoreEffect(cfg, s, p, c);
      hide Next, Enabled;
      assert forall x :: x in pc.chores <==> x == pc.chores[0] || x in pc.chores[1..];
    }
  }

  lemma NothingLeft(cfg: Config, s: State, p: ProcId, c: Choice)
    requires Enabled(s, Act(p, c)) && s.procs[p].Closing? && s.procs[p].chores == []
    ensures var s' := Next(cfg, s, Act(p, c));
            s'.broker == s.broker && s'.hist.counted == s.hist.counted && s'.hist.announced == s.hist.announced
  {
  }

  lemma StepGoesOn(cfg: Config, moves: seq<Move>, m: Move, p: ProcId, job: Job, v: Verdict, refused: bool)
    requires Legal(cfg, moves) && Enabled(After(cfg, moves), m) && m != Halt(p)
    requires OnTheWay(After(cfg, moves), p, job, v, refused)
    ensures var s' := Next(cfg, After(cfg, moves), m);
            OnTheWay(s', p, job, v, refused || RefusesAck(After(cfg, moves), m, s', p))
  {
    hide Legal, After, Next, Inv, Onward, RefusesAck, Enabled;
    var s := After(cfg, moves);
    var s' := Next(cfg, s, m);
    RunsKeepInv(cfg, moves);
    MoveGoesOn(cfg, moves, m);
    ReceiptKept(BooksOf(s), BooksOf(s'), job.receipt);
    if !Settled(s, job, v, refused) {
      if m.Act? && m.actor == p {
        ChoreDone(cfg, s, p, m.choice, job, v, refused);
      } else {
        OtherMovesLeave(cfg, s, m, p);
      }
    }
  }

  lemma OtherMovesLeave(cfg: Config, s: State, m: Move, p: ProcId)
    requires Inv(cfg, s) && Enabled(s, m) && Active(s, p) && m != Halt(p) && !(m.Act? && m.actor == p)
    ensures p in Next(cfg, s, m).procs && Next(cfg, s, m).procs[p] == s.procs[p]
  {
    hide Resume, Inv, IsSnapshot;
    if m.Act? {
      ActLeavesOthers(cfg, s, m.actor, m.choice, p);
    }
  }

  /** While `more` was made after `start`, an acknowledgement of `p` was refused. */
  ghost predicate AckRefused(cfg: Config, start: seq<Move>, more: seq<Move>, p: ProcId)
    requires Legal(cfg, start + more)
    decreases |more|
  {
    more != [] &&
    var before, m := more[..|more| - 1], more[|more| - 1];
    && Legal(cfg, start + before)
    && (AckRefused(cfg, start, before, p)
        || RefusesAck(After(cfg, start + before), m, After(cfg, start + more), p))
  }

  lemma {:induction false} ToldGoesOn(cfg: Config, start: seq<Move>, more: seq<Move>, p: ProcId, job: Job, v: Verdict)
    requires Legal(cfg, start) && Legal(cfg, start + more) && Halt(p) !in more
    requires OnTheWay(After(cfg, start), p, job, v, false)
    ensures OnTheWay(After(cfg, start + more), p, job, v, AckRefused(cfg, start, more, p))
  {
    hide Next, Enabled, OnTheWay, RefusesAck;
    if more == [] {
      assert start + more == start;
    } else {
      var before, m := more[..|more| - 1], more[|more| - 1];
      assert (start + more)[..|start + more| - 1] == start + before;
      ToldGoesOn(cfg, start, before, p, job, v);
      StepGoesOn(cfg, start + before, m, p, job, v, AckRefused(cfg, start, before, p));
    }
  }

  /**
   In every run: when a worker that was told of an outcome, and not killed since, polls again, a success or last
   failure is counted and announced, and its message is acknowledged unless that call was refused. A success is never
   counted before that.
   */
  lemma ToldJobsAreSettled(cfg: Config, moves: seq<Move>, p: ProcId, c: Choice, v: Verdict, more: seq<Move>)
    requires Legal(cfg, moves) && Legal(cfg, moves + [Act(p, c)]) && Legal(cfg, moves + [Act(p, c)] + more)
    requires Told(cfg, After(cfg, moves), p, c, v) && Halt(p) !in more
    ensures var job, s := After(cfg, moves).procs[p].job, After(cfg, moves + [Act(p, c)] + more);
            var excused := AckRefused(cfg, moves + [Act(p, c)], more, p);
            && (p in s.procs && s.procs[p].Polling? ==>
                  && (v.Success? || v.Exhausted? ==>
                        Report(job.event, v) in s.hist.counted && Report(job.event, v) in s.hist.announced)
                  && (job.receipt !in s.broker.pending || excused))
            && (v.Success? && Report(job.event, v) in s.hist.counted ==> job.receipt !in s.broker.pending || excused)
  {
    hide Legal, After, Next, Enabled, Inv;
    var start := moves + [Act(p, c)];
    LastWasEnabled(cfg, moves, Act(p, c));
    TellingStarts(cfg, moves, p, c, v);
    var job := After(cfg, moves).procs[p].job;
    ToldGoesOn(cfg, start, more, p, job, v);
    RunsKeepInv(cfg, start + more);
    if v.Success? && Report(job.event, v) in After(cfg, start + more).hist.counted {
      AckComesBeforeCount(cfg, After(cfg, start + more), p, job, AckRefused(cfg, start, more, p), v);
    }
  }

  lemma LastWasEnabled(cfg: Config, moves: seq<Move>, m: Move)
    requires Legal(cfg, moves + [m])
    ensures Legal(cfg, moves) && Enabled(After(cfg, moves), m)
    ensures After(cfg, moves + [m]) == Next(cfg, After(cfg, moves), m)
  {
    assert (moves + [m])[..|moves|] == moves;
  }

  lemma AckComesBeforeCount(cfg: Config, s: State, p: ProcId, job: Job, refused: bool, v: Verdict)
    requires Inv(cfg, s) && OnTheWay(s, p, job, v, refused) && v.Success? && Report(job.event, v) in s.hist.counted
    ensures job.receipt !in s.broker.pending || refused
  {
    hide StoreInv, QueueInv, ReportsOk, HandoffInv;
    if !Settled(s, job, v, refused) {
      assert ProcOk(ViewOf(s), p, s.procs[p]);
      var i :| 0 <= i < |s.hist.counted| && s.hist.counted[i] == Report(job.event, v);
      assert Reported(s.hist.counted, job.event);
      SuccessAcksFirst(s.procs[p].chores);
    }
  }

  lemma SuccessAcksFirst(left: seq<Chore>)
    requires 0 < |left| <= |Chores(Success)| && left == Chores(Success)[|Chores(Success)| - |left|..]
    ensures AckMessage in left ==> CountOutcome in left
  {
  }

  // ---- Nothing is announced that has not been counted ----

  predicate CountsFirst(counted: seq<Report>, pc: Proc) {
    pc.Closing? && IsOutcome(pc.verdict) && CountOutcome !in pc.chores ==>
      Report(pc.job.event, pc.verdict) in counted
  }

  ghost predicate CountedFirst(s: State) {
    && (forall r | r in s.hist.announced :: r in s.hist.counted)
    && (forall p | p in s.procs :: CountsFirst(s.hist.counted, s.procs[p]))
  }

  lemma ClosingStarts(cfg: Config, s: State, p: ProcId, c: Choice)
    requires Enabled(s, Act(p, c)) && p.Worker? && IsWorkerCounter(s.procs[p]) && !s.procs[p].Closing?
    ensures var s' := Next(cfg, s, Act(p, c)); p in s'.procs && CountsFirst(s'.hist.counted, s'.procs[p])
  {
    hide CalculateBackoff, AssignTx, FinalizeTx, NextFrom;
    match s.procs[p] {
      case Polling(_) =>
      case Claiming(_) =>
      case Running(_) =>
      case Finalizing(_) =>
      case Failing(_) =>
    }
  }

  lemma ClosingCounts(cfg: Config, s: State, p: ProcId, c: Choice)
    requires Enabled(s, Act(p, c)) && s.procs[p].Closing? && CountsFirst(s.hist.counted, s.procs[p])
    requires forall r | r in s.hist.announced :: r in s.hist.counted
    requires var pc := s.procs[p];
             && pc.chores != []
             && (pc.chores[0].Announce? ==> IsOutcome(pc.verdict) && CountOutcome !in pc.chores)
             && (pc.chores[0].CountOutcome? || (CountOutcome in pc.chores ==> CountOutcome in pc.chores[1..]))
    ensures var s' := Next(cfg, s, Act(p, c));
            && p in s'.procs && CountsFirst(s'.hist.counted, s'.procs[p])
            && forall r | r in s'.hist.announced :: r in s'.hist.counted
  {
    hide Next, CountsFirst;
    var pc, s' := s.procs[p], Next(cfg, s, Act(p, c));
    ChoreEffect(cfg, s, p, c);
    ReportsInOrder(s.hist.counted, s.hist.announced, s'.hist.counted, s'.hist.announced, pc, s'.procs[p]);
  }

  lemma ReportsInOrder(counted: seq<Report>, announced: seq<Report>, counted': seq<Report>, announced': seq<Report>,
      pc: Proc, pc': Proc)
    requires pc.Closing? && pc.chores != [] && CountsFirst(counted, pc) && forall r | r in announced :: r in counted
    requires var r := [Report(pc.job.event, pc.verdict)];
             && counted' == counted + (if pc.chores[0].CountOutcome? then r else [])
             && announced' == announced + (if pc.chores[0].Announce? then r else [])
    requires pc' == if |pc.chores| == 1 then Polling(High) else Closing(pc.job, pc.verdict, pc.chores[1..])
    requires pc.chores[0].Announce? ==> IsOutcome(pc.verdict) && CountOutcome !in pc.chores
    requires pc.chores[0].CountOutcome? || (CountOutcome in pc.chores ==> CountOutcome in pc.chores[1..])
    ensures CountsFirst(counted', pc') && forall r | r in announced' :: r in counted'
  {
    var r := Report(pc.job.event, pc.verdict);
    assert r in counted ==> r in counted';
    if pc.chores[0].CountOutcome? {
      assert counted'[|counted|] == r;
    }
    forall x | x in announced' ensures x in counted' {
      assert x in announced || x == r;
    }
  }

  /** One thing that is left to do. */
  lemma ChoreEffect(cfg: Config, s: State, p: ProcId, c: Choice)
    requires Enabled(s, Act(p, c)) && s.procs[p].Closing? && s.procs[p].chores != []
    ensures var pc, s' := s.procs[p], Next(cfg, s, Act(p, c));
            var r := [Report(pc.job.event, pc.verdict)];
            && s'.db == s.db
            && s'.hist.counted == s.hist.counted + (if pc.chores[0].CountOutcome? then r else [])
            && s'.hist.announced == s.hist.announced + (if pc.chores[0].Announce? then r else [])
            && s'.broker == (if pc.chores[0].AckMessage? && !c.reply.Refused? then s.broker.Ack(pc.job.receipt)
                             else s.broker)
            && p in s'.procs
            && s'.procs[p] == if |pc.chores| == 1 then Polling(High)
                              else Closing(pc.job, pc.verdict, pc.chores[1..])
  {
    hide Ack;
    match s.procs[p].chores[0] {
      case AckMessage => AckWrites(Set(s, p, Gone), s.procs[p].job.receipt);
      case CountOutcome =>
      case Announce =>
    }
  }

  lemma AckWrites(s: State, receipt: nat)
    ensures Ack(s, receipt) == s.(broker := s.broker.Ack(receipt))
  {
  }

  lemma AnnouncedLast(v: Verdict, left: seq<Chore>)
    requires 0 < |left| <= |Chores(v)| && left == Chores(v)[|Chores(v)| - |left|..]
    ensures left[0].Announce? ==> IsOutcome(v) && CountOutcome !in left
    ensures left[0].CountOutcome? || (CountOutcome in left ==> CountOutcome in left[1..])
  {
  }

  lemma ChoresOf(cfg: Config, s: State, p: ProcId)
    requires Inv(cfg, s) && p in s.procs && s.procs[p].Closing?
    ensures var pc := s.procs[p];
            p.Worker? && 0 < |pc.chores| <= |Chores(pc.verdict)|
            && pc.chores == Chores(pc.verdict)[|Chores(pc.verdict)| - |pc.chores|..]
  {
    hide StoreInv, QueueInv, ReportsOk, HandoffInv;
    assert ProcOk(ViewOf(s), p, s.procs[p]);
  }

  lemma OnlyWorkersClose(cfg: Config, s: State, p: ProcId)
    requires Inv(cfg, s) && p in s.procs
    ensures s.procs[p].Closing? ==> p.Worker?
    ensures p.Worker? && s.procs[p] != Gone ==> IsWorkerCounter(s.procs[p])
  {
    hide StoreInv, QueueInv, ReportsOk, HandoffInv;
    assert ProcOk(ViewOf(s), p, s.procs[p]);
  }

  lemma ActorCountsFirst(cfg: Config, s: State, p: ProcId, c: Choice)
    requires Inv(cfg, s) && Enabled(s, Act(p, c)) && CountedFirst(s) && Inv(cfg, Next(cfg, s, Act(p, c)))
    ensures var s' := Next(cfg, s, Act(p, c));
            && (p in s'.procs ==> CountsFirst(s'.hist.counted, s'.procs[p]))
            && forall r | r in s'.hist.announced :: r in s'.hist.counted
  {
    hide Next, Inv, CountsFirst;
    OnlyWorkersClose(cfg, s, p);
    if s.procs[p].Closing? {
      ChoresOf(cfg, s, p);
      AnnouncedLast(s.procs[p].verdict, s.procs[p].chores);
      ClosingCounts(cfg, s, p, c);
    } else {
      NothingReported(cfg, s, p, c);
      if p.Worker? {
        ClosingStarts(cfg, s, p, c);
      } else if p in Next(cfg, s, Act(p, c)).procs {
        OnlyWorkersClose(cfg, Next(cfg, s, Act(p, c)), p);
        NotClosing(Next(cfg, s, Act(p, c)), p);
      }
    }
  }

  lemma NotClosing(s: State, p: ProcId)
    requires p in s.procs && !s.procs[p].Closing?
    ensures CountsFirst(s.hist.counted, s.procs[p])
  {
  }

  lemma CountsStill(counted: seq<Report>, counted': seq<Report>, pc: Proc)
    requires CountsFirst(counted, pc) && counted <= counted'
    ensures CountsFirst(counted', pc)
  {
  }

  lemma MoveCountsFirst(cfg: Config, s: State, m: Move)
    requires Inv(cfg, s) && Enabled(s, m) && CountedFirst(s) && Inv(cfg, Next(cfg, s, m))
    ensures CountedFirst(Next(cfg, s, m))
  {
    hide Next, Inv, CountsFirst, Enabled;
    var s' := Next(cfg, s, m);
    ReportsOnlyGrow(cfg, s, m);
    if m.Act? {
      ActorCountsFirst(cfg, s, m.actor, m.choice);
    } else {
      OtherMovesReportNothing(cfg, s, m);
    }
    forall q | q in s'.procs ensures CountsFirst(s'.hist.counted, s'.procs[q]) {
      if !(m.Act? && q == m.actor) {
        OnlyWorkersClose(cfg, s', q);
        if s'.procs[q].Closing? {
          WhoIsClosing(cfg, s, m, q);
          CountsStill(s.hist.counted, s'.hist.counted, s'.procs[q]);
        } else {
          NotClosing(s', q);
        }
      }
    }
  }

  lemma OtherMovesReportNothing(cfg: Config, s: State, m: Move)
    requires Enabled(s, m) && !m.Act?
    ensures var h, h' := s.hist, Next(cfg, s, m).hist; h'.counted == h.counted && h'.announced == h.announced
  {
    hide IsSnapshot;
  }

  /** Other workers' program counters are what they were. */
  lemma WhoIsClosing(cfg: Config, s: State, m: Move, q: ProcId)
    requires Enabled(s, m) && q.Worker? && !(m.Act? && m.actor == q)
    requires q in Next(cfg, s, m).procs && Next(cfg, s, m).procs[q].Closing?
    ensures q in s.procs && s.procs[q] == Next(cfg, s, m).procs[q]
  {
    hide Resume, IsSnapshot;
    if m.Act? {
      OnlyTheActorMoves(cfg, Set(s, m.actor, Gone), m.actor, s.procs[m.actor], m.choice);
    }
  }

  /** In every run: no outcome is announced that has not been counted. */
  lemma {:induction false} AnnouncedAreCounted(cfg: Config, moves: seq<Move>)
    requires Legal(cfg, moves)
    ensures CountedFirst(After(cfg, moves))
  {
    hide Next, Enabled, Inv;
    if moves != [] {
      var before, m := moves[..|moves| - 1], moves[|moves| - 1];
      AnnouncedAreCounted(cfg, before);
      RunsKeepInv(cfg, before);
      RunsKeepInv(cfg, moves);
      MoveCountsFirst(cfg, After(cfg, before), m);
    }
  }
}
