/**
 Runs in which no sweep has republished anything, however often one looked. There each event is in one place at a
 time: with its handler, as one unclaimed copy, with one worker, or with one retry goroutine. No fencing is
 needed, and the attempt a worker carries is the row's.
 */
module NoRecovery {
  import opened Events
  import opened Trails
  import opened EventStore
  import opened Streams
  import opened Backoff
  import opened Protocol
  import opened ProtocolInvariant
  import opened ProtocolSteps
  import opened Exclusive

  /** The process is responsible for moving event `e` on. */
  predicate HasToken(pc: Proc, e: EventId) {
    match pc
    case Publishing(x, _) => x == e
    case Enqueuing(x, _) => x == e
    case Waiting(job) => job.event == e
    case Releasing(job, _) => job.event == e
    case Requeuing(job, _) => job.event == e
    case _ => Holds(pc, e)
  }

  predicate RowIs(rows: Rows, e: EventId, status: Status, attempt: int) {
    e in rows && rows[e].status == status && rows[e].attempt == attempt
  }

  predicate Published(log: seq<Message>, e: EventId, attempt: int) {
    exists i :: 0 <= i < |log| && log[i].event == e && log[i].attempt == attempt
  }

  ghost predicate HeldOk(v: View, p: ProcId, job: Job) {
    && RowIs(v.rows, job.event, Processing, job.attempt)
    && CopyOk(v.log, job.event, job.receipt) && v.log[job.receipt].attempt == job.attempt
    && job.receipt in v.taker && v.taker[job.receipt] == p && job.receipt in v.found
  }

  ghost predicate TokenOk(v: View, p: ProcId, pc: Proc) {
    match pc
    case Publishing(e, _) => p == Handler(e) && RowIs(v.rows, e, Received, 0) && !Published(v.log, e, 0)
    case Enqueuing(e, _) => p == Handler(e) && RowIs(v.rows, e, Received, 0)
    case Claiming(job) =>
      && CopyOk(v.log, job.event, job.receipt) && v.log[job.receipt].attempt == job.attempt
      && job.receipt in v.taker && v.taker[job.receipt] == p
    case Running(job) => HeldOk(v, p, job)
    case Finalizing(job) => HeldOk(v, p, job)
    case Failing(job) => HeldOk(v, p, job)
    case Waiting(job) =>
      && p == Task(job.event, job.attempt) && RowIs(v.rows, job.event, Retrying, job.attempt)
      && !Published(v.log, job.event, job.attempt)
    case Releasing(job, _) => p == Task(job.event, job.attempt) && RowIs(v.rows, job.event, Retrying, job.attempt)
    case Requeuing(job, _) => p == Task(job.event, job.attempt) && RowIs(v.rows, job.event, Retrying, job.attempt)
    case Resetting(_, _, _, _, _) => false
    case _ => true
  }

  /** Copies of one event carry different attempts. */
  predicate CopiesDiffer(log: seq<Message>) {
    forall i, j | 0 <= i < j < |log| && log[i].event == log[j].event :: log[i].attempt != log[j].attempt
  }

  /** A copy nobody has tried to claim carries the row's attempt. */
  predicate CopiesFresh(rows: Rows, log: seq<Message>, found: map<nat, Status>) {
    forall i | 0 <= i < |log| && i !in found :: log[i].event in rows && log[i].attempt == rows[log[i].event].attempt
  }

  ghost predicate CalmInv(v: View, procs: map<ProcId, Proc>) {
    && CopiesDiffer(v.log) && CopiesFresh(v.rows, v.log, v.found)
    && forall p | p in procs :: TokenOk(v, p, procs[p])
  }

  ghost predicate Calm(s: State) {
    CalmInv(ViewOf(s), s.procs)
  }

  /** The process at `pc` has the only token of its event. */
  lemma OneToken(v: View, procs: map<ProcId, Proc>, p: ProcId, pc: Proc, e: EventId)
    requires CalmInv(v, procs) && p in procs && procs[p] == Gone && TokenOk(v, p, pc) && HasToken(pc, e)
    ensures forall q | q in procs :: !HasToken(procs[q], e)
  {
    forall q | q in procs ensures !HasToken(procs[q], e) {
      assert TokenOk(v, q, procs[q]);
    }
  }

  // ---- Effects ----

  lemma CalmSet(s: State, p: ProcId, pc: Proc)
    requires Calm(s) && TokenOk(ViewOf(s), p, pc)
    ensures Calm(Set(s, p, pc))
  {
    assert ViewOf(Set(s, p, pc)) == ViewOf(s);
  }

  lemma CalmAdd(v: View, procs: map<ProcId, Proc>, m: Message)
    requires CalmInv(v, procs) && m.event in v.rows && m.attempt == v.rows[m.event].attempt
    requires !Published(v.log, m.event, m.attempt)
    requires forall q | q in procs :: !HasToken(procs[q], m.event)
    ensures CalmInv(v.(log := v.log + [m]), procs)
  {
    var v' := v.(log := v.log + [m]);
    forall q | q in procs ensures TokenOk(v', q, procs[q]) {
      assert TokenOk(v, q, procs[q]);
      assert forall e, a :: Published(v'.log, e, a) ==> Published(v.log, e, a) || e == m.event;
    }
  }

  lemma CalmDeliver(v: View, procs: map<ProcId, Proc>, i: nat, p: ProcId)
    requires CalmInv(v, procs) && i !in v.taker
    ensures CalmInv(v.(taker := v.taker[i := p]), procs)
  {
    forall q | q in procs ensures TokenOk(v.(taker := v.taker[i := p]), q, procs[q]) {
      assert TokenOk(v, q, procs[q]);
    }
  }

  lemma CalmFind(v: View, procs: map<ProcId, Proc>, i: nat, status: Status)
    requires CalmInv(v, procs)
    ensures CalmInv(v.(found := v.found[i := status]), procs)
  {
    forall q | q in procs ensures TokenOk(v.(found := v.found[i := status]), q, procs[q]) {
      assert TokenOk(v, q, procs[q]);
    }
  }

  /** A write to a row whose token nobody else has. */
  lemma CalmWrite(v: View, procs: map<ProcId, Proc>, rows': Rows, commits': Commits, e: EventId)
    requires CalmInv(v, procs) && e in v.rows && e in rows' && rows' == v.rows[e := rows'[e]]
    requires forall q | q in procs :: !HasToken(procs[q], e)
    requires rows'[e].attempt == v.rows[e].attempt || forall i | 0 <= i < |v.log| && v.log[i].event == e :: i in v.found
    ensures CalmInv(v.(rows := rows', commits := commits'), procs)
  {
    var v' := v.(rows := rows', commits := commits');
    forall q | q in procs ensures TokenOk(v', q, procs[q]) {
      assert TokenOk(v, q, procs[q]);
    }
  }

  // ---- Steps; `p` is parked while it moves ----

  lemma CalmPublishing(s: State, p: ProcId, e: EventId, priority: int, c: Choice)
    requires Calm(s) && p in s.procs && s.procs[p] == Gone && TokenOk(ViewOf(s), p, Publishing(e, priority))
    ensures Calm(ActPublishing(s, p, e, priority, c))
  {
    if !c.reply.Refused? {
      OneToken(ViewOf(s), s.procs, p, Publishing(e, priority), e);
      CalmAdd(ViewOf(s), s.procs, Message(e, priority, 0));
      CalmSet(Add(s, Message(e, priority, 0)), p, Enqueuing(e, |s.broker.log|));
    }
  }

  lemma CalmWaiting(s: State, p: ProcId, job: Job, c: Choice)
    requires Calm(s) && p in s.procs && s.procs[p] == Gone && TokenOk(ViewOf(s), p, Waiting(job))
    ensures Calm(ActWaiting(s, p, job, c))
  {
    if c.flag && !c.reply.Refused? {
      OneToken(ViewOf(s), s.procs, p, Waiting(job), job.event);
      CalmAdd(ViewOf(s), s.procs, MessageOf(job));
      CalmSet(Add(s, MessageOf(job)), p, Releasing(job, |s.broker.log|));
    }
  }

  /** A handler's or a retry goroutine's status write. */
  lemma CalmHandoff(s: State, p: ProcId, pc: Proc, e: EventId, receipt: nat, old_: Status, now: nat)
    requires Calm(s) && p in s.procs && s.procs[p] == Gone && TokenOk(ViewOf(s), p, pc) && HasToken(pc, e)
    requires s.hist.commits.Keys == s.db.rows.Keys
    ensures Calm(Handoff(s, p, e, receipt, UpdateStatusTx(s.db, e, old_, Queued, now)))
  {
    var tx := UpdateStatusTx(s.db, e, old_, Queued, now);
    var s' := Handoff(s, p, e, receipt, tx);
    OneToken(ViewOf(s), s.procs, p, pc, e);
    if tx.err.Ok? {
      CalmWrite(ViewOf(s), s.procs, tx.db.rows, s'.hist.commits, e);
      assert ViewOf(s') == ViewOf(s).(rows := tx.db.rows, commits := s'.hist.commits);
    }
  }

  lemma CalmPolling(s: State, p: ProcId, stream: Stream, c: Choice)
    requires Calm(s) && QueueInv(s.broker, s.db.rows, s.hist.found, s.hist.taker)
    ensures Calm(ActPolling(s, p, stream, c))
  {
    var i, s1 := s.broker.Next(stream), Deliver(s, p, stream);
    if i < |s.broker.log| {
      DeliverKeepsQueue(s.broker, s.db.rows, s.hist.found, s.hist.taker, stream, p);
      CalmDeliver(ViewOf(s), s.procs, i, p);
      assert ViewOf(s1) == ViewOf(s).(taker := s.hist.taker[i := p]);
    }
    hide Deliver, TokenOk, CalmInv;
    if c.reply.Refused? {
      PollingIsCalm(s, p, High);
    } else if c.reply.Lost? || i == |s.broker.log| {
      PollingIsCalm(s1, p, if c.reply.Lost? then High else Following(stream));
    } else {
      TakenIsCalm(s1, p, i);
    }
  }

  lemma PollingIsCalm(s: State, p: ProcId, stream: Stream)
    requires Calm(s)
    ensures Calm(Set(s, p, Polling(stream)))
  {
    CalmSet(s, p, Polling(stream));
  }

  lemma TakenIsCalm(s: State, p: ProcId, i: nat)
    requires Calm(s) && i < |s.broker.log| && i in s.hist.taker && s.hist.taker[i] == p
    ensures Calm(Set(s, p, Claiming(JobOf(i, s.broker.log[i]))))
  {
    CalmSet(s, p, Claiming(JobOf(i, s.broker.log[i])));
  }

  /** The claim transaction: a successful claim is of a fresh copy, so it carries the row's attempt. */
  lemma CalmClaim(s: State, p: ProcId, job: Job, owner: Option<Uuid>, now: nat)
    requires Calm(s) && s.hist.commits.Keys == s.db.rows.Keys
    requires TokenOk(ViewOf(s), p, Claiming(job)) && job.receipt !in s.hist.found && job.event in s.db.rows
    ensures var tx := AssignTx(s.db, job.event, owner, Queued, Processing, now);
            var s' := Commit(Find(s, job.receipt, job.event), p, job.event, tx);
            Calm(s') && (tx.err.Ok? ==> TokenOk(ViewOf(s'), p, Running(job)))
  {
    var e := job.event;
    var tx := AssignTx(s.db, e, owner, Queued, Processing, now);
    var s1 := Find(s, job.receipt, e);
    var s' := Commit(s1, p, e, tx);
    CalmFind(ViewOf(s), s.procs, job.receipt, s.db.rows[e].status);
    assert ViewOf(s1) == ViewOf(s).(found := s1.hist.found);
    if tx.err.Ok? {
      forall q | q in s.procs ensures !HasToken(s.procs[q], e) {
        assert TokenOk(ViewOf(s), q, s.procs[q]);
      }
      CalmWrite(ViewOf(s1), s.procs, tx.db.rows, s'.hist.commits, e);
      assert ViewOf(s') == ViewOf(s1).(rows := tx.db.rows, commits := s'.hist.commits);
    }
  }

  lemma CalmClaiming(cfg: Config, s: State, p: ProcId, job: Job, c: Choice)
    requires Calm(s) && s.hist.commits.Keys == s.db.rows.Keys
    requires TokenOk(ViewOf(s), p, Claiming(job)) && job.receipt !in s.hist.found && job.event in s.db.rows
    ensures Calm(ActClaiming(cfg, s, p, job, c))
  {
    hide CalmInv, Commit;
    if c.reply.Refused? || !p.Worker? {
      PollingIsCalm(s, p, High);
    } else {
      var tx := AssignTx(s.db, job.event, OwnerOf(cfg, p.name), Queued, Processing, c.now);
      var s1 := Commit(Find(s, job.receipt, job.event), p, job.event, tx);
      CalmClaim(s, p, job, OwnerOf(cfg, p.name), c.now);
      PollingIsCalm(s1, p, High);
      CalmSet(s1, p, Closing(job, Conflict, Chores(Conflict)));
      if tx.err.Ok? {
        CalmSet(s1, p, Running(job));
      }
    }
  }

  lemma CalmFinalizing(s: State, p: ProcId, job: Job, c: Choice)
    requires Calm(s) && p in s.procs && s.procs[p] == Gone && s.hist.commits.Keys == s.db.rows.Keys
    requires TokenOk(ViewOf(s), p, Finalizing(job))
    ensures Calm(ActFinalizing(s, p, job, c))
  {
    PollingIsCalm(s, p, High);
    if !c.reply.Refused? {
      var tx := FinalizeTx(s.db, job.event, RESULT_HASH, c.now);
      var s1 := Commit(s, p, job.event, tx);
      OneToken(ViewOf(s), s.procs, p, Finalizing(job), job.event);
      if tx.err.Ok? {
        CalmWrite(ViewOf(s), s.procs, tx.db.rows, s1.hist.commits, job.event);
        assert ViewOf(s1) == ViewOf(s).(rows := tx.db.rows, commits := s1.hist.commits);
      }
      hide Commit, CalmInv;
      PollingIsCalm(s1, p, High);
      CalmSet(s1, p, Closing(job, Success, Chores(Success)));
      CalmSet(s1, p, Closing(job, Duplicate, Chores(Duplicate)));
    }
  }

  /** After a failure every copy of the event has been claimed and none carries the new attempt. */
  lemma CalmFailure(cfg: Config, s: State, p: ProcId, job: Job, now: nat)
    requires Calm(s) && p in s.procs && s.procs[p] == Gone && s.hist.commits.Keys == s.db.rows.Keys
    requires QueueInv(s.broker, s.db.rows, s.hist.found, s.hist.taker) && TokenOk(ViewOf(s), p, Failing(job))
    ensures var tx := RecordFailureTx(s.db, job.event, cfg.maxAttempts, now);
            var s' := Commit(s, p, job.event, tx);
            && Calm(s')
            && (tx.err.Ok? && s'.db.rows[job.event].status.Retrying? ==>
                  && s'.db.rows[job.event].attempt == job.attempt + 1
                  && TokenOk(ViewOf(s'), Task(job.event, job.attempt + 1), Waiting(job.(attempt := job.attempt + 1))))
  {
    var e := job.event;
    var tx := RecordFailureTx(s.db, e, cfg.maxAttempts, now);
    var s' := Commit(s, p, e, tx);
    OneToken(ViewOf(s), s.procs, p, Failing(job), e);
    if tx.err.Ok? {
      forall i | 0 <= i < |s.broker.log| && s.broker.log[i].event == e
        ensures i in s.hist.found && s.broker.log[i].attempt <= job.attempt
      {
        assert MessageOk(s.db.rows, s.broker.log[i]);
        assert i < job.receipt || i == job.receipt || job.receipt < i;
      }
      CalmWrite(ViewOf(s), s.procs, tx.db.rows, s'.hist.commits, e);
      assert ViewOf(s') == ViewOf(s).(rows := tx.db.rows, commits := s'.hist.commits);
    }
  }

  lemma CalmFailing(cfg: Config, s: State, p: ProcId, job: Job, c: Choice)
    requires Calm(s) && p in s.procs && s.procs[p] == Gone && s.hist.commits.Keys == s.db.rows.Keys
            && job.event in s.db.rows
    requires QueueInv(s.broker, s.db.rows, s.hist.found, s.hist.taker) && TokenOk(ViewOf(s), p, Failing(job))
    ensures Calm(ActFailing(cfg, s, p, job, c))
  {
    hide CalmInv, QueueInv, CalculateBackoff;
    PollingIsCalm(s, p, High);
    if !c.reply.Refused? {
      var again := job.(attempt := job.attempt + 1);
      var tx := RecordFailureTx(s.db, job.event, cfg.maxAttempts, c.now);
      var s1 := Commit(s, p, job.event, tx);
      CalmFailure(cfg, s, p, job, c.now);
      PollingIsCalm(s1, p, High);
      CalmSet(s1, p, Closing(again, Exhausted, Chores(Exhausted)));
      if tx.err.Ok? && !tx.db.rows[job.event].status.Failed? {
        var s2 := Schedule(s1, job.event, CalculateBackoff(again.attempt, cfg.baseDelay, c.jitter));
        assert ViewOf(s2) == ViewOf(s1) && s2.procs == s1.procs;
        CalmSet(s2, Task(job.event, again.attempt), Waiting(again));
        PollingIsCalm(Set(s2, Task(job.event, again.attempt), Waiting(again)), p, High);
      }
    }
  }

  lemma CalmReports(v: View, procs: map<ProcId, Proc>, counted: seq<Report>, announced: seq<Report>)
    requires CalmInv(v, procs)
    ensures CalmInv(v.(counted := counted, announced := announced), procs)
  {
    forall q | q in procs ensures TokenOk(v.(counted := counted, announced := announced), q, procs[q]) {
      assert TokenOk(v, q, procs[q]);
    }
  }

  lemma CalmClosing(s: State, p: ProcId, job: Job, verdict: Verdict, chores: seq<Chore>, c: Choice)
    requires Calm(s)
    ensures Calm(ActClosing(s, p, job, verdict, chores, c))
  {
    hide CalmInv;
    PollingIsCalm(s, p, High);
    if chores != [] {
      var s1 := match chores[0]
                case AckMessage => if c.reply.Refused? then s else Ack(s, job.receipt)
                case CountOutcome => s.(hist := s.hist.(counted := s.hist.counted + [Report(job.event, verdict)]))
                case Announce => s.(hist := s.hist.(announced := s.hist.announced + [Report(job.event, verdict)]));
      CalmReports(ViewOf(s), s.procs, s1.hist.counted, s1.hist.announced);
      assert ViewOf(s1) == ViewOf(s).(counted := s1.hist.counted, announced := s1.hist.announced);
      PollingIsCalm(s1, p, High);
      CalmSet(s1, p, Closing(job, verdict, chores[1..]));
    }
  }

  lemma CalmReleasing(s: State, p: ProcId, job: Job, receipt: nat, c: Choice)
    requires Calm(s) && TokenOk(ViewOf(s), p, Releasing(job, receipt))
    ensures Calm(ActReleasing(s, p, job, receipt, c))
  {
    assert ViewOf(Ack(s, job.receipt)) == ViewOf(s);
    CalmSet(Ack(s, job.receipt), p, Requeuing(job, receipt));
  }

  /** The step publishes a copy of the row at the head of a sweep's list. */
  predicate Republishes(pc: Proc, c: Choice) {
    && pc.Sweeping? && pc.todo != [] && NextSweepStep(pc.status, pc.todo[0].row, pc.dead).Republish?
    && !c.reply.Refused?
  }

  lemma CalmSweeping(s: State, p: ProcId, status: Status, todo: seq<Stale>, dead: map<Uuid, bool>, since: nat,
      c: Choice)
    requires Calm(s) && !Republishes(Sweeping(status, todo, dead, since), c)
    ensures Calm(ActSweeping(s, p, status, todo, dead, since, c))
  {
    hide Calm;
    if todo != [] {
      CalmSet(s, p, Sweeping(status, todo[1..], dead, since));
      if NextSweepStep(status, todo[0].row, dead).Probe? {
        var u := NextSweepStep(status, todo[0].row, dead).owner;
        CalmSet(s, p, Sweeping(status, todo, dead[u := !c.flag], since));
      }
    }
  }

  lemma CalmResume(cfg: Config, s: State, p: ProcId, pc: Proc, c: Choice)
    requires Calm(s) && s.hist.commits.Keys == s.db.rows.Keys && p in s.procs && s.procs[p] == Gone
    requires QueueInv(s.broker, s.db.rows, s.hist.found, s.hist.taker)
    requires ProcOk(ViewOf(s), p, pc) && TokenOk(ViewOf(s), p, pc) && !Republishes(pc, c)
    ensures Calm(Resume(cfg, s, p, pc, c))
  {
    hide Calm, QueueInv, ActPublishing, ActEnqueuing, ActPolling, ActClaiming, ActFinalizing, ActFailing,
      ActClosing, ActWaiting, ActReleasing, ActRequeuing, ActSweeping;
    match pc {
      case Gone =>
      case Publishing(e, priority) => CalmPublishing(s, p, e, priority, c);
      case Enqueuing(e, receipt) => CalmEnqueuing(s, p, e, receipt, c);
      case Polling(stream) => CalmPolling(s, p, stream, c);
      case Claiming(job) => CalmClaiming(cfg, s, p, job, c);
      case Running(job) => CalmSet(s, p, if c.flag then Finalizing(job) else Failing(job));
      case Finalizing(job) => CalmFinalizing(s, p, job, c);
      case Failing(job) => CalmFailing(cfg, s, p, job, c);
      case Closing(job, verdict, chores) => CalmClosing(s, p, job, verdict, chores, c);
      case Waiting(job) => CalmWaiting(s, p, job, c);
      case Releasing(job, receipt) => CalmReleasing(s, p, job, receipt, c);
      case Requeuing(job, receipt) => CalmRequeuing(s, p, job, receipt, c);
      case Sweeping(status, todo, dead, since) => CalmSweeping(s, p, status, todo, dead, since, c);
    }
  }

  lemma CalmEnqueuing(s: State, p: ProcId, e: EventId, receipt: nat, c: Choice)
    requires Calm(s) && p in s.procs && s.procs[p] == Gone && TokenOk(ViewOf(s), p, Enqueuing(e, receipt))
    requires s.hist.commits.Keys == s.db.rows.Keys
    ensures Calm(ActEnqueuing(s, p, e, receipt, c))
  {
    CalmHandoff(s, p, Enqueuing(e, receipt), e, receipt, Received, c.now);
  }

  lemma CalmRequeuing(s: State, p: ProcId, job: Job, receipt: nat, c: Choice)
    requires Calm(s) && p in s.procs && s.procs[p] == Gone && TokenOk(ViewOf(s), p, Requeuing(job, receipt))
    requires s.hist.commits.Keys == s.db.rows.Keys
    ensures Calm(ActRequeuing(s, p, job, receipt, c))
  {
    CalmHandoff(s, p, Requeuing(job, receipt), job.event, receipt, Retrying, c.now);
  }

  lemma CalmAccept(s: State, e: EventId, priority: int, reply: Reply, now: nat)
    requires Calm(s) && e !in s.db.rows && forall i | 0 <= i < |s.broker.log| :: s.broker.log[i].event in s.db.rows
    ensures Calm(Accept(s, e, priority, reply, now))
  {
    if !reply.Refused? {
      var tx := CreateTx(s.db, e, NewRow(priority, now));
      var s1 := s.(db := tx.db, hist := s.hist.(commits := s.hist.commits[e := []], delays := s.hist.delays[e := []]));
      forall q | q in s1.procs ensures TokenOk(ViewOf(s1), q, s1.procs[q]) {
        assert TokenOk(ViewOf(s), q, s.procs[q]);
      }
      assert Calm(s1);
      assert !Published(s1.broker.log, e, 0);
      CalmSet(s1, Handler(e), Publishing(e, priority));
    }
  }

  lemma CalmStart(s: State, p: ProcId, pc: Proc)
    requires Calm(s) && (pc == Gone || pc.Polling? || pc.Sweeping?)
    ensures Calm(Set(s, p, pc))
  {
    CalmSet(s, p, pc);
  }

  lemma CalmAct(cfg: Config, s: State, p: ProcId, c: Choice)
    requires Calm(s) && Inv(cfg, s) && Inv(cfg, Set(s, p, Gone)) && p in s.procs && !Republishes(s.procs[p], c)
    ensures Calm(Resume(cfg, Set(s, p, Gone), p, s.procs[p], c))
  {
    hide Resume;
    CalmStart(s, p, Gone);
    assert ViewOf(Set(s, p, Gone)) == ViewOf(s);
    assert ProcOk(ViewOf(s), p, s.procs[p]);
    CalmResume(cfg, Set(s, p, Gone), p, s.procs[p], c);
  }

  lemma CalmPerform(cfg: Config, s: State, m: Move)
    requires Enabled(s, m) && Calm(s) && Inv(cfg, s)
    requires m.Act? ==> !Republishes(s.procs[m.actor], m.choice)
    ensures Calm(Perform(cfg, s, m))
  {
    hide CalmInv, Resume, Accept, StoreInv, HandoffInv, ReportsOk, ProcOk, Republishes, IsSnapshot;
    match m {
      case Submit(e, priority, reply, now) =>
        forall i | 0 <= i < |s.broker.log| ensures s.broker.log[i].event in s.db.rows {
          assert MessageOk(s.db.rows, s.broker.log[i]);
        }
        CalmAccept(s, e, priority, reply, now);
      case Boot(name) => CalmStart(s, Worker(name), Polling(High));
      case Halt(p) => CalmStart(s, p, Gone);
      case Snapshot(run, status, _, todo) =>
        CalmStart(s, Sweeper(run), Sweeping(status, todo, map[], s.hist.clock));
      case Act(p, c) =>
        SetKeeps(cfg, s, p, Gone);
        CalmAct(cfg, s, p, c);
    }
  }

  /** No sweep has published a copy yet, though any number may have run and looked. */
  ghost predicate NothingRepublished(cfg: Config, moves: seq<Move>)
    requires Legal(cfg, moves)
    decreases |moves|
  {
    moves != [] ==>
      var before, m := moves[..|moves| - 1], moves[|moves| - 1];
      && NothingRepublished(cfg, before)
      && (m.Act? ==> !Republishes(After(cfg, before).procs[m.actor], m.choice))
  }

  lemma {:induction false} UnsweptRunsAreCalm(cfg: Config, moves: seq<Move>)
    requires Legal(cfg, moves) && NothingRepublished(cfg, moves)
    ensures Calm(After(cfg, moves))
  {
    hide Perform, Calm, Inv, Republishes;
    if moves == [] {
      NothingIsCalm();
    } else {
      var before, m := moves[..|moves| - 1], moves[|moves| - 1];
      UnsweptRunsAreCalm(cfg, before);
      RunsKeepInv(cfg, before);
      var s1 := Perform(cfg, After(cfg, before), m);
      CalmPerform(cfg, After(cfg, before), m);
      TimePasses(s1, m);
    }
  }

  lemma NothingIsCalm()
    ensures Calm(START)
  {
  }

  lemma TimePasses(s: State, m: Move)
    requires Calm(s)
    ensures Calm(Tick(s, m))
  {
    assert ViewOf(Tick(s, m)) == ViewOf(s);
  }

  /**
   As long as no sweep has republished anything, and with no assumption on ids or timing, an event has at most one
   holder, and the attempt that holder carries is the row's own.
   */
  lemma HolderCarriesTheRowsAttempt(cfg: Config, moves: seq<Move>, p: ProcId, q: ProcId, e: EventId)
    requires Legal(cfg, moves) && NothingRepublished(cfg, moves)
    requires p in After(cfg, moves).procs && Holds(After(cfg, moves).procs[p], e)
    ensures var s := After(cfg, moves);
            && e in s.db.rows && s.db.rows[e].status.Processing?
            && s.procs[p].job.attempt == s.db.rows[e].attempt
            && (q in s.procs && Holds(s.procs[q], e) ==> q == p)
  {
    hide Perform;
    UnsweptRunsAreCalm(cfg, moves);
    var s := After(cfg, moves);
    assert TokenOk(ViewOf(s), p, s.procs[p]);
    if q in s.procs && Holds(s.procs[q], e) {
      assert TokenOk(ViewOf(s), q, s.procs[q]);
      assert s.procs[p].job.receipt == s.procs[q].job.receipt;
    }
  }
}
