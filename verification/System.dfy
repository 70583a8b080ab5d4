/**
 The running system: the repository and queue objects, the program counters of all processes, and the
 script of everything outside one process's control. An object's method acts for one process; between any
 two of its calls the other processes make the moves the script lists. Every method of this and the next
 modules keeps `Valid`: what really happened to the stores is a run of the protocol.
 */
module Runtime {
  import opened Events
  import opened EventStore
  import opened Streams
  import opened Backoff
  import opened Protocol
  import opened ProtocolInvariant
  import opened ProtocolSteps
  import opened Exclusive

  /**
   What happens before a process's next step: moves of others, then the fate of the step itself, whether
   shutdown has begun by then, and whether the process is killed instead of taking it.
   */
  datatype Turn = Turn(others: seq<Move>, choice: Choice, cancelled: bool, killed: bool)

  /** The move is made by `p`, or starts or stops it. */
  predicate Concerns(m: Move, p: ProcId) {
    match m
    case Submit(e, _, _, _) => p == Handler(e)
    case Boot(name) => p == Worker(name)
    case Snapshot(run, _, _, _) => p == Sweeper(run)
    case Halt(q) => p == q
    case Act(q, _) => p == q
  }

  /** What only ever gets longer: the reports made, the copies published, and the receipts dealt with. */
  datatype Books = Books(counted: seq<Report>, announced: seq<Report>, broker: Broker)

  function BooksOf(s: State): Books {
    Books(s.hist.counted, s.hist.announced, s.broker)
  }

  /** Reports and copies are kept, and a delivered copy that is no longer pending never is again. */
  ghost predicate Onward(a: Books, b: Books) {
    && a.counted <= b.counted && a.announced <= b.announced && a.broker.log <= b.broker.log
    && forall i | 0 <= i < |a.broker.log| && a.broker.IsDelivered(i) ::
         b.broker.IsDelivered(i) && (i in b.broker.pending ==> i in a.broker.pending)
  }

  lemma OnwardTrans(a: Books, b: Books, c: Books)
    requires Onward(a, b) && Onward(b, c)
    ensures Onward(a, c)
  {
  }

  lemma SameBooks(a: Books)
    ensures Onward(a, a)
  {
  }

  /** What a move may do to the streams. */
  ghost predicate StreamsMove(b: Broker, b': Broker) {
    || b' == b
    || (exists m :: b' == b.Add(m))
    || (exists i :: b' == b.Ack(i))
    || (exists t :: b.Next(t) < |b.log| && b' == b.Deliver(t))
  }

  lemma MoveOfStreams(cfg: Config, s: State, m: Move)
    requires Enabled(s, m)
    ensures StreamsMove(s.broker, Next(cfg, s, m).broker)
  {
    hide ActPublishing, ActEnqueuing, ActPolling, ActClaiming, ActFinalizing, ActFailing,
      ActClosing, ActWaiting, ActReleasing, ActRequeuing, ActSweeping, ActResetting, IsSnapshot;
  }

  lemma StreamsGoOn(b: Broker, b': Broker)
    requires b.Valid() && StreamsMove(b, b')
    ensures Onward(Books([], [], b), Books([], [], b'))
  {
    if t :| b.Next(t) < |b.log| && b' == b.Deliver(t) {
      DeliverKeepsValid(b, t);
    }
  }

  lemma ReportsOnlyGrow(cfg: Config, s: State, m: Move)
    requires Enabled(s, m)
    ensures var h, h' := s.hist, Next(cfg, s, m).hist; h.counted <= h'.counted && h.announced <= h'.announced
  {
    hide IsSnapshot, Resume;
    if m.Act? {
      ActReports(cfg, Set(s, m.actor, Gone), m.actor, s.procs[m.actor], m.choice);
    }
  }

  lemma ActReports(cfg: Config, s: State, p: ProcId, pc: Proc, c: Choice)
    ensures var h, h' := s.hist, Resume(cfg, s, p, pc, c).hist;
            h.counted <= h'.counted && h.announced <= h'.announced
            && (!pc.Closing? ==> h'.counted == h.counted && h'.announced == h.announced)
  {
    match pc
    case Claiming(job) => ClaimReportsNothing(cfg, s, p, job, c);
    case Finalizing(job) => FinalizingReportsNothing(s, p, job, c);
    case Failing(job) => FailingReportsNothing(cfg, s, p, job, c);
    case Closing(job, v, chores) => ClosingReports(s, p, job, v, chores, c);
    case Enqueuing(_, _) => HandoffsReportNothing(cfg, s, p, pc, c);
    case Requeuing(_, _) => HandoffsReportNothing(cfg, s, p, pc, c);
    case Resetting(_, _, _, _, _) => HandoffsReportNothing(cfg, s, p, pc, c);
    case _ => RestReportNothing(cfg, s, p, pc, c);
  }

  lemma CommitReportsNothing(s: State, p: ProcId, e: EventId, receipt: nat, tx: Tx)
    ensures var h, h' := s.hist, Commit(s, p, e, tx).hist; h'.counted == h.counted && h'.announced == h.announced
    ensures var h, h' := s.hist, Handoff(s, p, e, receipt, tx).hist;
            h'.counted == h.counted && h'.announced == h.announced
  {
  }

  lemma ClaimReportsNothing(cfg: Config, s: State, p: ProcId, job: Job, c: Choice)
    ensures var h, h' := s.hist, ActClaiming(cfg, s, p, job, c).hist;
            h'.counted == h.counted && h'.announced == h.announced
  {
    if p.Worker? {
      CommitReportsNothing(Find(s, job.receipt, job.event), p, job.event, 0,
                           AssignTx(s.db, job.event, OwnerOf(cfg, p.name), Queued, Processing, c.now));
    }
    hide Quiet, AssignTx, Commit;
  }

  lemma FinalizingReportsNothing(s: State, p: ProcId, job: Job, c: Choice)
    ensures var h, h' := s.hist, ActFinalizing(s, p, job, c).hist;
            h'.counted == h.counted && h'.announced == h.announced
  {
    CommitReportsNothing(s, p, job.event, 0, FinalizeTx(s.db, job.event, RESULT_HASH, c.now));
    hide Quiet, FinalizeTx, Commit;
  }

  lemma FailingReportsNothing(cfg: Config, s: State, p: ProcId, job: Job, c: Choice)
    ensures var h, h' := s.hist, ActFailing(cfg, s, p, job, c).hist;
            h'.counted == h.counted && h'.announced == h.announced
  {
    CommitReportsNothing(s, p, job.event, 0, RecordFailureTx(s.db, job.event, cfg.maxAttempts, c.now));
    hide Quiet, CalculateBackoff, Commit, Chores;
  }

  lemma HandoffsReportNothing(cfg: Config, s: State, p: ProcId, pc: Proc, c: Choice)
    requires pc.Enqueuing? || pc.Requeuing? || pc.Resetting?
    ensures var h, h' := s.hist, Resume(cfg, s, p, pc, c).hist;
            h'.counted == h.counted && h'.announced == h.announced
  {
    if pc.Enqueuing? {
      CommitReportsNothing(s, p, pc.event, pc.receipt, UpdateStatusTx(s.db, pc.event, Received, Queued, c.now));
    } else if pc.Requeuing? {
      CommitReportsNothing(s, p, pc.job.event, pc.receipt,
                           UpdateStatusTx(s.db, pc.job.event, Retrying, Queued, c.now));
    } else if pc.todo != [] {
      CommitReportsNothing(s, p, pc.todo[0].id, pc.receipt,
                           AssignTx(s.db, pc.todo[0].id, None, pc.status, Queued, c.now));
    }
    hide Quiet, AssignTx, UpdateStatusTx, Handoff, Commit;
  }

  lemma ClosingReports(s: State, p: ProcId, job: Job, v: Verdict, chores: seq<Chore>, c: Choice)
    ensures var h, h' := s.hist, ActClosing(s, p, job, v, chores, c).hist;
            h.counted <= h'.counted && h.announced <= h'.announced
  {
    ClosingWrites(s, p, job, v, chores, c);
    hide ActClosing;
  }

  lemma ClosingWrites(s: State, p: ProcId, job: Job, v: Verdict, chores: seq<Chore>, c: Choice)
    ensures var h, h' := s.hist, ActClosing(s, p, job, v, chores, c).hist;
            && (h'.counted == h.counted || h'.counted == h.counted + [Report(job.event, v)])
            && (h'.announced == h.announced || h'.announced == h.announced + [Report(job.event, v)])
  {
    hide Quiet, Ack;
    AckWritesNothing(s, job.receipt);
  }

  lemma AckWritesNothing(s: State, receipt: nat)
    ensures Ack(s, receipt).hist == s.hist
  {
  }

  lemma RestReportNothing(cfg: Config, s: State, p: ProcId, pc: Proc, c: Choice)
    requires !pc.Claiming? && !pc.Finalizing? && !pc.Failing? && !pc.Closing?
    requires !pc.Enqueuing? && !pc.Requeuing? && !pc.Resetting?
    ensures var h, h' := s.hist, Resume(cfg, s, p, pc, c).hist;
            h'.counted == h.counted && h'.announced == h.announced
  {
    if pc.Polling? {
      PollingReportsNothing(s, p, pc.stream, c);
    }
    hide Quiet, ActPublishing, ActPolling, ActWaiting, ActReleasing, ActSweeping;
  }

  lemma PollingReportsNothing(s: State, p: ProcId, stream: Stream, c: Choice)
    ensures var h, h' := s.hist, ActPolling(s, p, stream, c).hist;
            h'.counted == h.counted && h'.announced == h.announced
  {
    hide NextFrom;
  }

  /** Only a worker that is closing a job reports. */
  lemma NothingReported(cfg: Config, s: State, p: ProcId, c: Choice)
    requires Enabled(s, Act(p, c)) && !s.procs[p].Closing?
    ensures var h, h' := s.hist, Next(cfg, s, Act(p, c)).hist;
            h'.counted == h.counted && h'.announced == h.announced
  {
    hide Resume;
    ActReports(cfg, Set(s, p, Gone), p, s.procs[p], c);
  }

  lemma MoveGoesOn(cfg: Config, moves: seq<Move>, m: Move)
    requires Legal(cfg, moves) && Enabled(After(cfg, moves), m)
    ensures Onward(BooksOf(After(cfg, moves)), BooksOf(Next(cfg, After(cfg, moves), m)))
  {
    hide Next, Enabled, Legal, After, Inv, StreamsMove;
    var s := After(cfg, moves);
    RunsKeepInv(cfg, moves);
    FactsOf(cfg, s);
    MoveOfStreams(cfg, s, m);
    StreamsGoOn(s.broker, Next(cfg, s, m).broker);
    ReportsOnlyGrow(cfg, s, m);
  }

  class System {
    const cfg: Config
    const repo: EventRepo
    const queue: RedisQueue
    var procs: map<ProcId, Proc>
    var hist: History
    var script: seq<Turn>
    var killed: set<ProcId>
    var last: Turn          // the turn handed out last
    ghost var moves: seq<Move>

    constructor (cfg: Config, script: seq<Turn>)
      requires forall t | t in script :: 0.0 <= t.choice.jitter < 1.0
      ensures Valid() && fresh(repo) && fresh(queue) && moves == []
      ensures this.cfg == cfg && this.script == script && killed == {}
    {
      this.cfg := cfg;
      this.script := script;
      repo := new EventRepo();
      queue := new RedisQueue();
      procs, hist, killed, moves := START.procs, START.hist, {}, [];
      last := Turn([], Choice(Refused, 0, false, 0.0), true, true);
    }

    function Current(): State
      reads this, repo, queue
    {
      State(repo.Tables(), queue.Server(), procs, hist)
    }

    function Ledger(): Books
      reads this, repo, queue
    {
      Books(hist.counted, hist.announced, queue.Server())
    }

    /** The state in which the last move was made. */
    ghost function Before(): State
      requires moves != [] && Legal(cfg, moves)
      reads this
    {
      After(cfg, moves[..|moves| - 1])
    }

    /** A call of `p` since the `from`-th move was not carried out. */
    ghost predicate RefusedSince(from: nat, p: ProcId)
      reads this
    {
      exists k | from <= k < |moves| ::
        moves[k].Act? && moves[k].actor == p && moves[k].choice.reply.Refused?
    }

    /** Whether shutdown has begun by the time of the next step. */
    predicate Cancelled()
      reads this
    {
      script == [] || script[0].cancelled
    }

    ghost predicate Valid()
      reads this, repo, queue
    {
      && queue.Valid() && Legal(cfg, moves) && Current() == After(cfg, moves)
      && forall t | t in script :: 0.0 <= t.choice.jitter < 1.0
    }

    ghost predicate Stands(p: ProcId, pc: Proc)
      reads this
    {
      p in procs && procs[p] == pc
    }

    ghost predicate Ended(p: ProcId)
      reads this
    {
      p in procs ==> procs[p] == Gone
    }

    /** The last step made is `p`'s, with the outcome the environment chose for it. */
    ghost predicate Acted(p: ProcId)
      reads this
    {
      moves != [] && moves[|moves| - 1] == Act(p, last.choice)
    }

    /** The retry goroutine of the row's latest failure waits to run `job` again after `delay`. */
    ghost predicate Scheduled(job: Job, delay: int)
      reads this, repo
    {
      && job.event in repo.events && Stands(Task(job.event, repo.events[job.event].attempt), Waiting(job))
      && job.event in hist.delays && hist.delays[job.event] != []
      && hist.delays[job.event][|hist.delays[job.event]| - 1] == delay
    }

    /** Enters a move whose effect on the stores has just been made. */
    method Enter(before: State, m: Move)
      requires queue.Valid() && Legal(cfg, moves) && before == After(cfg, moves) && Enabled(before, m)
      requires forall t | t in script :: 0.0 <= t.choice.jitter < 1.0
      requires repo.Tables() == Next(cfg, before, m).db && queue.Server() == Next(cfg, before, m).broker
      modifies this`procs, this`hist, this`moves
      ensures Valid() && Current() == Next(cfg, before, m) && moves == old(moves) + [m]
      ensures Onward(BooksOf(before), Ledger())
      ensures Before() == before
    {
      hide Next, Enabled, Onward;
      MoveGoesOn(cfg, moves, m);
      var after := Next(cfg, before, m);
      procs, hist := after.procs, after.hist;
      moves := moves + [m];
      assert moves[..|moves| - 1] == old(moves);
    }

    /** A move of some other process. */
    method Apply(m: Move)
      requires Valid() && Enabled(Current(), m)
      modifies this`procs, this`hist, this`moves, repo, queue
      ensures Valid() && Current() == Next(cfg, old(Current()), m) && moves == old(moves) + [m]
      ensures Onward(old(Ledger()), Ledger())
    {
      hide Next, Enabled, Onward;
      var before := Current();
      var after := Next(cfg, before, m);
      BrokerStaysValid(cfg, moves, m);
      repo.events, repo.idempotency := after.db.rows, after.db.idempotency;
      queue.Load(after.broker);
      Enter(before, m);
    }

    /** Process `p` reaches the end of its code. */
    method Return(p: ProcId)
      requires Valid() && !Ended(p)
      modifies this`procs, this`hist, this`moves
      ensures Valid() && Ended(p) && moves == old(moves) + [Halt(p)]
    {
      hide Legal, After, RedisQueue.Valid, Onward;
      Enter(Current(), Halt(p));
    }

    /** Others move; then `p` learns the fate of its next step, or stops for good. */
    method Wait(p: ProcId) returns (alive: bool, turn: Turn)
      requires Valid()
      modifies this, repo, queue
      ensures Valid() && old(moves) <= moves
      ensures killed == (old(killed) + if alive then {} else {p}) && last == turn
      ensures p.Handler? ==> (p.event in repo.events <==> p.event in old(repo.events))
      ensures p.Handler? && p.event in repo.events && old(repo.events)[p.event].status.Received? ==>
          repo.events[p.event] == old(repo.events)[p.event]
      ensures alive && p in old(procs) ==> p in procs && procs[p] == old(procs)[p]
      ensures p !in old(procs) && !p.Task? ==> p !in procs
      ensures !alive ==> Ended(p)
      ensures old(repo.events).Keys <= repo.events.Keys == hist.commits.Keys == hist.delays.Keys
              && old(queue.log) <= queue.log
      ensures |script| <= |old(script)| && (alive ==> |script| < |old(script)| && 0.0 <= turn.choice.jitter < 1.0)
      ensures Onward(old(Ledger()), Ledger())
    {
      hide Next, Legal, After, Onward;
      SameBooks(Ledger());
      turn := Turn([], Choice(Refused, 0, false, 0.0), true, true);
      if script != [] {
        turn, script := script[0], script[1..];
        LetOthersMove(p, turn.others);
      }
      alive, last := !turn.killed, turn;
      if !alive {
        ghost var books := Ledger();
        Kill(p);
        OnwardTrans(old(Ledger()), books, Ledger());
      }
      HistoryIsOfRows(cfg, moves);
    }

    method Kill(p: ProcId)
      requires Valid()
      modifies this`procs, this`hist, this`moves, this`killed, repo, queue
      ensures Valid() && old(moves) <= moves && Ended(p) && killed == old(killed) + {p}
      ensures repo.events == old(repo.events) && queue.log == old(queue.log)
      ensures procs.Keys == old(procs).Keys && Onward(old(Ledger()), Ledger())
    {
      hide Next, Legal, After, Onward;
      SameBooks(Ledger());
      if Active(Current(), p) {
        HaltStops(cfg, Current(), p);
        Apply(Halt(p));
      }
      killed := killed + {p};
    }

    method LetOthersMove(p: ProcId, others: seq<Move>)
      requires Valid()
      modifies this`procs, this`hist, this`moves, repo, queue
      ensures Valid() && old(moves) <= moves
      ensures p in old(procs) ==> p in procs && procs[p] == old(procs)[p]
      ensures p !in old(procs) && !p.Task? ==> p !in procs
      ensures old(repo.events).Keys <= repo.events.Keys && old(queue.log) <= queue.log
      ensures p.Handler? ==> (p.event in repo.events <==> p.event in old(repo.events))
      ensures p.Handler? && p.event in repo.events && old(repo.events)[p.event].status.Received? ==>
          repo.events[p.event] == old(repo.events)[p.event]
      ensures Onward(old(Ledger()), Ledger())
    {
      hide Enabled, Next, Legal, After, Onward;
      SameBooks(Ledger());
      for k := 0 to |others|
        invariant Valid() && old(moves) <= moves
        invariant p in old(procs) ==> p in procs && procs[p] == old(procs)[p]
        invariant p !in old(procs) && !p.Task? ==> p !in procs
        invariant Onward(old(Ledger()), Ledger())
        invariant old(repo.events).Keys <= repo.events.Keys && old(queue.log) <= queue.log
        invariant p.Handler? ==> (p.event in repo.events <==> p.event in old(repo.events))
        invariant p.Handler? && p.event in repo.events && old(repo.events)[p.event].status.Received? ==>
            repo.events[p.event] == old(repo.events)[p.event]
      {
        var m := others[k];
        if Enabled(Current(), m) && !Concerns(m, p) {
          StepLeavesOthers(cfg, moves, m, p);
          assert Current() == After(cfg, moves);
          ghost var books := Ledger();
          Apply(m);
          OnwardTrans(old(Ledger()), books, Ledger());
        }
      }
    }
  }

  lemma HistoryIsOfRows(cfg: Config, moves: seq<Move>)
    requires Legal(cfg, moves)
    ensures var s := After(cfg, moves);
            s.hist.commits.Keys == s.db.rows.Keys == s.hist.delays.Keys
  {
    hide After, Legal;
    RunsKeepInv(cfg, moves);
  }

  lemma HaltStops(cfg: Config, s: State, p: ProcId)
    requires Active(s, p)
    ensures var s' := Next(cfg, s, Halt(p));
            !Active(s', p) && s'.db == s.db && s'.broker == s.broker && s'.procs.Keys == s.procs.Keys
  {
  }

  lemma BrokerStaysValid(cfg: Config, moves: seq<Move>, m: Move)
    requires Legal(cfg, moves) && Enabled(After(cfg, moves), m)
    ensures Next(cfg, After(cfg, moves), m).broker.Valid()
  {
    hide Next;
    RunsKeepInv(cfg, moves);
    NextKeeps(cfg, After(cfg, moves), m);
  }

  /** A step of `q` starts a retry goroutine only under a number that no earlier failure has used. */
  lemma ActLeavesOthers(cfg: Config, s: State, q: ProcId, c: Choice, p: ProcId)
    requires Inv(cfg, s) && Active(s, q) && p != q && p in s.procs
    ensures var s' := Resume(cfg, Set(s, q, Gone), q, s.procs[q], c);
            p in s'.procs && s'.procs[p] == s.procs[p]
  {
    hide Resume, Inv;
    var parked := Set(s, q, Gone);
    assert p in parked.procs;
    OnlyTheActorMoves(cfg, parked, q, s.procs[q], c);
    if p.Task? {
      SpawnsOneTask(cfg, parked, q, s.procs[q], c);
      FactsOf(cfg, s);
      assert ProcIdOk(s.db.rows, p);
    }
  }

  lemma SpawnsOneTask(cfg: Config, s: State, q: ProcId, pc: Proc, c: Choice)
    ensures var s' := Resume(cfg, s, q, pc, c);
            forall p: ProcId | p.Task? && p != q && p in s.procs && !(p in s'.procs && s'.procs[p] == s.procs[p]) ::
              p.event in s.db.rows && p.failure == s.db.rows[p.event].attempt + 1
  {
    if pc.Failing? {
      hide ActFailing, OthersStay;
    } else {
      hide Resume;
      OwnCounterOnly(cfg, s, q, pc, c);
    }
  }

  lemma OwnCounterOnly(cfg: Config, s: State, q: ProcId, pc: Proc, c: Choice)
    requires !pc.Failing?
    ensures var s' := Resume(cfg, s, q, pc, c);
            forall p | p != q && p in s.procs :: p in s'.procs && s'.procs[p] == s.procs[p]
  {
    hide OthersStay, PollsRestart, UpdateStatusTx, Handoff,
      ActPolling, ActClaiming, ActFinalizing, ActClosing, ActSweeping, ActResetting;
    match pc
    case Enqueuing(e, r) =>
      HandoffMovesNobody(s, q, e, r, UpdateStatusTx(s.db, e, Received, Queued, c.now));
    case Requeuing(job, r) =>
      HandoffMovesNobody(s, q, job.event, r, UpdateStatusTx(s.db, job.event, Retrying, Queued, c.now));
    case Sweeping(_, _, _, _) =>
      SweeperMovesAlone(cfg, s, q, pc, c);
    case Resetting(_, _, _, _, _) =>
      SweeperMovesAlone(cfg, s, q, pc, c);
    case _ =>
  }

  lemma LogsOnlyGrow(cfg: Config, s: State, q: ProcId, pc: Proc, c: Choice)
    ensures s.broker.log <= Resume(cfg, s, q, pc, c).broker.log
  {
    hide ActPublishing, ActEnqueuing, ActPolling, ActClaiming, ActFinalizing, ActFailing,
      ActClosing, ActWaiting, ActReleasing, ActRequeuing, ActSweeping, ActResetting;
  }

  lemma StepLeavesOthers(cfg: Config, moves: seq<Move>, m: Move, p: ProcId)
    requires Legal(cfg, moves) && Enabled(After(cfg, moves), m) && !Concerns(m, p)
    ensures var s, s' := After(cfg, moves), Next(cfg, After(cfg, moves), m);
            && (p in s.procs ==> p in s'.procs && s'.procs[p] == s.procs[p])
            && (p !in s.procs && !p.Task? ==> p !in s'.procs)
            && s.db.rows.Keys <= s'.db.rows.Keys && s.broker.log <= s'.broker.log
            && (p.Handler? ==> (p.event in s'.db.rows <==> p.event in s.db.rows))
            && (p.Handler? && p.event in s.db.rows && s.db.rows[p.event].status.Received? ==>
                  s'.db.rows[p.event] == s.db.rows[p.event])
  {
    hide Resume, Inv, After;
    var s := After(cfg, moves);
    RunsKeepInv(cfg, moves);
    if m.Act? {
      var parked := Set(s, m.actor, Gone);
      WhoChangesARow(cfg, parked, m.actor, s.procs[m.actor], m.choice);
      FactsOf(cfg, s);
      assert ProcIdOk(s.db.rows, m.actor) && ProcOk(ViewOf(s), m.actor, s.procs[m.actor]);
      LogsOnlyGrow(cfg, parked, m.actor, s.procs[m.actor], m.choice);
      if p in s.procs {
        ActLeavesOthers(cfg, s, m.actor, m.choice, p);
      } else {
        assert p !in parked.procs;
        OnlyTheActorMoves(cfg, parked, m.actor, s.procs[m.actor], m.choice);
      }
    }
  }
}
