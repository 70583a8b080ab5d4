/**
 Concrete runs that show which stronger claims the code does not meet: a handoff can lose its only copy, a copy can be
 stranded with a worker that never claims it, an accepted event can stay RECEIVED, a worker in mid-round can pass over
 a higher stream, and neither accurate nor silent owners alone keep processing exclusive.
 */
module Witnesses {
  import opened Events
  import opened Trails
  import opened EventStore
  import opened Streams
  import opened Backoff
  import opened Protocol
  import opened ProtocolTheorems
  import opened Exclusive
  import opened Continuations
  import opened Stopped
  import opened Completion
  import opened Drain

  /** What an absent answer can be trusted to mean: the owner stopped, or it has not moved, or nothing. */
  datatype Trust = Dead | Idle | Anything

  ghost predicate MayBeAbsent(cfg: Config, k: Trust, s: State, u: Uuid, since: nat) {
    match k
    case Dead => forall q | q in s.procs && Owns(cfg, q, u) :: s.procs[q] == Gone
    case Idle => Unmoved(cfg, s, u, since)
    case Anything => true
  }

  /** Like `Fenced`, but with half of what it asks of absent owners, or nothing at all. */
  ghost predicate Trusted(cfg: Config, k: Trust, s: State, m: Move) {
    k.Anything? ||
    match m
    case Boot(name) =>
      && Worker(name) !in s.procs && OwnerOf(cfg, name).Some?
      && forall p | p in s.procs :: !Owns(cfg, p, OwnerOf(cfg, name).value)
    case Snapshot(_, _, _, _) => forall p | p in s.procs && p.Sweeper? :: s.procs[p] == Gone
    case Act(p, c) =>
      p in s.procs ==> forall u | FindsAbsent(s.procs[p], c, u) :: MayBeAbsent(cfg, k, s, u, s.procs[p].since)
    case _ => true
  }

  ghost predicate TrustedRun(cfg: Config, k: Trust, moves: seq<Move>)
    requires Legal(cfg, moves)
    decreases |moves|
  {
    moves != [] ==>
      TrustedRun(cfg, k, moves[..|moves| - 1]) && Trusted(cfg, k, After(cfg, moves[..|moves| - 1]), moves[|moves| - 1])
  }

  /** A system with the one event 0, seen through the parts that steer its next moves. */
  datatype Scene = Scene(row: Row, log: seq<Message>, high: nat, found: map<nat, Status>, procs: map<ProcId, Proc>)

  ghost predicate Looks(s: State, x: Scene) {
    && s.db == Db(map[0 := x.row], map[])
    && s.broker.log == x.log && s.broker.cursors == Cursors(x.high, 0, 0)
    && s.hist.found == x.found && s.procs == x.procs
    && s.hist.commits.Keys == {0} && s.hist.delays.Keys == {0}
  }

  ghost predicate At(cfg: Config, k: Trust, moves: seq<Move>, x: Scene) {
    Legal(cfg, moves) && TrustedRun(cfg, k, moves) && Looks(After(cfg, moves), x)
  }

  lemma Grow(cfg: Config, k: Trust, moves: seq<Move>, m: Move, x: Scene)
    requires Legal(cfg, moves) && TrustedRun(cfg, k, moves)
    requires Enabled(After(cfg, moves), m) && Trusted(cfg, k, After(cfg, moves), m)
            && Looks(Next(cfg, After(cfg, moves), m), x)
    ensures At(cfg, k, moves + [m], x)
  {
    hide Next, Looks, Trusted, Enabled;
    assert (moves + [m])[..|moves|] == moves;
  }

  /** A process that is not about to look up a heartbeat may act. */
  lemma CanAct(cfg: Config, k: Trust, moves: seq<Move>, x: Scene, p: ProcId)
    requires At(cfg, k, moves, x) && p in x.procs && x.procs[p] != Gone
    requires forall u :: !FindsAbsent(x.procs[p], YES, u)
    ensures Legal(cfg, moves) && TrustedRun(cfg, k, moves) && Looks(After(cfg, moves), x)
    ensures Enabled(After(cfg, moves), Act(p, YES)) && Trusted(cfg, k, After(cfg, moves), Act(p, YES))
  {
    hide Legal, TrustedRun;
  }

  lemma SubmitStep(cfg: Config, k: Trust)
    ensures At(cfg, k, [Submit(0, 10, Delivered, 0)],
        Scene(NewRow(10, 0), [], 0, map[], map[Handler(0) := Publishing(0, 10)]))
  {
    assert Legal(cfg, []) && TrustedRun(cfg, k, [])
        && [] + [Submit(0, 10, Delivered, 0)] == [Submit(0, 10, Delivered, 0)];
    Grow(cfg, k, [], Submit(0, 10, Delivered, 0),
        Scene(NewRow(10, 0), [], 0, map[], map[Handler(0) := Publishing(0, 10)]));
  }

  lemma CopyLooks(cfg: Config, s: State, x: Scene)
    requires Looks(s, x) && Handler(0) in x.procs && x.procs[Handler(0)] == Publishing(0, 10)
    ensures Looks(Next(cfg, s, Act(Handler(0), YES)),
               x.(log := x.log + [Message(0, 10, 0)], procs := x.procs[Handler(0) := Enqueuing(0, |x.log|)]))
  {
  }

  /** The handler publishes its copy. */
  lemma PublishStep(cfg: Config, k: Trust, moves: seq<Move>, x: Scene)
    requires At(cfg, k, moves, x) && Handler(0) in x.procs && x.procs[Handler(0)] == Publishing(0, 10)
    ensures At(cfg, k, moves + [Act(Handler(0), YES)],
               x.(log := x.log + [Message(0, 10, 0)], procs := x.procs[Handler(0) := Enqueuing(0, |x.log|)]))
  {
    hide Next, Looks, Legal, TrustedRun, Trusted, At;
    CanAct(cfg, k, moves, x, Handler(0));
    CopyLooks(cfg, After(cfg, moves), x);
    Grow(cfg, k, moves, Act(Handler(0), YES),
         x.(log := x.log + [Message(0, 10, 0)], procs := x.procs[Handler(0) := Enqueuing(0, |x.log|)]));
  }

  lemma EnqueueLooks(cfg: Config, s: State, x: Scene, r: nat)
    requires Looks(s, x) && Handler(0) in x.procs && x.procs[Handler(0)] == Enqueuing(0, r) && x.row.status.Received?
    ensures Looks(Next(cfg, s, Act(Handler(0), YES)),
                  x.(row := x.row.(status := Queued, updatedAt := 0), procs := x.procs[Handler(0) := Gone]))
  {
  }

  /** The handler marks the row QUEUED. */
  lemma EnqueueStep(cfg: Config, k: Trust, moves: seq<Move>, x: Scene, r: nat)
    requires At(cfg, k, moves, x) && Handler(0) in x.procs && x.procs[Handler(0)] == Enqueuing(0, r)
            && x.row.status.Received?
    ensures At(cfg, k, moves + [Act(Handler(0), YES)],
               x.(row := x.row.(status := Queued, updatedAt := 0), procs := x.procs[Handler(0) := Gone]))
  {
    hide Next, Looks, Legal, TrustedRun, Trusted, At;
    CanAct(cfg, k, moves, x, Handler(0));
    EnqueueLooks(cfg, After(cfg, moves), x, r);
    Grow(cfg, k, moves, Act(Handler(0), YES),
         x.(row := x.row.(status := Queued, updatedAt := 0), procs := x.procs[Handler(0) := Gone]));
  }

  lemma BootStep(cfg: Config, k: Trust, moves: seq<Move>, x: Scene, name: string)
    requires At(cfg, k, moves, x) && Worker(name) !in x.procs
    requires k.Anything? || OwnerOf(cfg, name).Some?
    requires k.Anything? || forall p | p in x.procs :: !Owns(cfg, p, OwnerOf(cfg, name).value)
    ensures At(cfg, k, moves + [Boot(name)], x.(procs := x.procs[Worker(name) := Polling(High)]))
  {
    hide Legal, TrustedRun;
    Grow(cfg, k, moves, Boot(name), x.(procs := x.procs[Worker(name) := Polling(High)]));
  }

  lemma TakeLooks(cfg: Config, s: State, x: Scene, p: ProcId)
    requires Looks(s, x) && p.Worker? && p in x.procs && x.procs[p] == Polling(High)
    requires x.high < |x.log| && x.log[x.high].priority == 10
    ensures Looks(Next(cfg, s, Act(p, YES)),
                  x.(high := x.high + 1, procs := x.procs[p := Claiming(JobOf(x.high, x.log[x.high]))]))
  {
    assert NextFrom(x.log, High, x.high) == x.high;
  }

  /** A worker takes the next high-priority copy. */
  lemma TakeStep(cfg: Config, k: Trust, moves: seq<Move>, x: Scene, p: ProcId)
    requires At(cfg, k, moves, x) && p.Worker? && p in x.procs && x.procs[p] == Polling(High)
    requires x.high < |x.log| && x.log[x.high].priority == 10
    ensures At(cfg, k, moves + [Act(p, YES)],
               x.(high := x.high + 1, procs := x.procs[p := Claiming(JobOf(x.high, x.log[x.high]))]))
  {
    hide Next, Looks, Legal, TrustedRun, Trusted, At;
    CanAct(cfg, k, moves, x, p);
    TakeLooks(cfg, After(cfg, moves), x, p);
    Grow(cfg, k, moves, Act(p, YES),
        x.(high := x.high + 1, procs := x.procs[p := Claiming(JobOf(x.high, x.log[x.high]))]));
  }

  lemma ConflictLooks(cfg: Config, s: State, x: Scene, p: ProcId, job: Job)
    requires Looks(s, x) && p.Worker? && p in x.procs && x.procs[p] == Claiming(job) && job.event == 0
    requires x.row.status.Received?
    ensures Looks(Next(cfg, s, Act(p, YES)),
                  x.(found := x.found[job.receipt := Received],
                      procs := x.procs[p := Closing(job, Conflict, [AckMessage])]))
  {
  }

  lemma ConflictStep(cfg: Config, k: Trust, moves: seq<Move>, x: Scene, p: ProcId, job: Job)
    requires At(cfg, k, moves, x) && p.Worker? && p in x.procs && x.procs[p] == Claiming(job) && job.event == 0
    requires x.row.status.Received?
    ensures At(cfg, k, moves + [Act(p, YES)],
               x.(found := x.found[job.receipt := Received],
                   procs := x.procs[p := Closing(job, Conflict, [AckMessage])]))
  {
    hide Next, Looks, Legal, TrustedRun, Trusted, At;
    CanAct(cfg, k, moves, x, p);
    ConflictLooks(cfg, After(cfg, moves), x, p, job);
    Grow(cfg, k, moves, Act(p, YES),
         x.(found := x.found[job.receipt := Received], procs := x.procs[p := Closing(job, Conflict, [AckMessage])]));
  }

  function Claimed(cfg: Config, x: Scene, name: string, job: Job): Scene {
    x.(row := x.row.(status := Processing, worker := OwnerOf(cfg, name), updatedAt := 0),
       found := x.found[job.receipt := Queued], procs := x.procs[Worker(name) := Running(job)])
  }

  lemma ClaimLooks(cfg: Config, s: State, x: Scene, name: string, job: Job)
    requires Looks(s, x) && Worker(name) in x.procs && x.procs[Worker(name)] == Claiming(job) && job.event == 0
    requires x.row.status.Queued?
    ensures Looks(Next(cfg, s, Act(Worker(name), YES)), Claimed(cfg, x, name, job))
  {
    var s' := Next(cfg, s, Act(Worker(name), YES));
    var tx := AssignTx(s.db, 0, OwnerOf(cfg, name), Queued, Processing, 0);
    assert tx.db == s'.db;
  }

  lemma ClaimStep(cfg: Config, k: Trust, moves: seq<Move>, x: Scene, name: string, job: Job)
    requires At(cfg, k, moves, x) && Worker(name) in x.procs && x.procs[Worker(name)] == Claiming(job) && job.event == 0
    requires x.row.status.Queued?
    ensures At(cfg, k, moves + [Act(Worker(name), YES)], Claimed(cfg, x, name, job))
  {
    hide Next, Looks, Legal, TrustedRun, Trusted, At, Claimed;
    CanAct(cfg, k, moves, x, Worker(name));
    ClaimLooks(cfg, After(cfg, moves), x, name, job);
    Grow(cfg, k, moves, Act(Worker(name), YES), Claimed(cfg, x, name, job));
  }

  /** Event 0, still RECEIVED with its handler about to queue it, when its only copy has been claimed and refused. */
  function ClaimedEarly(name: string): Scene {
    Scene(NewRow(10, 0), [Message(0, 10, 0)], 1, map[0 := Received],
          map[Handler(0) := Enqueuing(0, 0), Worker(name) := Closing(Job(0, 0, 10, 0), Conflict, [AckMessage])])
  }

  lemma EarlyRun(cfg: Config, name: string) returns (moves: seq<Move>)
    ensures At(cfg, Anything, moves, ClaimedEarly(name))
  {
    hide At;
    var k, w := Anything, Worker(name);
    moves := PublishedRun(cfg, k);
    var x := Published();
    BootStep(cfg, k, moves, x, name);
    moves := moves + [Boot(name)];
    x := x.(procs := x.procs[w := Polling(High)]);
    TakeStep(cfg, k, moves, x, w);
    moves := moves + [Act(w, YES)];
    x := x.(high := 1, procs := x.procs[w := Claiming(Job(0, 0, 10, 0))]);
    ConflictStep(cfg, k, moves, x, w, Job(0, 0, 10, 0));
    moves := moves + [Act(w, YES)];
    assert x.(found := x.found[0 := Received], procs := x.procs[w := Closing(Job(0, 0, 10, 0), Conflict, [AckMessage])])
           == ClaimedEarly(name);
  }

  /**
   Loss in the handoff window: a worker takes the copy while the row is still RECEIVED and discards it; the
   handler then marks the row QUEUED, and the event is lost for good.
   */
  lemma AHandoffCanLoseItsCopy(cfg: Config, name: string) returns (moves: seq<Move>)
    ensures Legal(cfg, moves) && 0 in After(cfg, moves).hist.early && LostInQueue(After(cfg, moves), 0)
  {
    hide Legal, After, TrustedRun, Next, At;
    var k, x := Anything, ClaimedEarly(name);
    moves := EarlyRun(cfg, name);
    EnqueueStep(cfg, k, moves, x, 0);
    moves := moves + [Act(Handler(0), YES)];
    x := x.(row := x.row.(status := Queued, updatedAt := 0), procs := x.procs[Handler(0) := Gone]);
    Seen(cfg, k, moves, x);
    LooksLost(After(cfg, moves), x);
    HandoffCopiesAreKept(cfg, moves, 0);
  }

  /** An event can be doomed before it has stopped: one move earlier the row can still change, but not be completed. */
  lemma AReceivedEventCanBeDoomed(cfg: Config, name: string) returns (moves: seq<Move>)
    ensures Legal(cfg, moves)
    ensures var s := After(cfg, moves);
            0 in s.db.rows && s.db.rows[0].status.Received? && !HasStopped(s, 0) && Doomed(cfg, s, 0)
  {
    hide Legal, After, TrustedRun, At;
    moves := EarlyRun(cfg, name);
    Seen(cfg, Anything, moves, ClaimedEarly(name));
    LooksSpent(After(cfg, moves), ClaimedEarly(name));
  }

  lemma LooksSpent(s: State, x: Scene)
    requires Looks(s, x) && x.log == [Message(0, 10, 0)] && x.high == 1
    requires forall p | p in x.procs :: !IsClaimant(x.procs[p], 0) && !MayPublish(x.procs[p], 0)
    ensures Spent(s, 0)
  {
  }

  /**
   So can one that a worker holds, when its id does not parse and it has one attempt: with the processor's error
   not yet recorded the row is not stopped, but all that can still come of it is FAILED, or PROCESSING for ever.
   */
  lemma AHeldEventCanBeDoomed(cfg: Config, name: string) returns (moves: seq<Move>)
    requires OwnerOf(cfg, name).None? && cfg.maxAttempts <= 1
    ensures Legal(cfg, moves)
    ensures var s := After(cfg, moves);
            && 0 in s.db.rows && s.db.rows[0].status.Processing? && !NobodyHolds(s, 0)
            && !HasStopped(s, 0) && Doomed(cfg, s, 0)
  {
    hide Legal, After, TrustedRun, Next, At;
    var k, w, job := Anything, Worker(name), Job(0, 0, 10, 0);
    moves := AcceptRun(cfg, k);
    var x := Accepted();
    BootStep(cfg, k, moves, x, name);
    moves := moves + [Boot(name)];
    x := x.(procs := x.procs[w := Polling(High)]);
    TakeStep(cfg, k, moves, x, w);
    moves := moves + [Act(w, YES)];
    x := x.(high := 1, procs := x.procs[w := Claiming(job)]);
    ClaimStep(cfg, k, moves, x, name, job);
    moves := moves + [Act(w, YES)];
    x := Claimed(cfg, x, name, job);
    ErrorStep(cfg, k, moves, x, w, job);
    moves := moves + [Act(w, NO)];
    x := x.(procs := x.procs[w := Failing(job)]);
    Seen(cfg, k, moves, x);
    var s := After(cfg, moves);
    assert s.procs == map[Handler(0) := Gone, w := Failing(job)];
    assert Holds(s.procs[w], 0);
  }

  /**
   Loss without any early claim: the copy is read by a worker that is killed before it claims. Nobody reads a
   delivered message again, and sweeps do not look at QUEUED rows.
   */
  lemma ACopyCanBeStranded(cfg: Config, name: string) returns (moves: seq<Move>)
    ensures Legal(cfg, moves) && 0 !in After(cfg, moves).hist.early && LostInQueue(After(cfg, moves), 0)
  {
    hide Legal, After, TrustedRun, Next, At;
    var k, w := Anything, Worker(name);
    moves := AcceptRun(cfg, k);
    var x := Accepted();
    BootStep(cfg, k, moves, x, name);
    moves := moves + [Boot(name)];
    x := x.(procs := x.procs[w := Polling(High)]);
    TakeStep(cfg, k, moves, x, w);
    moves := moves + [Act(w, YES)];
    x := x.(high := 1, procs := x.procs[w := Claiming(Job(0, 0, 10, 0))]);
    HaltStep(cfg, k, moves, x, w);
    moves := moves + [Halt(w)];
    x := x.(procs := x.procs[w := Gone]);
    Seen(cfg, k, moves, x);
    LooksLost(After(cfg, moves), x);
    HandoffCopiesAreKept(cfg, moves, 0);
  }

  /**
   An accepted event that is never queued: the copy is published, so the client is told 202, but the status write
   fails. The row stays RECEIVED, every claim of the copy is refused, and no sweep looks at RECEIVED rows.
   */
  lemma AnAcceptedEventCanStayReceived(cfg: Config) returns (moves: seq<Move>)
    ensures Legal(cfg, moves) && After(cfg, moves).broker.log == [Message(0, 10, 0)]
    ensures var s := After(cfg, moves);
            0 in s.db.rows && s.db.rows[0].status.Received? && FrozenFrom(cfg, moves, 0)
  {
    hide Legal, After, TrustedRun, Next, At, FrozenFrom;
    var k := Anything;
    moves := PublishedRun(cfg, k);
    var x := Published();
    WriteFailsStep(cfg, k, moves, x);
    moves := moves + [Act(Handler(0), FAILS)];
    x := x.(procs := x.procs[Handler(0) := Gone]);
    Seen(cfg, k, moves, x);
    ReceivedIsStuckExactlyWhen(cfg, moves, 0);
  }

  lemma Seen(cfg: Config, k: Trust, moves: seq<Move>, x: Scene)
    requires At(cfg, k, moves, x)
    ensures Legal(cfg, moves) && Looks(After(cfg, moves), x)
  {
  }

  lemma LooksLost(s: State, x: Scene)
    requires Looks(s, x) && x.row.status.Queued? && x.log == [Message(0, 10, 0)] && x.high == 1
    requires forall p | p in x.procs :: x.procs[p] == Gone || x.procs[p].Closing?
    ensures LostInQueue(s, 0)
  {
  }

  /** Event 0, created and published, but not QUEUED yet. */
  function Published(): Scene {
    Scene(NewRow(10, 0), [Message(0, 10, 0)], 0, map[], map[Handler(0) := Enqueuing(0, 0)])
  }

  lemma PublishedRun(cfg: Config, k: Trust) returns (moves: seq<Move>)
    ensures At(cfg, k, moves, Published())
  {
    hide At;
    SubmitStep(cfg, k);
    moves := [Submit(0, 10, Delivered, 0)];
    var x := Scene(NewRow(10, 0), [], 0, map[], map[Handler(0) := Publishing(0, 10)]);
    PublishStep(cfg, k, moves, x);
    moves := moves + [Act(Handler(0), YES)];
    assert x.(log := x.log + [Message(0, 10, 0)], procs := x.procs[Handler(0) := Enqueuing(0, |x.log|)]) == Published();
  }

  /** The handler's status write is not carried out, and the handler ends. */
  lemma WriteFailsStep(cfg: Config, k: Trust, moves: seq<Move>, x: Scene)
    requires At(cfg, k, moves, x) && Handler(0) in x.procs && x.procs[Handler(0)].Enqueuing?
    ensures At(cfg, k, moves + [Act(Handler(0), FAILS)], x.(procs := x.procs[Handler(0) := Gone]))
  {
    hide Legal, TrustedRun;
    Grow(cfg, k, moves, Act(Handler(0), FAILS), x.(procs := x.procs[Handler(0) := Gone]));
  }

  lemma SnapshotStep(cfg: Config, k: Trust, moves: seq<Move>, x: Scene)
    requires At(cfg, k, moves, x) && x.row.status.Processing? && x.row.updatedAt == 0
    requires forall p | p in x.procs :: !p.Sweeper?
    ensures At(cfg, k, moves + [Snapshot(0, Processing, 1, [Stale(0, x.row)])],
               x.(procs := x.procs[Sweeper(0) := Sweeping(Processing, [Stale(0, x.row)], map[],
                   After(cfg, moves).hist.clock)]))
  {
    hide Legal, TrustedRun;
    assert [Stale(0, x.row)][0].id == 0;
    Grow(cfg, k, moves, Snapshot(0, Processing, 1, [Stale(0, x.row)]),
         x.(procs := x.procs[Sweeper(0) := Sweeping(Processing, [Stale(0, x.row)], map[],
             After(cfg, moves).hist.clock)]));
  }

  /** The processor reports an error. */
  lemma ErrorStep(cfg: Config, k: Trust, moves: seq<Move>, x: Scene, p: ProcId, job: Job)
    requires At(cfg, k, moves, x) && p.Worker? && p in x.procs && x.procs[p] == Running(job)
    ensures At(cfg, k, moves + [Act(p, NO)], x.(procs := x.procs[p := Failing(job)]))
  {
    hide Legal, TrustedRun;
    Grow(cfg, k, moves, Act(p, NO), x.(procs := x.procs[p := Failing(job)]));
  }

  function Failed1(x: Scene, p: ProcId, job: Job): Scene {
    x.(row := x.row.(status := Retrying, attempt := 1, updatedAt := 0),
       procs := x.procs[Task(0, 1) := Waiting(job.(attempt := job.attempt + 1))][p := Polling(High)])
  }

  /** The first failure of the event is recorded and its retry scheduled. */
  lemma FailLooks(cfg: Config, s: State, x: Scene, p: ProcId, job: Job)
    requires Looks(s, x) && p.Worker? && p in x.procs && x.procs[p] == Failing(job) && job.event == 0
    requires x.row.status.Processing? && x.row.attempt == 0 && cfg.maxAttempts >= 2
    ensures Looks(Next(cfg, s, Act(p, YES)), Failed1(x, p, job))
  {
    hide CalculateBackoff, RecordFailureTx;
    FailureWrites(s.db, cfg.maxAttempts);
  }

  lemma FailureWrites(db: Db, maxAttempts: int)
    requires 0 in db.rows && db.rows[0].status.Processing? && db.rows[0].attempt == 0 && maxAttempts >= 2
    ensures var row := db.rows[0].(status := Retrying, attempt := 1, updatedAt := 0);
            RecordFailureTx(db, 0, maxAttempts, 0) == Tx(db.(rows := db.rows[0 := row]), Ok)
  {
  }

  lemma FailStep(cfg: Config, k: Trust, moves: seq<Move>, x: Scene, p: ProcId, job: Job)
    requires At(cfg, k, moves, x) && p.Worker? && p in x.procs && x.procs[p] == Failing(job) && job.event == 0
    requires x.row.status.Processing? && x.row.attempt == 0 && cfg.maxAttempts >= 2
    ensures At(cfg, k, moves + [Act(p, YES)], Failed1(x, p, job))
  {
    hide Next, Looks, Legal, TrustedRun, Trusted, At, Failed1;
    CanAct(cfg, k, moves, x, p);
    FailLooks(cfg, After(cfg, moves), x, p, job);
    Grow(cfg, k, moves, Act(p, YES), Failed1(x, p, job));
  }

  lemma RetryLooks(cfg: Config, s: State, x: Scene, job: Job)
    requires Looks(s, x) && Task(0, 1) in x.procs && x.procs[Task(0, 1)] == Waiting(job)
    ensures Looks(Next(cfg, s, Act(Task(0, 1), YES)),
               x.(log := x.log + [MessageOf(job)], procs := x.procs[Task(0, 1) := Releasing(job, |x.log|)]))
  {
  }

  lemma RetryStep(cfg: Config, k: Trust, moves: seq<Move>, x: Scene, job: Job)
    requires At(cfg, k, moves, x) && Task(0, 1) in x.procs && x.procs[Task(0, 1)] == Waiting(job)
    ensures At(cfg, k, moves + [Act(Task(0, 1), YES)],
               x.(log := x.log + [MessageOf(job)], procs := x.procs[Task(0, 1) := Releasing(job, |x.log|)]))
  {
    hide Next, Looks, Legal, TrustedRun, Trusted, At;
    CanAct(cfg, k, moves, x, Task(0, 1));
    RetryLooks(cfg, After(cfg, moves), x, job);
    Grow(cfg, k, moves, Act(Task(0, 1), YES),
         x.(log := x.log + [MessageOf(job)], procs := x.procs[Task(0, 1) := Releasing(job, |x.log|)]));
  }

  lemma ReleaseLooks(cfg: Config, s: State, x: Scene, job: Job, r: nat)
    requires Looks(s, x) && Task(0, 1) in x.procs && x.procs[Task(0, 1)] == Releasing(job, r)
    ensures Looks(Next(cfg, s, Act(Task(0, 1), YES)), x.(procs := x.procs[Task(0, 1) := Requeuing(job, r)]))
  {
  }

  lemma ReleaseStep(cfg: Config, k: Trust, moves: seq<Move>, x: Scene, job: Job, r: nat)
    requires At(cfg, k, moves, x) && Task(0, 1) in x.procs && x.procs[Task(0, 1)] == Releasing(job, r)
    ensures At(cfg, k, moves + [Act(Task(0, 1), YES)], x.(procs := x.procs[Task(0, 1) := Requeuing(job, r)]))
  {
    hide Next, Looks, Legal, TrustedRun, Trusted, At;
    CanAct(cfg, k, moves, x, Task(0, 1));
    ReleaseLooks(cfg, After(cfg, moves), x, job, r);
    Grow(cfg, k, moves, Act(Task(0, 1), YES), x.(procs := x.procs[Task(0, 1) := Requeuing(job, r)]));
  }

  lemma RequeueLooks(cfg: Config, s: State, x: Scene, job: Job, r: nat)
    requires Looks(s, x) && Task(0, 1) in x.procs && x.procs[Task(0, 1)] == Requeuing(job, r) && job.event == 0
    requires x.row.status.Retrying?
    ensures Looks(Next(cfg, s, Act(Task(0, 1), YES)),
                  x.(row := x.row.(status := Queued, updatedAt := 0), procs := x.procs[Task(0, 1) := Gone]))
  {
  }

  lemma RequeueStep(cfg: Config, k: Trust, moves: seq<Move>, x: Scene, job: Job, r: nat)
    requires At(cfg, k, moves, x) && Task(0, 1) in x.procs && x.procs[Task(0, 1)] == Requeuing(job, r) && job.event == 0
    requires x.row.status.Retrying?
    ensures At(cfg, k, moves + [Act(Task(0, 1), YES)],
               x.(row := x.row.(status := Queued, updatedAt := 0), procs := x.procs[Task(0, 1) := Gone]))
  {
    hide Next, Looks, Legal, TrustedRun, Trusted, At;
    CanAct(cfg, k, moves, x, Task(0, 1));
    RequeueLooks(cfg, After(cfg, moves), x, job, r);
    Grow(cfg, k, moves, Act(Task(0, 1), YES),
         x.(row := x.row.(status := Queued, updatedAt := 0), procs := x.procs[Task(0, 1) := Gone]));
  }

  lemma HaltStep(cfg: Config, k: Trust, moves: seq<Move>, x: Scene, p: ProcId)
    requires At(cfg, k, moves, x) && p in x.procs && x.procs[p] != Gone
    ensures At(cfg, k, moves + [Halt(p)], x.(procs := x.procs[p := Gone]))
  {
    hide Legal, TrustedRun;
    Grow(cfg, k, moves, Halt(p), x.(procs := x.procs[p := Gone]));
  }

  lemma CanProbe(cfg: Config, k: Trust, moves: seq<Move>, x: Scene, todo: seq<Stale>, u: Uuid, since: nat)
    requires At(cfg, k, moves, x) && Sweeper(0) in x.procs
            && x.procs[Sweeper(0)] == Sweeping(Processing, todo, map[], since)
    requires todo != [] && todo[0].row.worker == Some(u)
    requires MayBeAbsent(cfg, k, After(cfg, moves), u, since)
    ensures Legal(cfg, moves) && TrustedRun(cfg, k, moves) && Looks(After(cfg, moves), x)
    ensures Enabled(After(cfg, moves), Act(Sweeper(0), NO)) && Trusted(cfg, k, After(cfg, moves), Act(Sweeper(0), NO))
  {
    hide Legal, TrustedRun, MayBeAbsent;
  }

  lemma ProbeLooks(cfg: Config, s: State, x: Scene, todo: seq<Stale>, u: Uuid, since: nat)
    requires Looks(s, x) && Sweeper(0) in x.procs
            && x.procs[Sweeper(0)] == Sweeping(Processing, todo, map[], since)
    requires todo != [] && todo[0].row.worker == Some(u)
    ensures Looks(Next(cfg, s, Act(Sweeper(0), NO)),
                  x.(procs := x.procs[Sweeper(0) := Sweeping(Processing, todo, map[u := true], since)]))
  {
  }

  /** The sweep asks for the head's owner and finds no key. */
  lemma ProbeStep(cfg: Config, k: Trust, moves: seq<Move>, x: Scene, todo: seq<Stale>, u: Uuid, since: nat)
    requires At(cfg, k, moves, x) && Sweeper(0) in x.procs
            && x.procs[Sweeper(0)] == Sweeping(Processing, todo, map[], since)
    requires todo != [] && todo[0].row.worker == Some(u)
    requires MayBeAbsent(cfg, k, After(cfg, moves), u, since)
    ensures At(cfg, k, moves + [Act(Sweeper(0), NO)],
        x.(procs := x.procs[Sweeper(0) := Sweeping(Processing, todo, map[u := true], since)]))
  {
    hide Next, Looks, Legal, TrustedRun, Trusted, At, MayBeAbsent;
    CanProbe(cfg, k, moves, x, todo, u, since);
    ProbeLooks(cfg, After(cfg, moves), x, todo, u, since);
    Grow(cfg, k, moves, Act(Sweeper(0), NO),
        x.(procs := x.procs[Sweeper(0) := Sweeping(Processing, todo, map[u := true], since)]));
  }

  /** The sweep has published a copy of the row at the head of its list. */
  function Republished(x: Scene, todo: seq<Stale>, dead: map<Uuid, bool>, since: nat): Scene
    requires todo != []
  {
    x.(log := x.log + [Message(todo[0].id, todo[0].row.priority, todo[0].row.attempt)],
       procs := x.procs[Sweeper(0) := Resetting(Processing, todo, dead, since, |x.log|)])
  }

  lemma RepublishLooks(cfg: Config, s: State, x: Scene, todo: seq<Stale>, u: Uuid, since: nat)
    requires Looks(s, x) && Sweeper(0) in x.procs
    requires x.procs[Sweeper(0)] == Sweeping(Processing, todo, map[u := true], since)
    requires todo != [] && todo[0].row.worker == Some(u)
    ensures Looks(Next(cfg, s, Act(Sweeper(0), YES)), Republished(x, todo, map[u := true], since))
  {
  }

  lemma RepublishStep(cfg: Config, k: Trust, moves: seq<Move>, x: Scene, todo: seq<Stale>, u: Uuid, since: nat)
    requires At(cfg, k, moves, x) && Sweeper(0) in x.procs
    requires x.procs[Sweeper(0)] == Sweeping(Processing, todo, map[u := true], since)
    requires todo != [] && todo[0].row.worker == Some(u)
    ensures At(cfg, k, moves + [Act(Sweeper(0), YES)], Republished(x, todo, map[u := true], since))
  {
    hide Next, Looks, Legal, TrustedRun, Trusted, At, Republished;
    CanAct(cfg, k, moves, x, Sweeper(0));
    RepublishLooks(cfg, After(cfg, moves), x, todo, u, since);
    Grow(cfg, k, moves, Act(Sweeper(0), YES), Republished(x, todo, map[u := true], since));
  }

  lemma ResetLooks(cfg: Config, s: State, x: Scene, todo: seq<Stale>, dead: map<Uuid, bool>, since: nat, r: nat)
    requires Looks(s, x) && Sweeper(0) in x.procs && x.procs[Sweeper(0)] == Resetting(Processing, todo, dead, since, r)
    requires todo != [] && todo[0].id == 0 && x.row.status.Processing?
    ensures Looks(Next(cfg, s, Act(Sweeper(0), YES)),
                  x.(row := x.row.(status := Queued, worker := None, updatedAt := 0),
                     procs := x.procs[Sweeper(0) := Sweeping(Processing, todo[1..], dead, since)]))
  {
  }

  lemma ResetStep(cfg: Config, k: Trust, moves: seq<Move>, x: Scene, todo: seq<Stale>, dead: map<Uuid, bool>,
      since: nat, r: nat)
    requires At(cfg, k, moves, x) && Sweeper(0) in x.procs
            && x.procs[Sweeper(0)] == Resetting(Processing, todo, dead, since, r)
    requires todo != [] && todo[0].id == 0 && x.row.status.Processing?
    ensures At(cfg, k, moves + [Act(Sweeper(0), YES)],
               x.(row := x.row.(status := Queued, worker := None, updatedAt := 0),
                  procs := x.procs[Sweeper(0) := Sweeping(Processing, todo[1..], dead, since)]))
  {
    hide Next, Looks, Legal, TrustedRun, Trusted, At;
    CanAct(cfg, k, moves, x, Sweeper(0));
    ResetLooks(cfg, After(cfg, moves), x, todo, dead, since, r);
    Grow(cfg, k, moves, Act(Sweeper(0), YES),
         x.(row := x.row.(status := Queued, worker := None, updatedAt := 0),
            procs := x.procs[Sweeper(0) := Sweeping(Processing, todo[1..], dead, since)]));
  }

  /** Event 0, accepted and QUEUED, with its one copy waiting. */
  function Accepted(): Scene {
    Scene(NewRow(10, 0).(status := Queued), [Message(0, 10, 0)], 0, map[], map[Handler(0) := Gone])
  }

  lemma AcceptRun(cfg: Config, k: Trust) returns (moves: seq<Move>)
    ensures At(cfg, k, moves, Accepted())
  {
    hide At;
    moves := PublishedRun(cfg, k);
    var x := Published();
    EnqueueStep(cfg, k, moves, x, 0);
    moves := moves + [Act(Handler(0), YES)];
    assert x.(row := x.row.(status := Queued, updatedAt := 0), procs := x.procs[Handler(0) := Gone]) == Accepted();
  }

  /** The scene after a new worker has claimed the next copy. */
  function Joined(cfg: Config, x: Scene, name: string): Scene
    requires x.high < |x.log|
  {
    Claimed(cfg, x.(high := x.high + 1), name, JobOf(x.high, x.log[x.high]))
  }

  lemma JoinRun(cfg: Config, k: Trust, before: seq<Move>, x: Scene, name: string) returns (moves: seq<Move>)
    requires At(cfg, k, before, x) && Worker(name) !in x.procs && OwnerOf(cfg, name).Some?
    requires forall p | p in x.procs :: !Owns(cfg, p, OwnerOf(cfg, name).value)
    requires x.high < |x.log| && x.log[x.high].priority == 10 && x.log[x.high].event == 0 && x.row.status.Queued?
    ensures At(cfg, k, moves, Joined(cfg, x, name))
  {
    hide At;
    var w, job := Worker(name), JobOf(x.high, x.log[x.high]);
    BootStep(cfg, k, before, x, name);
    moves := before + [Boot(name)];
    var x1 := x.(procs := x.procs[w := Polling(High)]);
    TakeStep(cfg, k, moves, x1, w);
    moves := moves + [Act(w, YES)];
    var x2 := x1.(high := x.high + 1, procs := x1.procs[w := Claiming(job)]);
    ClaimStep(cfg, k, moves, x2, name, job);
    moves := moves + [Act(w, YES)];
    assert x1.procs[w := Claiming(job)][w := Running(job)] == x.procs[w := Running(job)];
    assert Claimed(cfg, x2, name, job) == Joined(cfg, x, name);
  }

  /** The worker's processor fails and the retry goroutine brings the event back to QUEUED. */
  lemma FailAndRetryRun(cfg: Config, k: Trust, before: seq<Move>, x: Scene, p: ProcId, job: Job)
    returns (moves: seq<Move>)
    requires At(cfg, k, before, x) && p.Worker? && p in x.procs && x.procs[p] == Running(job) && job.event == 0
    requires x.row.status.Processing? && x.row.attempt == 0 && cfg.maxAttempts >= 2
    ensures At(cfg, k, moves,
               x.(row := x.row.(status := Queued, attempt := 1, updatedAt := 0),
                  log := x.log + [MessageOf(job.(attempt := job.attempt + 1))],
                  procs := x.procs[p := Polling(High)][Task(0, 1) := Gone]))
  {
    hide At;
    var again, t := job.(attempt := job.attempt + 1), Task(0, 1);
    ErrorStep(cfg, k, before, x, p, job);
    moves := before + [Act(p, NO)];
    var x1 := x.(procs := x.procs[p := Failing(job)]);
    FailStep(cfg, k, moves, x1, p, job);
    moves := moves + [Act(p, YES)];
    var x2 := Failed1(x1, p, job);
    RetryStep(cfg, k, moves, x2, again);
    moves := moves + [Act(t, YES)];
    var x3 := x2.(log := x2.log + [MessageOf(again)], procs := x2.procs[t := Releasing(again, |x2.log|)]);
    ReleaseStep(cfg, k, moves, x3, again, |x2.log|);
    moves := moves + [Act(t, YES)];
    var x4 := x3.(procs := x3.procs[t := Requeuing(again, |x2.log|)]);
    RequeueStep(cfg, k, moves, x4, again, |x2.log|);
    moves := moves + [Act(t, YES)];
    assert x4.procs[t := Gone] == x.procs[p := Polling(High)][t := Gone];
  }

  /** The sweep finds the owner's key absent, publishes a copy and resets the row. */
  lemma RecoverRun(cfg: Config, k: Trust, before: seq<Move>, x: Scene, stale: Stale, u: Uuid,
      since: nat) returns (moves: seq<Move>)
    requires At(cfg, k, before, x) && Sweeper(0) in x.procs
            && x.procs[Sweeper(0)] == Sweeping(Processing, [stale], map[], since)
    requires stale.id == 0 && stale.row.worker == Some(u) && x.row.status.Processing?
    requires MayBeAbsent(cfg, k, After(cfg, before), u, since)
    ensures At(cfg, k, moves,
               x.(row := x.row.(status := Queued, worker := None, updatedAt := 0),
                  log := x.log + [Message(0, stale.row.priority, stale.row.attempt)],
                  procs := x.procs[Sweeper(0) := Sweeping(Processing, [], map[u := true], since)]))
  {
    hide At;
    var w := Sweeper(0);
    ProbeStep(cfg, k, before, x, [stale], u, since);
    moves := before + [Act(w, NO)];
    var x1 := x.(procs := x.procs[w := Sweeping(Processing, [stale], map[u := true], since)]);
    RepublishStep(cfg, k, moves, x1, [stale], u, since);
    moves := moves + [Act(w, YES)];
    var x2 := x1.(log := x1.log + [Message(0, stale.row.priority, stale.row.attempt)],
                  procs := x1.procs[w := Resetting(Processing, [stale], map[u := true], since, |x1.log|)]);
    ResetStep(cfg, k, moves, x2, [stale], map[u := true], since, |x1.log|);
    moves := moves + [Act(w, YES)];
    assert [stale][1..] == [];
    assert x2.procs[w := Sweeping(Processing, [], map[u := true], since)]
        == x.procs[w := Sweeping(Processing, [], map[u := true], since)];
  }

  /** Event 0's row while worker `a` holds its first claim. */
  function HeldRow(cfg: Config, a: string): Row {
    NewRow(10, 0).(status := Processing, worker := OwnerOf(cfg, a))
  }

  /** `a` held the event when the sweep looked; it has since failed it, and the event is QUEUED again. */
  function Retried(cfg: Config, a: string, since: nat): Scene {
    Scene(HeldRow(cfg, a).(status := Queued, attempt := 1), [Message(0, 10, 0), Message(0, 10, 1)], 1, map[0 := Queued],
          map[Handler(0) := Gone, Worker(a) := Polling(High), Task(0, 1) := Gone,
              Sweeper(0) := Sweeping(Processing, [Stale(0, HeldRow(cfg, a))], map[], since)])
  }

  lemma RetriedRun(cfg: Config, k: Trust, a: string) returns (moves: seq<Move>, since: nat)
    requires OwnerOf(cfg, a).Some? && cfg.maxAttempts >= 2
    ensures At(cfg, k, moves, Retried(cfg, a, since))
  {
    hide At, After;
    moves := AcceptRun(cfg, k);
    moves := JoinRun(cfg, k, moves, Accepted(), a);
    var x := Joined(cfg, Accepted(), a);
    var stale := Stale(0, x.row);
    assert x.row == HeldRow(cfg, a);
    AtIsLegal(cfg, k, moves, x);
    since := After(cfg, moves).hist.clock;
    SnapshotStep(cfg, k, moves, x);
    moves := moves + [Snapshot(0, Processing, 1, [stale])];
    x := x.(procs := x.procs[Sweeper(0) := Sweeping(Processing, [stale], map[], since)]);
    moves := FailAndRetryRun(cfg, k, moves, x, Worker(a), Job(0, 0, 10, 0));
    x := x.(row := x.row.(status := Queued, attempt := 1, updatedAt := 0), log := x.log + [Message(0, 10, 1)],
            procs := x.procs[Worker(a) := Polling(High)][Task(0, 1) := Gone]);
    assert x == Retried(cfg, a, since);
  }

  lemma AtIsLegal(cfg: Config, k: Trust, moves: seq<Move>, x: Scene)
    requires At(cfg, k, moves, x)
    ensures Legal(cfg, moves) && TrustedRun(cfg, k, moves) && After(cfg, moves).procs == x.procs
  {
  }

  /**
   Accurate heartbeats, unique ids and a single sweep do not make processing exclusive. Worker `a` is alive
   at the snapshot, then fails its event, which is retried and claimed by `b`; `a` stops; the sweep, still
   holding the old row, finds `a` gone and takes the event from `b`, and `c` claims it while `b` works on it.
   */
  lemma AccurateHeartbeatsAreNotEnough(cfg: Config, a: string, b: string, c: string) returns (moves: seq<Move>)
    requires OwnerOf(cfg, a).Some? && OwnerOf(cfg, b).Some? && OwnerOf(cfg, c).Some? && cfg.maxAttempts >= 2
    requires OwnerOf(cfg, a) != OwnerOf(cfg, b) && OwnerOf(cfg, a) != OwnerOf(cfg, c)
    requires OwnerOf(cfg, b) != OwnerOf(cfg, c)
    ensures Legal(cfg, moves) && TrustedRun(cfg, Dead, moves)
    ensures var procs := After(cfg, moves).procs;
            && Worker(b) in procs && Holds(procs[Worker(b)], 0)
            && Worker(c) in procs && Holds(procs[Worker(c)], 0)
  {
    hide At, Legal, TrustedRun, After;
    var k, since := Dead, 0;
    moves, since := RetriedRun(cfg, k, a);
    var x := Retried(cfg, a, since);
    moves := JoinRun(cfg, k, moves, x, b);
    x := Joined(cfg, x, b);
    HaltStep(cfg, k, moves, x, Worker(a));
    moves := moves + [Halt(Worker(a))];
    x := x.(procs := x.procs[Worker(a) := Gone]);
    AtIsLegal(cfg, k, moves, x);
    moves := RecoverRun(cfg, k, moves, x, Stale(0, HeldRow(cfg, a)), OwnerOf(cfg, a).value, since);
    x := x.(row := x.row.(status := Queued, worker := None, updatedAt := 0), log := x.log + [Message(0, 10, 0)],
            procs := x.procs[Sweeper(0) := Sweeping(Processing, [], map[OwnerOf(cfg, a).value := true], since)]);
    moves := JoinRun(cfg, k, moves, x, c);
    x := Joined(cfg, x, c);
    AtIsLegal(cfg, k, moves, x);
  }

  lemma TimeAdvances(cfg: Config, s: State, m: Move)
    requires Enabled(s, m)
    ensures var h, h' := s.hist, Next(cfg, s, m).hist;
            && h'.clock == h.clock + 1
            && h'.acted == if m.Act? then h.acted[m.actor := h.clock] else h.acted
  {
    hide Resume;
    if m.Act? {
      OnlyTheActorMoves(cfg, Set(s, m.actor, Gone), m.actor, s.procs[m.actor], m.choice);
    }
  }

  /** No process has acted later than now. */
  lemma {:induction false} ActedInThePast(cfg: Config, moves: seq<Move>)
    requires Legal(cfg, moves)
    ensures var h := After(cfg, moves).hist; forall p | p in h.acted :: h.acted[p] < h.clock
  {
    hide Next, Enabled;
    if moves != [] {
      var before, m := moves[..|moves| - 1], moves[|moves| - 1];
      ActedInThePast(cfg, before);
      TimeAdvances(cfg, After(cfg, before), m);
      var h, h' := After(cfg, before).hist, After(cfg, moves).hist;
      assert h' == Next(cfg, After(cfg, before), m).hist;
      forall p | p in h'.acted ensures h'.acted[p] < h'.clock {
        assert p in h.acted || (m.Act? && p == m.actor);
      }
    }
  }

  lemma SnapshotMovesNobody(cfg: Config, moves: seq<Move>, m: Move)
    requires Legal(cfg, moves) && m.Snapshot? && Legal(cfg, moves + [m])
    ensures After(cfg, moves + [m]).hist.acted == After(cfg, moves).hist.acted
  {
    assert (moves + [m])[..|moves|] == moves;
  }

  /**
   Nor is it enough that a worker found absent has not moved since the snapshot, when it may move again:
   `a` claims the event and is then held up, the sweep takes the event from it, and `c` claims it too.
   */
  lemma SilenceIsNotEnough(cfg: Config, a: string, c: string) returns (moves: seq<Move>)
    requires OwnerOf(cfg, a).Some? && OwnerOf(cfg, c).Some? && OwnerOf(cfg, a) != OwnerOf(cfg, c)
    ensures Legal(cfg, moves) && TrustedRun(cfg, Idle, moves)
    ensures var procs := After(cfg, moves).procs;
            && Worker(a) in procs && Holds(procs[Worker(a)], 0)
            && Worker(c) in procs && Holds(procs[Worker(c)], 0)
  {
    hide At, Legal, TrustedRun, After;
    var k := Idle;
    moves := AcceptRun(cfg, k);
    moves := JoinRun(cfg, k, moves, Accepted(), a);
    var x := Joined(cfg, Accepted(), a);
    AtIsLegal(cfg, k, moves, x);
    ActedInThePast(cfg, moves);
    var stale, since := Stale(0, x.row), After(cfg, moves).hist.clock;
    SnapshotStep(cfg, k, moves, x);
    var x1 := x.(procs := x.procs[Sweeper(0) := Sweeping(Processing, [stale], map[], since)]);
    AtIsLegal(cfg, k, moves + [Snapshot(0, Processing, 1, [stale])], x1);
    SnapshotMovesNobody(cfg, moves, Snapshot(0, Processing, 1, [stale]));
    moves := moves + [Snapshot(0, Processing, 1, [stale])];
    moves := RecoverRun(cfg, k, moves, x1, stale, OwnerOf(cfg, a).value, since);
    x := x1.(row := x.row.(status := Queued, worker := None, updatedAt := 0), log := x.log + [Message(0, 10, 0)],
             procs := x1.procs[Sweeper(0) := Sweeping(Processing, [], map[OwnerOf(cfg, a).value := true], since)]);
    moves := JoinRun(cfg, k, moves, x, c);
    x := Joined(cfg, x, c);
    AtIsLegal(cfg, k, moves, x);
  }

  // ---- Delivery order ----

  /** What steers the next moves of a run in which one worker polls and nothing has been delivered. */
  ghost predicate Polls(cfg: Config, moves: seq<Move>, rows: set<EventId>, log: seq<Message>,
      procs: map<ProcId, Proc>) {
    && Legal(cfg, moves)
    && var s := After(cfg, moves);
       && s.db.rows.Keys == rows && s.broker == Broker(log, Cursors(0, 0, 0), {}) && s.procs == procs
       && s.hist.deliveries == []
  }

  lemma SubmitLooks(cfg: Config, s: State, e: EventId, priority: int)
    requires Enabled(s, Submit(e, priority, Delivered, 0))
    ensures var s' := Next(cfg, s, Submit(e, priority, Delivered, 0));
            && s'.db.rows.Keys == s.db.rows.Keys + {e} && s'.broker == s.broker
            && s'.procs == s.procs[Handler(e) := Publishing(e, priority)] && s'.hist.deliveries == s.hist.deliveries
  {
  }

  lemma PublishLooks(cfg: Config, s: State, e: EventId, priority: int)
    requires Handler(e) in s.procs && s.procs[Handler(e)] == Publishing(e, priority)
    ensures var s' := Next(cfg, s, Act(Handler(e), YES));
            && s'.db == s.db && s'.broker == s.broker.Add(Message(e, priority, 0))
            && s'.procs == s.procs[Handler(e) := Gone][Handler(e) := Enqueuing(e, |s.broker.log|)]
            && s'.hist.deliveries == s.hist.deliveries
  {
  }

  lemma SubmitAndPublish(cfg: Config, moves: seq<Move>, rows: set<EventId>, log: seq<Message>,
      procs: map<ProcId, Proc>, e: EventId, priority: int) returns (more: seq<Move>)
    requires Polls(cfg, moves, rows, log, procs) && e !in rows && Handler(e) !in procs && priority in {1, 5, 10}
    ensures Polls(cfg, moves + more, rows + {e}, log + [Message(e, priority, 0)],
                  procs[Handler(e) := Enqueuing(e, |log|)])
  {
    hide Legal, After, Next;
    var submit, publish := Submit(e, priority, Delivered, 0), Act(Handler(e), YES);
    OneMore(cfg, moves, submit);
    SubmitLooks(cfg, After(cfg, moves), e, priority);
    OneMore(cfg, moves + [submit], publish);
    PublishLooks(cfg, After(cfg, moves + [submit]), e, priority);
    Continuations.Joined(moves, [submit], [publish]);
    more := [submit] + [publish];
    assert procs[Handler(e) := Publishing(e, priority)][Handler(e) := Gone][Handler(e) := Enqueuing(e, |log|)]
        == procs[Handler(e) := Enqueuing(e, |log|)];
  }

  /** A new worker finds the high and the normal stream empty. */
  lemma ComesToTheLowStream(cfg: Config, name: string) returns (moves: seq<Move>)
    ensures Polls(cfg, moves, {}, [], map[Worker(name) := Polling(Low)])
  {
    var w := Worker(name);
    moves := [];
    OneMore(cfg, moves, Boot(name));
    moves := moves + [Boot(name)];
    OneMore(cfg, moves, Act(w, YES));
    moves := moves + [Act(w, YES)];
    OneMore(cfg, moves, Act(w, YES));
    hide Legal, After;
    moves := moves + [Act(w, YES)];
  }

  /**
   A worker in mid-round when the backlog arrives: it stands at the low stream when a high-priority copy and then a
   low-priority one are published, and although nothing is published meanwhile it is given the low one first.
   */
  lemma AWorkerInMidRoundIsOutOfTurn(cfg: Config, name: string) returns (moves: seq<Move>)
    ensures Legal(cfg, moves) && !PollersInTurn(After(cfg, moves))
    ensures After(cfg, moves).broker == Broker([Message(0, 10, 0), Message(1, 1, 0)], Cursors(0, 0, 0), {})
    ensures Legal(cfg, moves + [Act(Worker(name), YES)])
    ensures After(cfg, moves + [Act(Worker(name), YES)]).hist.deliveries == [1]
  {
    hide Legal, After, Polls;
    moves := ComesToTheLowStream(cfg, name);
    var procs := map[Worker(name) := Polling(Low)];
    var more := SubmitAndPublish(cfg, moves, {}, [], procs, 0, 10);
    moves := moves + more;
    procs := procs[Handler(0) := Enqueuing(0, 0)];
    assert {} + {0} == {0} && [] + [Message(0, 10, 0)] == [Message(0, 10, 0)];
    more := SubmitAndPublish(cfg, moves, {0}, [Message(0, 10, 0)], procs, 1, 1);
    moves := moves + more;
    procs := procs[Handler(1) := Enqueuing(1, 1)];
    LowReadFirst(cfg, moves, {0} + {1}, [Message(0, 10, 0)] + [Message(1, 1, 0)], procs, Worker(name));
  }

  lemma LowReadFirst(cfg: Config, moves: seq<Move>, rows: set<EventId>, log: seq<Message>,
      procs: map<ProcId, Proc>, w: ProcId)
    requires Polls(cfg, moves, rows, log, procs) && log == [Message(0, 10, 0), Message(1, 1, 0)]
    requires w in procs && procs[w] == Polling(Low)
    ensures Legal(cfg, moves) && !PollersInTurn(After(cfg, moves))
    ensures After(cfg, moves).broker == Broker(log, Cursors(0, 0, 0), {})
    ensures Legal(cfg, moves + [Act(w, YES)]) && After(cfg, moves + [Act(w, YES)]).hist.deliveries == [1]
  {
    hide Legal, After;
    var s := After(cfg, moves);
    assert s.broker.Next(High) == 0;
    assert s.broker.Next(Low) == 1 by {
      assert NextFrom(log, Low, 1) == 1;
    }
    assert !Empty(s.broker, High) && !Empty(s.broker, Low);
    assert Rank(High) < Rank(Low);
    assert !InTurn(s.broker, Low);
    KnownRows(cfg, moves);
    ReadOutOfTurn(cfg, moves, w, High);
  }

  /** Every COMPLETED row has its idempotency record, and no other row has one. */
  predicate RecordsMatch(db: Db) {
    forall e | e in db.rows :: db.rows[e].status.Completed? <==> e in db.idempotency
  }

  /**
   The bare repository does not tie COMPLETED to its record: a status update breaks the tie exactly when its
   caller asks for COMPLETED, which no caller does. Finalization never breaks it.
   */
  lemma OnlyACompletingUpdateBreaksTheTie(db: Db, id: EventId, old_: Status, new_: Status, hash: string, now: nat)
    requires RecordsMatch(db)
    ensures var tx := UpdateStatusTx(db, id, old_, new_, now);
            tx.err.Ok? ==> (RecordsMatch(tx.db) <==> !new_.Completed?)
    ensures RecordsMatch(FinalizeTx(db, id, hash, now).db)
  {
    var tx := UpdateStatusTx(db, id, old_, new_, now);
    if tx.err.Ok? {
      assert tx.db.rows[id].status == new_;
      assert !old_.Completed? && id !in db.idempotency;
    }
  }
}
