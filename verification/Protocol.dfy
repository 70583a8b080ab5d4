/**
 The event delivery protocol as a state machine: submit handlers, workers, their delayed-retry
 goroutines and recovery sweeps interleave over the store and the streams, one transaction or one
 stream command at a time. Any process may stop between two steps, and any call may be refused or
 lose its answer.
 */
module Protocol {
  import opened Events
  import opened Trails
  import opened EventStore
  import opened Streams
  import opened Backoff

  datatype Config = Config(maxAttempts: int, baseDelay: nat, parse: string -> Option<Uuid>)

  /** An empty worker id means "no owner"; one that does not parse as a UUID is stored as NULL. */
  function OwnerOf(cfg: Config, name: string): Option<Uuid> {
    if name == "" then None else cfg.parse(name)
  }

  /** `Task(e, k)` is the retry goroutine started by the k-th recorded failure of event `e`. */
  datatype ProcId =
    | Handler(event: EventId)
    | Worker(name: string)
    | Task(event: EventId, failure: int)
    | Sweeper(run: nat)

  /** A delivered message in a worker's hands; `attempt` is the worker's own copy of the counter. */
  datatype Job = Job(receipt: nat, event: EventId, priority: int, attempt: int)

  function JobOf(receipt: nat, m: Message): Job {
    Job(receipt, m.event, m.priority, m.attempt)
  }

  function MessageOf(job: Job): Message {
    Message(job.event, job.priority, job.attempt)
  }

  /** Why a worker is done with a job, and what it still owes for it. */
  datatype Verdict = Conflict | Duplicate | Success | Exhausted
  datatype Chore = AckMessage | CountOutcome | Announce

  function Chores(v: Verdict): seq<Chore> {
    match v
    case Conflict => [AckMessage]
    case Duplicate => [AckMessage]
    case Success => [AckMessage, CountOutcome, Announce]
    case Exhausted => [CountOutcome, AckMessage, Announce]
  }

  /** A process's program counter: the shared step it takes next. */
  datatype Proc =
    | Gone
    | Publishing(event: EventId, priority: int)
    | Enqueuing(event: EventId, receipt: nat)
    | Polling(stream: Stream)
    | Claiming(job: Job)
    | Running(job: Job)
    | Finalizing(job: Job)
    | Failing(job: Job)
    | Closing(job: Job, verdict: Verdict, chores: seq<Chore>)
    | Waiting(job: Job)
    | Releasing(job: Job, receipt: nat)
    | Requeuing(job: Job, receipt: nat)
    | Sweeping(status: Status, todo: seq<Stale>, dead: map<Uuid, bool>, since: nat)
    | Resetting(status: Status, todo: seq<Stale>, dead: map<Uuid, bool>, since: nat, receipt: nat)

  datatype Report = Report(event: EventId, verdict: Verdict)

  /** What happened so far; the program never reads it. */
  datatype History = History(
    commits: map<EventId, seq<Write<ProcId>>>,  // status writes of each row since it was created
    found: map<nat, Status>,                    // receipt -> row status its claim transaction saw
    taker: map<nat, ProcId>,                    // receipt -> process it was delivered to
    deliveries: seq<nat>,                       // receipts in delivery order
    handoff: map<EventId, nat>,                 // event -> copy published by the handoff that last made it QUEUED
    early: set<EventId>,                        // events whose handoff copy was claimed before that status write
    counted: seq<Report>,                       // metric increments
    announced: seq<Report>,                     // EVENT_COMPLETED and EVENT_FAILED broadcasts
    delays: map<EventId, seq<int>>,             // backoff delays scheduled for each event
    clock: nat,                                 // number of moves made
    acted: map<ProcId, nat>)                    // process -> time of its last step

  datatype State = State(db: Db, broker: Broker, procs: map<ProcId, Proc>, hist: History)

  const START: State := State(
    Db(map[], map[]),
    Broker([], Cursors(0, 0, 0), {}),
    map[],
    History(map[], map[], map[], [], map[], {}, [], [], map[], 0, map[]))

  /**
   What the environment decides about one step: the fate of its call, the clock, a yes/no answer
   (processor succeeded, heartbeat key exists, timer fired before shutdown) and a random draw.
   */
  datatype Choice = Choice(reply: Reply, now: nat, flag: bool, jitter: real)

  datatype Move =
    | Submit(event: EventId, priority: int, reply: Reply, now: nat)
    | Boot(name: string)
    | Snapshot(run: nat, status: Status, cutoff: nat, todo: seq<Stale>)
    | Halt(proc: ProcId)
    | Act(actor: ProcId, choice: Choice)

  predicate Active(s: State, p: ProcId) {
    p in s.procs && s.procs[p] != Gone
  }

  predicate Enabled(s: State, m: Move) {
    match m
    case Submit(e, priority, _, _) => e !in s.db.rows && Handler(e) !in s.procs && priority in {1, 5, 10}
    case Boot(name) => !Active(s, Worker(name))
    case Snapshot(run, status, cutoff, todo) =>
      !Active(s, Sweeper(run)) && status in {Processing, Retrying} && IsSnapshot(s.db, status, cutoff, todo)
    case Halt(p) => Active(s, p)
    case Act(p, c) => Active(s, p) && 0.0 <= c.jitter < 1.0
  }

  function Set(s: State, p: ProcId, pc: Proc): State {
    s.(procs := s.procs[p := pc])
  }

  /** A transaction on row `e` by process `p`, entered in the row's history when it wrote. */
  function Commit(s: State, p: ProcId, e: EventId, tx: Tx): State {
    if tx.err.Ok? && e in s.db.rows && e in tx.db.rows && e in s.hist.commits then
      var w := Write(p, s.db.rows[e].status, tx.db.rows[e].status);
      s.(db := tx.db, hist := s.hist.(commits := s.hist.commits[e := s.hist.commits[e] + [w]]))
    else s
  }

  /** The status write that ends a handoff whose copy is `receipt`. */
  function Handoff(s: State, p: ProcId, e: EventId, receipt: nat, tx: Tx): State {
    if !tx.err.Ok? then s
    else
      var s1 := Commit(s, p, e, tx);
      s1.(hist := s1.hist.(
        handoff := s1.hist.handoff[e := receipt],
        early := if receipt in s1.hist.found then s1.hist.early + {e} else s1.hist.early - {e}))
  }

  function Add(s: State, m: Message): State {
    s.(broker := s.broker.Add(m))
  }

  function Ack(s: State, receipt: nat): State {
    s.(broker := s.broker.Ack(receipt))
  }

  function Deliver(s: State, p: ProcId, stream: Stream): State
  {
    var i := s.broker.Next(stream);
    if i == |s.broker.log| then s
    else
      s.(broker := s.broker.Deliver(stream),
         hist := s.hist.(taker := s.hist.taker[i := p], deliveries := s.hist.deliveries + [i]))
  }

  function Find(s: State, receipt: nat, e: EventId): State {
    if e in s.db.rows then s.(hist := s.hist.(found := s.hist.found[receipt := s.db.rows[e].status])) else s
  }

  function Schedule(s: State, e: EventId, delay: int): State {
    if e in s.hist.delays then s.(hist := s.hist.(delays := s.hist.delays[e := s.hist.delays[e] + [delay]])) else s
  }

  function Following(stream: Stream): Stream {
    match stream case High => Normal case Normal => Low case Low => High
  }

  /** No program counter but `p`'s own changes, except that a retry goroutine may be started. */
  ghost predicate OthersStay(s: State, s': State, p: ProcId) {
    forall q | q != p && !q.Task? :: (q in s'.procs <==> q in s.procs) && (q in s.procs ==> s'.procs[q] == s.procs[q])
  }

  predicate IsWorkerCounter(pc: Proc) {
    pc.Polling? || pc.Claiming? || pc.Running? || pc.Finalizing? || pc.Failing? || pc.Closing?
  }

  /** A process that starts probing starts with the high stream. */
  predicate PollsRestart(s: State, s': State) {
    forall q | q in s'.procs && s'.procs[q].Polling? ::
      s'.procs[q] == Polling(High) || (q in s.procs && s'.procs[q] == s.procs[q])
  }

  /** Only the move itself advances the clock. */
  predicate TimeStays(s: State, s': State) {
    s'.hist.clock == s.hist.clock && s'.hist.acted == s.hist.acted
  }

  /** What every step but a read of the streams leaves alone. */
  ghost predicate Quiet(s: State, s': State, p: ProcId) {
    && OthersStay(s, s', p) && PollsRestart(s, s') && TimeStays(s, s')
    && s.hist.found.Keys <= s'.hist.found.Keys && s'.hist.deliveries == s.hist.deliveries
  }

  function ActPublishing(s: State, p: ProcId, e: EventId, priority: int, c: Choice): (s': State)
    ensures Quiet(s, s', p)
    ensures s'.db == s.db && s'.hist == s.hist
    ensures s'.broker == s.broker || s'.broker == s.broker.Add(Message(e, priority, 0))
  {
    if c.reply.Refused? then s
    else
      var s1 := Add(s, Message(e, priority, 0));
      if c.reply.Lost? then s1 else Set(s1, p, Enqueuing(e, |s.broker.log|))
  }

  function ActEnqueuing(s: State, p: ProcId, e: EventId, receipt: nat, c: Choice): (s': State)
    ensures Quiet(s, s', p)
    ensures s'.db == s.db || s'.db == UpdateStatusTx(s.db, e, Received, Queued, c.now).db
    ensures s'.broker == s.broker
  {
    if c.reply.Refused? then s
    else Handoff(s, p, e, receipt, UpdateStatusTx(s.db, e, Received, Queued, c.now))
  }

  /** One probe of one stream; an empty stream moves on to the next, and an error starts over. */
  function ActPolling(s: State, p: ProcId, stream: Stream, c: Choice): (s': State)
    ensures p in s'.procs && s'.procs == s.procs[p := s'.procs[p]] && IsWorkerCounter(s'.procs[p])
    ensures s'.procs[p].Claiming? || s'.procs[p] == Polling(High)
            || (s.broker.Next(stream) == |s.broker.log| && s'.procs[p] == Polling(Following(stream)))
    ensures OthersStay(s, s', p) && TimeStays(s, s') && s.hist.found.Keys <= s'.hist.found.Keys
    ensures s'.db == s.db && s'.hist.commits == s.hist.commits && s'.hist.found == s.hist.found
    ensures (s'.broker == s.broker && s'.hist.deliveries == s.hist.deliveries)
            || (s.broker.Next(stream) < |s.broker.log| && s'.broker == s.broker.Deliver(stream)
                && s'.hist.deliveries == s.hist.deliveries + [s.broker.Next(stream)])
  {
    if c.reply.Refused? then Set(s, p, Polling(High))
    else
      var i := s.broker.Next(stream);
      var s1 := Deliver(s, p, stream);
      if c.reply.Lost? then Set(s1, p, Polling(High))
      else if i == |s.broker.log| then Set(s1, p, Polling(Following(stream)))
      else Set(s1, p, Claiming(JobOf(i, s.broker.log[i])))
  }

  function ActClaiming(cfg: Config, s: State, p: ProcId, job: Job, c: Choice): (s': State)
    ensures p in s'.procs && s'.procs == s.procs[p := s'.procs[p]] && IsWorkerCounter(s'.procs[p])
    ensures Quiet(s, s', p)
    ensures s'.db == s.db
            || (p.Worker? && s'.db == AssignTx(s.db, job.event, OwnerOf(cfg, p.name), Queued, Processing, c.now).db)
    ensures s'.broker == s.broker
  {
    if c.reply.Refused? || !p.Worker? then Set(s, p, Polling(High))
    else
      var tx := AssignTx(s.db, job.event, OwnerOf(cfg, p.name), Queued, Processing, c.now);
      var s1 := Commit(Find(s, job.receipt, job.event), p, job.event, tx);
      if c.reply.Lost? then Set(s1, p, Polling(High))
      else if tx.err.Ok? then Set(s1, p, Running(job))
      else if tx.err.InvalidTransition? then Set(s1, p, Closing(job, Conflict, Chores(Conflict)))
      else Set(s1, p, Polling(High))
  }

  /** The marker every successful result is recorded with. */
  const RESULT_HASH: string := "a38c4b12759e669bc01a742880c9261a8f9024f0c4369e8b7f8df1cb52fc4cf2"

  function ActFinalizing(s: State, p: ProcId, job: Job, c: Choice): (s': State)
    ensures p in s'.procs && s'.procs == s.procs[p := s'.procs[p]] && IsWorkerCounter(s'.procs[p])
    ensures Quiet(s, s', p)
    ensures s'.db == s.db || s'.db == FinalizeTx(s.db, job.event, RESULT_HASH, c.now).db
    ensures s'.broker == s.broker
  {
    if c.reply.Refused? then Set(s, p, Polling(High))
    else
      var tx := FinalizeTx(s.db, job.event, RESULT_HASH, c.now);
      var s1 := Commit(s, p, job.event, tx);
      if c.reply.Lost? then Set(s1, p, Polling(High))
      else if tx.err.Ok? then Set(s1, p, Closing(job, Success, Chores(Success)))
      else if tx.err.AlreadyFinalized? then Set(s1, p, Closing(job, Duplicate, Chores(Duplicate)))
      else Set(s1, p, Polling(High))
  }

  function ActFailing(cfg: Config, s: State, p: ProcId, job: Job, c: Choice): (s': State)
    ensures p in s'.procs && IsWorkerCounter(s'.procs[p])
    ensures s'.procs == s.procs[p := s'.procs[p]]
            || (job.event in s.db.rows && s.db.rows[job.event].status.Processing?
                && var task := Task(job.event, s.db.rows[job.event].attempt + 1);
                   s'.procs == s.procs[task := Waiting(job.(attempt := job.attempt + 1))][p := s'.procs[p]])
    ensures Quiet(s, s', p)
    ensures s'.db == s.db || s'.db == RecordFailureTx(s.db, job.event, cfg.maxAttempts, c.now).db
    ensures s'.broker == s.broker
  {
    if c.reply.Refused? then Set(s, p, Polling(High))
    else
      var tx := RecordFailureTx(s.db, job.event, cfg.maxAttempts, c.now);
      var s1 := Commit(s, p, job.event, tx);
      if c.reply.Lost? || !tx.err.Ok? then Set(s1, p, Polling(High))
      else
        var again := job.(attempt := job.attempt + 1);
        if tx.db.rows[job.event].status.Failed? then Set(s1, p, Closing(again, Exhausted, Chores(Exhausted)))
        else
          var s2 := Schedule(s1, job.event, CalculateBackoff(again.attempt, cfg.baseDelay, c.jitter));
          Set(Set(s2, Task(job.event, tx.db.rows[job.event].attempt), Waiting(again)), p, Polling(High))
  }

  function ActClosing(s: State, p: ProcId, job: Job, v: Verdict, chores: seq<Chore>, c: Choice): (s': State)
    ensures p in s'.procs && s'.procs == s.procs[p := s'.procs[p]] && IsWorkerCounter(s'.procs[p])
    ensures Quiet(s, s', p)
    ensures s'.db == s.db && s'.hist.commits == s.hist.commits && s'.hist.found == s.hist.found
    ensures s'.broker == s.broker || s'.broker == s.broker.Ack(job.receipt)
  {
    if chores == [] then Set(s, p, Polling(High))
    else
      var s1 := match chores[0]
                case AckMessage => if c.reply.Refused? then s else Ack(s, job.receipt)
                case CountOutcome => s.(hist := s.hist.(counted := s.hist.counted + [Report(job.event, v)]))
                case Announce => s.(hist := s.hist.(announced := s.hist.announced + [Report(job.event, v)]));
      Set(s1, p, if |chores| == 1 then Polling(High) else Closing(job, v, chores[1..]))
  }

  /** The timer fires and the copy is republished, or shutdown cancels the retry. */
  function ActWaiting(s: State, p: ProcId, job: Job, c: Choice): (s': State)
    ensures Quiet(s, s', p)
    ensures s'.db == s.db && s'.hist == s.hist
    ensures s'.broker == s.broker || s'.broker == s.broker.Add(MessageOf(job))
  {
    if !c.flag || c.reply.Refused? then s
    else
      var s1 := Add(s, MessageOf(job));
      if c.reply.Lost? then s1 else Set(s1, p, Releasing(job, |s.broker.log|))
  }

  function ActReleasing(s: State, p: ProcId, job: Job, receipt: nat, c: Choice): (s': State)
    ensures Quiet(s, s', p)
    ensures s'.db == s.db && s'.hist == s.hist
    ensures s'.broker == s.broker || s'.broker == s.broker.Ack(job.receipt)
  {
    if c.reply.Refused? then s
    else
      var s1 := Ack(s, job.receipt);
      if c.reply.Lost? then s1 else Set(s1, p, Requeuing(job, receipt))
  }

  function ActRequeuing(s: State, p: ProcId, job: Job, receipt: nat, c: Choice): (s': State)
    ensures Quiet(s, s', p)
    ensures s'.db == s.db || s'.db == UpdateStatusTx(s.db, job.event, Retrying, Queued, c.now).db
    ensures s'.broker == s.broker
  {
    if c.reply.Refused? then s
    else Handoff(s, p, job.event, receipt, UpdateStatusTx(s.db, job.event, Retrying, Queued, c.now))
  }

  /** What a sweep does next with the row at the head of its list. */
  datatype SweepStep = Skip | Probe(owner: Uuid) | Republish

  function NextSweepStep(status: Status, row: Row, dead: map<Uuid, bool>): SweepStep {
    if !status.Processing? then Republish
    else if row.worker.None? then Skip
    else if row.worker.value !in dead then Probe(row.worker.value)
    else if dead[row.worker.value] then Republish
    else Skip
  }

  function ActSweeping(s: State, p: ProcId, status: Status, todo: seq<Stale>, dead: map<Uuid, bool>, since: nat,
      c: Choice): (s': State)
    ensures Quiet(s, s', p)
    ensures s'.db == s.db && s'.hist == s.hist
    ensures s'.broker == s.broker
            || (todo != [] && s'.broker == s.broker.Add(Message(todo[0].id, todo[0].row.priority, todo[0].row.attempt)))
  {
    if todo == [] then s
    else
      var x := todo[0];
      var skipped := Set(s, p, Sweeping(status, todo[1..], dead, since));
      match NextSweepStep(status, x.row, dead)
      case Skip => skipped
      case Probe(u) =>
        if c.reply.Delivered? then Set(s, p, Sweeping(status, todo, dead[u := !c.flag], since)) else skipped
      case Republish =>
        if c.reply.Refused? then skipped
        else
          var s1 := Add(s, Message(x.id, x.row.priority, x.row.attempt));
          if c.reply.Lost? then Set(s1, p, Sweeping(status, todo[1..], dead, since))
          else Set(s1, p, Resetting(status, todo, dead, since, |s.broker.log|))
  }

  function ActResetting(s: State, p: ProcId, status: Status, todo: seq<Stale>, dead: map<Uuid, bool>, since: nat,
      receipt: nat, c: Choice): (s': State)
    requires todo != []
    ensures Quiet(s, s', p)
    ensures s'.db == s.db || s'.db == AssignTx(s.db, todo[0].id, None, status, Queued, c.now).db
    ensures s'.broker == s.broker
  {
    var s1 := if c.reply.Refused? then s
              else Handoff(s, p, todo[0].id, receipt, AssignTx(s.db, todo[0].id, None, status, Queued, c.now));
    Set(s1, p, Sweeping(status, todo[1..], dead, since))
  }

  /** The step of process `p`, which stood at `pc` and is parked as Gone in `s`. */
  function Resume(cfg: Config, s: State, p: ProcId, pc: Proc, c: Choice): State
  {
    match pc
    case Gone => s
    case Publishing(e, priority) => ActPublishing(s, p, e, priority, c)
    case Enqueuing(e, receipt) => ActEnqueuing(s, p, e, receipt, c)
    case Polling(stream) => ActPolling(s, p, stream, c)
    case Claiming(job) => ActClaiming(cfg, s, p, job, c)
    case Running(job) => Set(s, p, if c.flag then Finalizing(job) else Failing(job))
    case Finalizing(job) => ActFinalizing(s, p, job, c)
    case Failing(job) => ActFailing(cfg, s, p, job, c)
    case Closing(job, v, chores) => ActClosing(s, p, job, v, chores, c)
    case Waiting(job) => ActWaiting(s, p, job, c)
    case Releasing(job, receipt) => ActReleasing(s, p, job, receipt, c)
    case Requeuing(job, receipt) => ActRequeuing(s, p, job, receipt, c)
    case Sweeping(status, todo, dead, since) => ActSweeping(s, p, status, todo, dead, since, c)
    case Resetting(status, todo, dead, since, receipt) =>
      if todo == [] then s else ActResetting(s, p, status, todo, dead, since, receipt, c)
  }

  /** A new row; the handler stops at once when it is not told that the insert succeeded. */
  function Accept(s: State, e: EventId, priority: int, reply: Reply, now: nat): State {
    if reply.Refused? then s
    else
      var tx := CreateTx(s.db, e, NewRow(priority, now));
      var s1 := s.(db := tx.db, hist := s.hist.(commits := s.hist.commits[e := []], delays := s.hist.delays[e := []]));
      if reply.Lost? then s1 else Set(s1, Handler(e), Publishing(e, priority))
  }

  function Perform(cfg: Config, s: State, m: Move): State
    requires Enabled(s, m)
  {
    match m
    case Submit(e, priority, reply, now) => Accept(s, e, priority, reply, now)
    case Boot(name) => Set(s, Worker(name), Polling(High))
    case Snapshot(run, status, _, todo) => Set(s, Sweeper(run), Sweeping(status, todo, map[], s.hist.clock))
    case Halt(p) => Set(s, p, Gone)
    case Act(p, c) => Resume(cfg, Set(s, p, Gone), p, s.procs[p], c)
  }

  function Tick(s: State, m: Move): State {
    var acted := if m.Act? then s.hist.acted[m.actor := s.hist.clock] else s.hist.acted;
    s.(hist := s.hist.(clock := s.hist.clock + 1, acted := acted))
  }

  function Next(cfg: Config, s: State, m: Move): State
    requires Enabled(s, m)
  {
    Tick(Perform(cfg, s, m), m)
  }

  /** `moves` can be made one after another from the empty system. */
  predicate Legal(cfg: Config, moves: seq<Move>)
    decreases |moves|, 0
  {
    moves == [] ||
    var before := moves[..|moves| - 1];
    Legal(cfg, before) && Enabled(After(cfg, before), moves[|moves| - 1])
  }

  /** The state a run ends in. */
  function After(cfg: Config, moves: seq<Move>): State
    requires Legal(cfg, moves)
    decreases |moves|, 1
  {
    if moves == [] then START
    else Next(cfg, After(cfg, moves[..|moves| - 1]), moves[|moves| - 1])
  }
}
