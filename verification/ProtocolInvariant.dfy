/** The inductive invariant of the delivery protocol, stated over the parts of the state each piece depends on. */
module ProtocolInvariant {
  import opened Events
  import opened Trails
  import opened EventStore
  import opened Streams
  import opened Backoff
  import opened Protocol

  type Rows = map<EventId, Row>
  type Commits = map<EventId, seq<Write<ProcId>>>

  /** The attempt count at which a row fails for good. */
  function Cap(cfg: Config): int {
    if cfg.maxAttempts < 1 then 1 else cfg.maxAttempts
  }

  /** Recorded failures of a row that were not its last. */
  function NonFinal(row: Row): int {
    if row.status.Failed? then row.attempt - 1 else row.attempt
  }

  function Sum(ds: seq<int>): int {
    if ds == [] then 0 else Sum(ds[..|ds| - 1]) + ds[|ds| - 1]
  }

  // ---- The store ----

  ghost predicate RowOk(cfg: Config, r: Row, finalized: bool) {
    && 0 <= r.attempt
    && (r.status.Retrying? ==> 1 <= r.attempt < cfg.maxAttempts)
    && (if r.status.Failed? then r.attempt == Cap(cfg) else r.attempt < Cap(cfg))
    && (r.status.Completed? <==> finalized)
    && (Terminal(r.status) <==> r.completedAt.Some?)
  }

  ghost predicate TrailOk(r: Row, ws: seq<Write<ProcId>>) {
    IsPath(ws, r.status) && Failures(ws) == r.attempt
  }

  ghost predicate DelaysFit(base: nat, ds: seq<int>, k: int) {
    && 0 <= |ds| <= k
    && Sum(ds) <= k * MAX_DELAY
    && 10 * Sum(ds) <= Budget(base, k)
  }

  ghost predicate DelaysInv(base: nat, rows: Rows, delays: map<EventId, seq<int>>)
    requires delays.Keys == rows.Keys
  {
    forall e | e in rows :: DelaysFit(base, delays[e], NonFinal(rows[e]))
  }

  ghost predicate StoreInv(cfg: Config, db: Db, commits: Commits, delays: map<EventId, seq<int>>) {
    && commits.Keys == db.rows.Keys == delays.Keys
    && db.idempotency.Keys <= db.rows.Keys
    && (forall e | e in db.rows :: RowOk(cfg, db.rows[e], e in db.idempotency))
    && (forall e | e in db.rows :: TrailOk(db.rows[e], commits[e]))
    && DelaysInv(cfg.baseDelay, db.rows, delays)
  }

  // ---- The streams ----

  ghost predicate MessageOk(rows: Rows, m: Message) {
    m.event in rows && m.priority == rows[m.event].priority && 0 <= m.attempt <= rows[m.event].attempt
  }

  ghost predicate LaterCopy(log: seq<Message>, i: nat, j: nat) {
    i < j < |log| && log[j].event == log[i].event
  }

  /** Why message `i` was acknowledged. */
  ghost predicate Justified(rows: Rows, log: seq<Message>, found: map<nat, Status>, i: nat)
    requires i < |log|
  {
    || (log[i].event in rows && Terminal(rows[log[i].event].status))
    || (exists j: nat :: LaterCopy(log, i, j))
    || (i in found && found[i] != Queued)
  }

  ghost predicate QueueInv(broker: Broker, rows: Rows, found: map<nat, Status>, taker: map<nat, ProcId>) {
    && broker.Valid()
    && (forall i | 0 <= i < |broker.log| :: MessageOk(rows, broker.log[i]))
    && (forall i | i in taker :: i < |broker.log| && broker.IsDelivered(i))
    && (forall i | i in found :: i in taker)
    && (forall i | 0 <= i < |broker.log| && broker.Acked(i) :: i in found && Justified(rows, broker.log, found, i))
  }

  // ---- Handoffs ----

  ghost predicate CopyOk(log: seq<Message>, e: EventId, receipt: nat) {
    receipt < |log| && log[receipt].event == e
  }

  ghost predicate HandoffOk(log: seq<Message>, found: map<nat, Status>, handoff: map<EventId, nat>,
      early: set<EventId>, e: EventId, status: Status) {
    && (e in handoff ==> CopyOk(log, e, handoff[e]))
    && (e in early ==> e in handoff && handoff[e] in found)
    && (status.Queued? ==> e in handoff && (e in early || handoff[e] !in found))
  }

  ghost predicate HandoffInv(rows: Rows, log: seq<Message>, found: map<nat, Status>, handoff: map<EventId, nat>,
      early: set<EventId>) {
    && handoff.Keys <= rows.Keys && early <= rows.Keys
    && forall e | e in rows :: HandoffOk(log, found, handoff, early, e, rows[e].status)
  }

  // ---- Reports ----

  ghost predicate ReportOk(rows: Rows, r: Report) {
    && r.event in rows
    && (r.verdict.Success? || r.verdict.Exhausted?)
    && rows[r.event].status == if r.verdict.Success? then Completed else Failed
  }

  /** Every report names a terminal row by its outcome, and no row is reported twice. */
  ghost predicate ReportsOk(rows: Rows, rs: seq<Report>) {
    && (forall i | 0 <= i < |rs| :: ReportOk(rows, rs[i]))
    && (forall i, j | 0 <= i < j < |rs| :: rs[i].event != rs[j].event)
  }

  ghost predicate Reported(rs: seq<Report>, e: EventId) {
    exists i :: 0 <= i < |rs| && rs[i].event == e
  }

  // ---- Program counters ----

  /** The shared facts a program counter may rely on. */
  datatype View = View(
    rows: Rows,
    log: seq<Message>,
    found: map<nat, Status>,
    taker: map<nat, ProcId>,
    commits: Commits,
    counted: seq<Report>,
    announced: seq<Report>)

  ghost function ViewOf(s: State): View {
    View(s.db.rows, s.broker.log, s.hist.found, s.hist.taker, s.hist.commits, s.hist.counted, s.hist.announced)
  }

  /** The receipt is a delivered copy of the job's event. */
  ghost predicate JobOk(v: View, job: Job) {
    CopyOk(v.log, job.event, job.receipt) && job.receipt in v.taker && MessageOk(v.rows, MessageOf(job))
  }

  ghost predicate FinishedBy(commits: Commits, e: EventId, p: ProcId) {
    e in commits && commits[e] != [] && commits[e][|commits[e]| - 1].who == p
  }

  /** `p` finished the job's row and has not yet made the reports it still owes. */
  ghost predicate OwesReports(v: View, p: ProcId, job: Job, verdict: Verdict, chores: seq<Chore>)
    requires job.event in v.rows
  {
    && v.rows[job.event].status == (if verdict.Success? then Completed else Failed)
    && FinishedBy(v.commits, job.event, p)
    && (CountOutcome in chores ==> !Reported(v.counted, job.event))
    && (Announce in chores ==> !Reported(v.announced, job.event))
  }

  ghost predicate ClosingOk(v: View, p: ProcId, job: Job, verdict: Verdict, chores: seq<Chore>)
    requires job.event in v.rows && job.receipt in v.found
  {
    && 0 < |chores| <= |Chores(verdict)| && chores == Chores(verdict)[|Chores(verdict)| - |chores|..]
    && match verdict
       case Conflict => v.found[job.receipt] != Queued
       case Duplicate => v.rows[job.event].status.Completed?
       case _ => OwesReports(v, p, job, verdict, chores)
  }

  ghost predicate TodoOk(rows: Rows, todo: seq<Stale>) {
    forall i | 0 <= i < |todo| :: MessageOk(rows, Message(todo[i].id, todo[i].row.priority, todo[i].row.attempt))
  }

  ghost predicate ProcOk(v: View, p: ProcId, pc: Proc) {
    match pc
    case Gone => true
    case Publishing(e, priority) => p == Handler(e) && MessageOk(v.rows, Message(e, priority, 0))
    case Enqueuing(e, r) => p == Handler(e) && e in v.rows && CopyOk(v.log, e, r)
    case Polling(_) => p.Worker?
    case Claiming(job) => p.Worker? && JobOk(v, job) && v.taker[job.receipt] == p && job.receipt !in v.found
    case Running(job) => p.Worker? && JobOk(v, job) && job.receipt in v.found
    case Finalizing(job) => p.Worker? && JobOk(v, job) && job.receipt in v.found
    case Failing(job) => p.Worker? && JobOk(v, job) && job.receipt in v.found
    case Closing(job, verdict, chores) =>
      p.Worker? && JobOk(v, job) && job.receipt in v.found && ClosingOk(v, p, job, verdict, chores)
    case Waiting(job) => p.Task? && JobOk(v, job) && job.receipt in v.found && 1 <= job.attempt
    case Releasing(job, r) => p.Task? && JobOk(v, job) && job.receipt in v.found && LaterCopy(v.log, job.receipt, r)
    case Requeuing(job, r) => p.Task? && JobOk(v, job) && job.receipt in v.found && LaterCopy(v.log, job.receipt, r)
    case Sweeping(status, todo, _, _) => p.Sweeper? && status in {Processing, Retrying} && TodoOk(v.rows, todo)
    case Resetting(status, todo, _, _, r) =>
      p.Sweeper? && status in {Processing, Retrying} && todo != [] && CopyOk(v.log, todo[0].id, r)
          && TodoOk(v.rows, todo)
  }

  /** Retry goroutines are numbered by failures that were recorded, and handlers belong to known events. */
  ghost predicate ProcIdOk(rows: Rows, p: ProcId) {
    match p
    case Task(e, k) => e in rows && 1 <= k <= rows[e].attempt
    case Handler(e) => e in rows
    case _ => true
  }

  ghost predicate ProcInv(v: View, procs: map<ProcId, Proc>) {
    forall p | p in procs :: ProcIdOk(v.rows, p) && ProcOk(v, p, procs[p])
  }

  ghost predicate CoreInv(cfg: Config, s: State) {
    && StoreInv(cfg, s.db, s.hist.commits, s.hist.delays)
    && QueueInv(s.broker, s.db.rows, s.hist.found, s.hist.taker)
    && ReportsOk(s.db.rows, s.hist.counted) && ReportsOk(s.db.rows, s.hist.announced)
    && ProcInv(ViewOf(s), s.procs)
  }

  ghost predicate Inv(cfg: Config, s: State) {
    && CoreInv(cfg, s)
    && HandoffInv(s.db.rows, s.broker.log, s.hist.found, s.hist.handoff, s.hist.early)
  }

  /** What other modules take from the invariant. */
  lemma FactsOf(cfg: Config, s: State)
    requires Inv(cfg, s)
    ensures ProcInv(ViewOf(s), s.procs) && s.broker.Valid()
    ensures s.hist.commits.Keys == s.db.rows.Keys == s.hist.delays.Keys
  {
  }

  // ---- How shared facts evolve ----

  /** Rows are never removed, keep their priority, only gain attempts, and never leave a terminal status. */
  ghost predicate RowsGrow(rows: Rows, rows': Rows) {
    forall e | e in rows ::
      && e in rows' && rows'[e].priority == rows[e].priority && rows[e].attempt <= rows'[e].attempt
      && (Terminal(rows[e].status) ==> rows'[e].status == rows[e].status)
  }

  ghost predicate Evolves(v: View, v': View) {
    && RowsGrow(v.rows, v'.rows)
    && v.log <= v'.log
    && (forall i | i in v.found :: i in v'.found && v'.found[i] == v.found[i])
    && (forall i | i in v.taker :: i in v'.taker && v'.taker[i] == v.taker[i])
    && (forall e, p | e in v.rows && Terminal(v.rows[e].status) && FinishedBy(v.commits, e, p) ::
          FinishedBy(v'.commits, e, p))
  }

  /** The part of a program counter's claim that another process's step could spoil. */
  ghost predicate Undisturbed(v': View, pc: Proc) {
    match pc
    case Claiming(job) => job.receipt !in v'.found
    case Closing(job, verdict, chores) =>
      verdict.Success? || verdict.Exhausted? ==>
        && (CountOutcome in chores ==> !Reported(v'.counted, job.event))
        && (Announce in chores ==> !Reported(v'.announced, job.event))
    case _ => true
  }

  lemma ProcEvolves(v: View, v': View, p: ProcId, pc: Proc)
    requires ProcOk(v, p, pc) && Evolves(v, v') && Undisturbed(v', pc)
    ensures ProcOk(v', p, pc)
  {
  }

  lemma QueueGrows(broker: Broker, rows: Rows, rows': Rows, found: map<nat, Status>, taker: map<nat, ProcId>)
    requires QueueInv(broker, rows, found, taker) && RowsGrow(rows, rows')
    ensures QueueInv(broker, rows', found, taker)
  {
    forall i | 0 <= i < |broker.log| && broker.Acked(i) ensures Justified(rows', broker.log, found, i) {
      assert Justified(rows, broker.log, found, i);
    }
  }

  lemma ReportsGrow(rows: Rows, rows': Rows, rs: seq<Report>)
    requires ReportsOk(rows, rs) && RowsGrow(rows, rows')
    ensures ReportsOk(rows', rs)
  {
    forall i | 0 <= i < |rs| ensures ReportOk(rows', rs[i]) {
      assert ReportOk(rows, rs[i]);
    }
  }

  /** A step that only lets shared facts evolve leaves every other process's claim standing. */
  lemma ProcsEvolve(s: State, s': State)
    requires ProcInv(ViewOf(s), s.procs) && s'.procs == s.procs && Evolves(ViewOf(s), ViewOf(s'))
    requires forall p | p in s.procs :: Undisturbed(ViewOf(s'), s.procs[p])
    ensures ProcInv(ViewOf(s'), s'.procs)
  {
    forall p | p in s'.procs ensures ProcIdOk(s'.db.rows, p) && ProcOk(ViewOf(s'), p, s'.procs[p]) {
      assert ProcIdOk(s.db.rows, p);
      ProcEvolves(ViewOf(s), ViewOf(s'), p, s.procs[p]);
    }
  }

  lemma StillUndisturbed(s: State, s': State)
    requires ProcInv(ViewOf(s), s.procs)
    requires s'.hist.found == s.hist.found && s'.hist.counted == s.hist.counted && s'.hist.announced == s.hist.announced
    ensures forall p | p in s.procs :: Undisturbed(ViewOf(s'), s.procs[p])
  {
    forall p | p in s.procs ensures Undisturbed(ViewOf(s'), s.procs[p]) {
      assert ProcOk(ViewOf(s), p, s.procs[p]);
    }
  }

  // ---- Effects ----

  lemma SetKeeps(cfg: Config, s: State, p: ProcId, pc: Proc)
    requires Inv(cfg, s) && ProcIdOk(s.db.rows, p) && ProcOk(ViewOf(s), p, pc)
    ensures Inv(cfg, Set(s, p, pc))
  {
    assert ViewOf(Set(s, p, pc)) == ViewOf(s);
  }

  lemma AddKeepsQueue(b: Broker, rows: Rows, found: map<nat, Status>, taker: map<nat, ProcId>, m: Message)
    requires QueueInv(b, rows, found, taker) && MessageOk(rows, m)
    ensures QueueInv(b.Add(m), rows, found, taker)
  {
    var log, log' := b.log, b.Add(m).log;
    forall i | 0 <= i < |log'| && b.Add(m).Acked(i)
      ensures i in found && Justified(rows, log', found, i)
    {
      assert i < |log| && b.Acked(i) && Justified(rows, log, found, i);
      if j: nat :| LaterCopy(log, i, j) {
        assert LaterCopy(log', i, j);
      }
    }
  }

  lemma HandoffsSeeMore(rows: Rows, log: seq<Message>, log': seq<Message>, found: map<nat, Status>,
      handoff: map<EventId, nat>, early: set<EventId>)
    requires HandoffInv(rows, log, found, handoff, early) && log <= log'
    ensures HandoffInv(rows, log', found, handoff, early)
  {
    forall e | e in rows ensures HandoffOk(log', found, handoff, early, e, rows[e].status) {
      assert HandoffOk(log, found, handoff, early, e, rows[e].status);
    }
  }

  lemma AddKeeps(cfg: Config, s: State, m: Message)
    requires Inv(cfg, s) && MessageOk(s.db.rows, m)
    ensures Inv(cfg, Add(s, m))
    ensures CopyOk(Add(s, m).broker.log, m.event, |s.broker.log|)
    ensures Evolves(ViewOf(s), ViewOf(Add(s, m)))
  {
    var s' := Add(s, m);
    AddKeepsQueue(s.broker, s.db.rows, s.hist.found, s.hist.taker, m);
    HandoffsSeeMore(s.db.rows, s.broker.log, s'.broker.log, s.hist.found, s.hist.handoff, s.hist.early);
    StillUndisturbed(s, s');
    ProcsEvolve(s, s');
  }

  lemma DeliverKeepsQueue(b: Broker, rows: Rows, found: map<nat, Status>, taker: map<nat, ProcId>, stream: Stream,
      p: ProcId)
    requires QueueInv(b, rows, found, taker) && b.Next(stream) < |b.log|
    ensures QueueInv(b.Deliver(stream), rows, found, taker[b.Next(stream) := p])
    ensures b.Next(stream) !in taker && b.Next(stream) !in found
  {
    var i, b' := b.Next(stream), b.Deliver(stream);
    DeliverKeepsValid(b, stream);
    assert !b.IsDelivered(i);
    forall k | 0 <= k < |b'.log| && b'.Acked(k) ensures k in found && Justified(rows, b'.log, found, k) {
      assert k != i && b.Acked(k);
    }
  }

  lemma DeliverKeeps(cfg: Config, s: State, p: ProcId, stream: Stream)
    requires Inv(cfg, s)
    ensures Inv(cfg, Deliver(s, p, stream))
    ensures var i, s' := s.broker.Next(stream), Deliver(s, p, stream);
            i < |s.broker.log| ==> i !in s.hist.found && i in s'.hist.taker && s'.hist.taker[i] == p
  {
    hide StoreInv, HandoffInv, ReportsOk;
    var s' := Deliver(s, p, stream);
    if s.broker.Next(stream) < |s.broker.log| {
      DeliverKeepsQueue(s.broker, s.db.rows, s.hist.found, s.hist.taker, stream, p);
      TakerEvolves(ViewOf(s), s.broker.Next(stream), p);
      StillUndisturbed(s, s');
      ProcsEvolve(s, s');
    }
  }

  lemma TakerEvolves(v: View, i: nat, p: ProcId)
    requires i !in v.taker
    ensures Evolves(v, v.(taker := v.taker[i := p]))
  {
  }

  lemma AckKeepsQueue(b: Broker, rows: Rows, found: map<nat, Status>, taker: map<nat, ProcId>, i: nat)
    requires QueueInv(b, rows, found, taker) && i < |b.log| && i in found && Justified(rows, b.log, found, i)
    ensures QueueInv(b.Ack(i), rows, found, taker)
  {
    forall k | 0 <= k < |b.log| && b.Ack(i).Acked(k) ensures k in found && Justified(rows, b.log, found, k) {
      assert k == i || b.Acked(k);
    }
  }

  lemma AckKeeps(cfg: Config, s: State, i: nat)
    requires Inv(cfg, s) && i < |s.broker.log| && i in s.hist.found
    requires Justified(s.db.rows, s.broker.log, s.hist.found, i)
    ensures Inv(cfg, Ack(s, i))
  {
    AckKeepsQueue(s.broker, s.db.rows, s.hist.found, s.hist.taker, i);
    assert ViewOf(Ack(s, i)) == ViewOf(s);
  }

  /** A claim records what it saw; only the process the copy was delivered to can do so. */
  lemma FindKeepsQueue(b: Broker, rows: Rows, found: map<nat, Status>, taker: map<nat, ProcId>, i: nat, status: Status)
    requires QueueInv(b, rows, found, taker) && i in taker && i !in found
    ensures QueueInv(b, rows, found[i := status], taker)
  {
    forall k | 0 <= k < |b.log| && b.Acked(k)
      ensures k in found[i := status] && Justified(rows, b.log, found[i := status], k)
    {
      assert Justified(rows, b.log, found, k);
    }
  }

  // ---- Transactions ----

  /** What every transaction the protocol issues does to the row it writes. */
  ghost predicate RowStep(cfg: Config, db: Db, db': Db, e: EventId) {
    && e in db.rows && e in db'.rows
    && var r, r' := db.rows[e], db'.rows[e];
       && db'.rows == db.rows[e := r']
       && IsValidTransition(r.status, r'.status)
       && r'.priority == r.priority
       && r'.attempt == r.attempt + (if r'.status in {Retrying, Failed} then 1 else 0)
       && (forall x | x != e :: x in db'.idempotency <==> x in db.idempotency)
       && RowOk(cfg, r', e in db'.idempotency)
  }

  lemma ClaimIsRowStep(cfg: Config, db: Db, e: EventId, owner: Option<Uuid>, now: nat)
    requires e in db.rows && RowOk(cfg, db.rows[e], e in db.idempotency)
    ensures var tx := AssignTx(db, e, owner, Queued, Processing, now);
            tx.err.Ok? ==> RowStep(cfg, db, tx.db, e) && tx.db.rows[e].status.Processing?
  {
  }

  lemma FinalizeIsRowStep(cfg: Config, db: Db, e: EventId, now: nat)
    requires e in db.rows && RowOk(cfg, db.rows[e], e in db.idempotency)
    ensures var tx := FinalizeTx(db, e, RESULT_HASH, now);
            tx.err.Ok? ==> RowStep(cfg, db, tx.db, e) && tx.db.rows[e].status.Completed?
  {
  }

  lemma FailureIsRowStep(cfg: Config, db: Db, e: EventId, now: nat)
    requires e in db.rows && RowOk(cfg, db.rows[e], e in db.idempotency)
    ensures var tx := RecordFailureTx(db, e, cfg.maxAttempts, now);
            tx.err.Ok? ==> RowStep(cfg, db, tx.db, e) && tx.db.rows[e].status in {Retrying, Failed}
  {
  }

  lemma EnqueueIsRowStep(cfg: Config, db: Db, e: EventId, old_: Status, now: nat)
    requires e in db.rows && RowOk(cfg, db.rows[e], e in db.idempotency) && old_ in {Received, Retrying}
    ensures var tx := UpdateStatusTx(db, e, old_, Queued, now);
            tx.err.Ok? ==> RowStep(cfg, db, tx.db, e) && tx.db.rows[e].status.Queued?
  {
  }

  lemma ResetIsRowStep(cfg: Config, db: Db, e: EventId, old_: Status, now: nat)
    requires e in db.rows && RowOk(cfg, db.rows[e], e in db.idempotency) && old_ in {Processing, Retrying}
    ensures var tx := AssignTx(db, e, None, old_, Queued, now);
            tx.err.Ok? ==> RowStep(cfg, db, tx.db, e) && tx.db.rows[e].status.Queued?
  {
  }

  lemma DelaysFitMore(base: nat, ds: seq<int>, k: nat, k': nat)
    requires DelaysFit(base, ds, k) && k <= k'
    ensures DelaysFit(base, ds, k')
  {
    Pow2Monotone(k + 1, k' + 1);
    ScaleMonotone(11 * base, Pow2(k + 1) - 2, Pow2(k' + 1) - 2);
    ScaleMonotone(MAX_DELAY, k, k');
  }

  lemma CommitKeepsStore(cfg: Config, db: Db, db': Db, commits: Commits, delays: map<EventId, seq<int>>, e: EventId,
      p: ProcId)
    requires StoreInv(cfg, db, commits, delays) && RowStep(cfg, db, db', e)
    ensures StoreInv(cfg, db', commits[e := commits[e] + [Write(p, db.rows[e].status, db'.rows[e].status)]], delays)
  {
    hide DelaysInv, IsPath, Count, TrailOk;
    var ws := commits[e] + [Write(p, db.rows[e].status, db'.rows[e].status)];
    TrailExtends(db.rows[e], db'.rows[e], commits[e], p);
    assert RowOk(cfg, db.rows[e], e in db.idempotency);
    DelaysStillFit(cfg.baseDelay, db.rows, db'.rows, delays, e);
    forall x | x in db'.rows ensures TrailOk(db'.rows[x], commits[e := ws][x]) {
      assert TrailOk(db.rows[x], commits[x]);
    }
  }

  lemma DelaysStillFit(base: nat, rows: Rows, rows': Rows, delays: map<EventId, seq<int>>, e: EventId)
    requires delays.Keys == rows.Keys && DelaysInv(base, rows, delays)
    requires e in rows && e in rows' && rows' == rows[e := rows'[e]] && NonFinal(rows[e]) <= NonFinal(rows'[e])
    ensures DelaysInv(base, rows', delays)
  {
    forall x | x in rows' ensures DelaysFit(base, delays[x], NonFinal(rows'[x])) {
      DelaysFitMore(base, delays[x], NonFinal(rows[x]), NonFinal(rows'[x]));
    }
  }

  lemma TrailExtends(r: Row, r': Row, ws: seq<Write<ProcId>>, p: ProcId)
    requires TrailOk(r, ws) && IsValidTransition(r.status, r'.status)
    requires r'.attempt == r.attempt + (if r'.status in {Retrying, Failed} then 1 else 0)
    ensures TrailOk(r', ws + [Write(p, r.status, r'.status)])
  {
    Extend(ws, Write(p, r.status, r'.status));
  }

  lemma CommitEvolves(cfg: Config, v: View, db: Db, db': Db, e: EventId, w: Write<ProcId>)
    requires v.rows == db.rows && RowStep(cfg, db, db', e) && e in v.commits
    ensures Evolves(v, v.(rows := db'.rows, commits := v.commits[e := v.commits[e] + [w]]))
  {
    var commits' := v.commits[e := v.commits[e] + [w]];
    forall x, q | x in v.rows && Terminal(v.rows[x].status) && FinishedBy(v.commits, x, q)
      ensures FinishedBy(commits', x, q)
    {
      assert x != e;
    }
  }

  lemma CommitKeepsCore(cfg: Config, s: State, p: ProcId, e: EventId, tx: Tx)
    requires CoreInv(cfg, s) && tx.err.Ok? && RowStep(cfg, s.db, tx.db, e)
    ensures CoreInv(cfg, Commit(s, p, e, tx))
    ensures Evolves(ViewOf(s), ViewOf(Commit(s, p, e, tx)))
  {
    hide IsPath, Count;
    var s' := Commit(s, p, e, tx);
    CommitEvolves(cfg, ViewOf(s), s.db, tx.db, e, Write(p, s.db.rows[e].status, tx.db.rows[e].status));
    CommitKeepsStore(cfg, s.db, tx.db, s.hist.commits, s.hist.delays, e, p);
    QueueGrows(s.broker, s.db.rows, tx.db.rows, s.hist.found, s.hist.taker);
    ReportsGrow(s.db.rows, tx.db.rows, s.hist.counted);
    ReportsGrow(s.db.rows, tx.db.rows, s.hist.announced);
    StillUndisturbed(s, s');
    ProcsEvolve(s, s');
  }

  /** A transaction that does not queue the row. */
  lemma CommitKeeps(cfg: Config, s: State, p: ProcId, e: EventId, tx: Tx)
    requires Inv(cfg, s) && (tx.err.Ok? ==> RowStep(cfg, s.db, tx.db, e) && !tx.db.rows[e].status.Queued?)
    ensures Inv(cfg, Commit(s, p, e, tx))
  {
    if tx.err.Ok? {
      CommitKeepsCore(cfg, s, p, e, tx);
      HandoffsSkip(s.db.rows, tx.db.rows, s.broker.log, s.hist.found, s.hist.handoff, s.hist.early, e);
    }
  }

  lemma HandoffsSkip(rows: Rows, rows': Rows, log: seq<Message>, found: map<nat, Status>, handoff: map<EventId, nat>,
      early: set<EventId>, e: EventId)
    requires HandoffInv(rows, log, found, handoff, early)
    requires e in rows && e in rows' && rows' == rows[e := rows'[e]] && !rows'[e].status.Queued?
    ensures HandoffInv(rows', log, found, handoff, early)
  {
    forall x | x in rows' ensures HandoffOk(log, found, handoff, early, x, rows'[x].status) {
      assert HandoffOk(log, found, handoff, early, x, rows[x].status);
    }
  }

  lemma HandoffsWrite(rows: Rows, rows': Rows, log: seq<Message>, found: map<nat, Status>,
      handoff: map<EventId, nat>, early: set<EventId>, e: EventId, receipt: nat)
    requires HandoffInv(rows, log, found, handoff, early)
    requires e in rows && e in rows' && rows' == rows[e := rows'[e]] && CopyOk(log, e, receipt)
    ensures HandoffInv(rows', log, found, handoff[e := receipt], if receipt in found then early + {e} else early - {e})
  {
    var early' := if receipt in found then early + {e} else early - {e};
    forall x | x in rows' ensures HandoffOk(log, found, handoff[e := receipt], early', x, rows'[x].status) {
      assert HandoffOk(log, found, handoff, early, x, rows[x].status);
    }
  }

  lemma HandoffMovesNobody(s: State, p: ProcId, e: EventId, receipt: nat, tx: Tx)
    ensures Handoff(s, p, e, receipt, tx).procs == s.procs
  {
  }

  /** The status write of a handoff. */
  lemma HandoffKeeps(cfg: Config, s: State, p: ProcId, e: EventId, receipt: nat, tx: Tx)
    requires Inv(cfg, s) && CopyOk(s.broker.log, e, receipt)
    requires tx.err.Ok? ==> RowStep(cfg, s.db, tx.db, e)
    ensures Inv(cfg, Handoff(s, p, e, receipt, tx))
  {
    if tx.err.Ok? {
      CommitKeepsCore(cfg, s, p, e, tx);
      HandoffsWrite(s.db.rows, tx.db.rows, s.broker.log, s.hist.found, s.hist.handoff, s.hist.early, e, receipt);
      assert ViewOf(Handoff(s, p, e, receipt, tx)) == ViewOf(Commit(s, p, e, tx));
    }
  }
}
