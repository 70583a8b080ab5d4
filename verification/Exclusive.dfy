/**
 Exclusive processing. The store does not fence claims, so two workers can hold one event: it takes a
 recovery of an event whose owner is not really finished with it. In runs where every recovery is of a
 worker that had stopped, without having moved since the sweep looked, a held row stays with its holder.
 */
module Exclusive {
  import opened Events
  import opened Trails
  import opened EventStore
  import opened Streams
  import opened Backoff
  import opened Protocol
  import opened ProtocolInvariant
  import opened ProtocolSteps

  /** Between a successful claim of `e` and its recorded outcome. */
  predicate Holds(pc: Proc, e: EventId) {
    match pc
    case Running(job) => job.event == e
    case Finalizing(job) => job.event == e
    case Failing(job) => job.event == e
    case _ => false
  }

  predicate Owns(cfg: Config, p: ProcId, u: Uuid) {
    p.Worker? && OwnerOf(cfg, p.name) == Some(u)
  }

  /** No worker with id `u` has taken a step since time `since`. */
  predicate Unmoved(cfg: Config, s: State, u: Uuid, since: nat) {
    forall p | p in s.hist.acted && Owns(cfg, p, u) :: s.hist.acted[p] < since
  }

  /** The worker with id `u` has stopped, and had taken its last step before time `since`. */
  ghost predicate Departed(cfg: Config, s: State, u: Uuid, since: nat) {
    && Unmoved(cfg, s, u, since)
    && (exists p :: p in s.procs && Owns(cfg, p, u))
    && forall p | p in s.procs && Owns(cfg, p, u) :: s.procs[p] == Gone
  }

  /** The sweep asks about owner `u` and is told that its heartbeat key is absent. */
  predicate FindsAbsent(pc: Proc, c: Choice, u: Uuid) {
    && pc.Sweeping? && pc.todo != [] && NextSweepStep(pc.status, pc.todo[0].row, pc.dead) == Probe(u)
    && c.reply.Delivered? && !c.flag
  }

  /**
   The deployment's side of the bargain: worker ids are UUIDs, each used by one process once; one sweep
   runs at a time; and a key is found absent only for a worker that stopped before the sweep's snapshot
   could go stale.
   */
  ghost predicate Fenced(cfg: Config, s: State, m: Move) {
    match m
    case Boot(name) =>
      && Worker(name) !in s.procs && OwnerOf(cfg, name).Some?
      && forall p | p in s.procs :: !Owns(cfg, p, OwnerOf(cfg, name).value)
    case Snapshot(_, _, _, _) => forall p | p in s.procs && p.Sweeper? :: s.procs[p] == Gone
    case Act(p, c) =>
      p in s.procs ==> forall u | FindsAbsent(s.procs[p], c, u) :: Departed(cfg, s, u, s.procs[p].since)
    case _ => true
  }

  ghost predicate FencedRun(cfg: Config, moves: seq<Move>)
    requires Legal(cfg, moves)
    decreases |moves|
  {
    moves != [] ==>
      FencedRun(cfg, moves[..|moves| - 1]) && Fenced(cfg, After(cfg, moves[..|moves| - 1]), moves[|moves| - 1])
  }

  // ---- The invariant of fenced runs ----

  ghost predicate HolderOk(cfg: Config, rows: Rows, p: ProcId, pc: Proc) {
    forall e | Holds(pc, e) ::
      p.Worker? && e in rows && rows[e].status.Processing? && rows[e].worker == OwnerOf(cfg, p.name)
  }

  ghost predicate WorkersOk(cfg: Config, s: State) {
    && (forall p | p in s.procs && p.Worker? :: OwnerOf(cfg, p.name).Some? && HolderOk(cfg, s.db.rows, p, s.procs[p]))
    && (forall p, q, u | p in s.procs && q in s.procs && Owns(cfg, p, u) && Owns(cfg, q, u) :: p == q)
  }

  /** A stale row whose owner has not moved is still that owner's. */
  ghost predicate StillOwned(cfg: Config, s: State, x: Stale, since: nat) {
    forall u | x.row.worker == Some(u) && Unmoved(cfg, s, u, since) ::
      x.id in s.db.rows && s.db.rows[x.id].status.Processing? && s.db.rows[x.id].worker == Some(u)
  }

  ghost predicate SweepListOk(cfg: Config, s: State, todo: seq<Stale>, dead: map<Uuid, bool>, since: nat) {
    && (forall i, j | 0 <= i < j < |todo| :: todo[i].id != todo[j].id)
    && (forall i | 0 <= i < |todo| :: StillOwned(cfg, s, todo[i], since))
    && (forall u | u in dead && dead[u] :: Departed(cfg, s, u, since))
    && since <= s.hist.clock
  }

  ghost predicate SweepOk(cfg: Config, s: State, pc: Proc) {
    match pc
    case Sweeping(status, todo, dead, since) => status.Processing? ==> SweepListOk(cfg, s, todo, dead, since)
    case Resetting(status, todo, dead, since, _) =>
      status.Processing? ==>
        && SweepListOk(cfg, s, todo, dead, since)
        && todo != [] && todo[0].row.worker.Some? && todo[0].row.worker.value in dead && dead[todo[0].row.worker.value]
    case _ => true
  }

  ghost predicate SweepsOk(cfg: Config, s: State) {
    && (forall p, q | p in s.procs && q in s.procs && p.Sweeper? && q.Sweeper? ::
          s.procs[p] == Gone || s.procs[q] == Gone || p == q)
    && (forall p | p in s.procs :: SweepOk(cfg, s, s.procs[p]))
  }

  ghost predicate FencedInv(cfg: Config, s: State) {
    && WorkersOk(cfg, s) && SweepsOk(cfg, s)
    && forall p | p in s.hist.acted :: s.hist.acted[p] < s.hist.clock
  }

  // ---- What a move can do ----

  /** The only steps that change an existing row, with the status they change it from. */
  predicate Changes(pc: Proc, row: Row, e: EventId) {
    match pc
    case Enqueuing(x, _) => x == e && row.status.Received?
    case Claiming(job) => job.event == e && row.status.Queued?
    case Finalizing(job) => job.event == e && row.status.Processing?
    case Failing(job) => job.event == e && row.status.Processing?
    case Requeuing(job, _) => job.event == e && row.status.Retrying?
    case Resetting(status, todo, _, _, _) => todo != [] && todo[0].id == e && row.status == status
    case _ => false
  }

  lemma WorkersChangeTheirRow(cfg: Config, s: State, p: ProcId, pc: Proc, c: Choice)
    requires pc.Claiming? || pc.Finalizing? || pc.Failing?
    ensures var s' := Resume(cfg, s, p, pc, c);
            && s.db.rows.Keys == s'.db.rows.Keys
            && forall e | e in s.db.rows && s'.db.rows[e] != s.db.rows[e] :: Changes(pc, s.db.rows[e], e)
  {
    hide ActClaiming, ActFinalizing, ActFailing;
  }

  lemma WhoChangesARow(cfg: Config, s: State, p: ProcId, pc: Proc, c: Choice)
    ensures var s' := Resume(cfg, s, p, pc, c);
            && s.db.rows.Keys == s'.db.rows.Keys
            && forall e | e in s.db.rows && s'.db.rows[e] != s.db.rows[e] :: Changes(pc, s.db.rows[e], e)
  {
    hide ActPublishing, ActEnqueuing, ActPolling, ActClaiming, ActFinalizing, ActFailing,
      ActClosing, ActWaiting, ActReleasing, ActRequeuing, ActSweeping, ActResetting, FinalizeTx, RecordFailureTx;
    if pc.Claiming? || pc.Finalizing? || pc.Failing? {
      WorkersChangeTheirRow(cfg, s, p, pc, c);
    }
  }

  /** A reset that changes its row queues it. */
  lemma ResetQueues(cfg: Config, s: State, p: ProcId, pc: Proc, c: Choice, e: EventId)
    requires pc.Resetting? && pc.todo != [] && pc.todo[0].id == e && e in s.db.rows
    requires var rows' := Resume(cfg, s, p, pc, c).db.rows; e in rows' && rows'[e] != s.db.rows[e]
    ensures Resume(cfg, s, p, pc, c).db.rows[e].status.Queued?
  {
  }

  lemma OnlyTheActorMoves(cfg: Config, s: State, p: ProcId, pc: Proc, c: Choice)
    ensures OthersStay(s, Resume(cfg, s, p, pc, c), p) && TimeStays(s, Resume(cfg, s, p, pc, c))
  {
    hide ActPublishing, ActEnqueuing, ActPolling, ActClaiming, ActFinalizing, ActFailing,
      ActClosing, ActWaiting, ActReleasing, ActRequeuing, ActSweeping, ActResetting;
  }

  ghost predicate MovesAlone(s: State, s': State, p: ProcId) {
    forall q | q != p :: (q in s'.procs <==> q in s.procs) && (q in s.procs ==> s'.procs[q] == s.procs[q])
  }

  lemma SweepingMovesAlone(s: State, p: ProcId, status: Status, todo: seq<Stale>, dead: map<Uuid, bool>, since: nat,
      c: Choice)
    ensures MovesAlone(s, ActSweeping(s, p, status, todo, dead, since, c), p)
  {
    SweepingSetsItself(s, p, status, todo, dead, since, c);
    hide ActSweeping;
  }

  lemma SweepingSetsItself(s: State, p: ProcId, status: Status, todo: seq<Stale>, dead: map<Uuid, bool>, since: nat,
      c: Choice)
    ensures var procs := ActSweeping(s, p, status, todo, dead, since, c).procs;
            procs == s.procs || (p in procs && procs == s.procs[p := procs[p]])
  {
    hide NextSweepStep, Quiet;
  }

  lemma ResettingMovesAlone(s: State, p: ProcId, status: Status, todo: seq<Stale>, dead: map<Uuid, bool>, since: nat,
      receipt: nat, c: Choice)
    requires todo != []
    ensures MovesAlone(s, ActResetting(s, p, status, todo, dead, since, receipt, c), p)
  {
    hide Handoff, AssignTx, Quiet;
    HandoffMovesNobody(s, p, todo[0].id, receipt, AssignTx(s.db, todo[0].id, None, status, Queued, c.now));
  }

  lemma SweeperMovesAlone(cfg: Config, s: State, p: ProcId, pc: Proc, c: Choice)
    requires pc.Sweeping? || pc.Resetting?
    ensures MovesAlone(s, Resume(cfg, s, p, pc, c), p)
  {
    hide ActSweeping, ActResetting, MovesAlone;
    match pc
    case Sweeping(status, todo, dead, since) =>
      SweepingMovesAlone(s, p, status, todo, dead, since, c);
    case Resetting(status, todo, dead, since, receipt) =>
      if todo == [] {
        assert MovesAlone(s, s, p) by { NobodyMoves(s, p); }
      } else {
        ResettingMovesAlone(s, p, status, todo, dead, since, receipt, c);
      }
  }

  lemma NobodyMoves(s: State, p: ProcId)
    ensures MovesAlone(s, s, p)
  {
  }

  /** A worker comes to hold an event by claiming it, and otherwise only goes on holding it. */
  lemma HowToHold(cfg: Config, s: State, p: ProcId, pc: Proc, c: Choice, e: EventId)
    requires p.Worker? && p in s.procs && s.procs[p] == Gone && Holds(Resume(cfg, s, p, pc, c).procs[p], e)
    requires s.hist.commits.Keys == s.db.rows.Keys
    requires IsWorkerCounter(pc)
    ensures var s' := Resume(cfg, s, p, pc, c);
            || (Holds(pc, e) && s'.db == s.db)
            || (e in s.db.rows && s.db.rows[e].status.Queued?
                && e in s'.db.rows && s'.db.rows[e].status.Processing? && s'.db.rows[e].worker == OwnerOf(cfg, p.name))
  {
    hide CalculateBackoff, RecordFailureTx, FinalizeTx;
    match pc {
      case Polling(_) =>
      case Claiming(job) =>
      case Running(job) =>
      case Finalizing(job) =>
      case Failing(job) =>
      case Closing(_, _, _) =>
    }
  }

  lemma HoldersAreWorkers(s: State, q: ProcId, e: EventId)
    requires ProcInv(ViewOf(s), s.procs) && q in s.procs && Holds(s.procs[q], e)
    ensures q.Worker? && e in s.db.rows
  {
    assert ProcOk(ViewOf(s), q, s.procs[q]);
  }

  /** No step of process `p` changes a row that another process holds. */
  lemma HeldRowsStay(cfg: Config, s: State, p: ProcId, q: ProcId, e: EventId)
    requires ProcInv(ViewOf(s), s.procs) && FencedInv(cfg, s)
    requires p in s.procs && q in s.procs && q != p && Holds(s.procs[q], e)
    ensures e in s.db.rows && !Changes(s.procs[p], s.db.rows[e], e)
  {
    HoldersAreWorkers(s, q, e);
    assert HolderOk(cfg, s.db.rows, q, s.procs[q]);
    var pc, u := s.procs[p], s.db.rows[e].worker.value;
    assert Owns(cfg, q, u);
    assert SweepOk(cfg, s, pc);
    assert p.Worker? ==> HolderOk(cfg, s.db.rows, p, pc);
    if Holds(pc, e) {
      HoldersAreWorkers(s, p, e);
    }
  }

  // ---- Every fenced move keeps it ----

  lemma ActKeepsWorkers(cfg: Config, s: State, p: ProcId, c: Choice)
    requires ProcInv(ViewOf(s), s.procs) && s.hist.commits.Keys == s.db.rows.Keys && FencedInv(cfg, s) && Active(s, p)
    ensures WorkersOk(cfg, Resume(cfg, Set(s, p, Gone), p, s.procs[p], c))
  {
    hide Resume, ProcOk, SweepsOk, Changes;
    var parked, pc := Set(s, p, Gone), s.procs[p];
    var s' := Resume(cfg, parked, p, pc, c);
    WhoChangesARow(cfg, parked, p, pc, c);
    OnlyTheActorMoves(cfg, parked, p, pc, c);
    forall q | q in s'.procs && q.Worker?
      ensures q in s.procs && HolderOk(cfg, s'.db.rows, q, s'.procs[q])
    {
      assert q == p || q in parked.procs;
      assert HolderOk(cfg, s.db.rows, q, s.procs[q]);
      forall e | Holds(s'.procs[q], e)
        ensures e in s'.db.rows && s'.db.rows[e].status.Processing? && s'.db.rows[e].worker == OwnerOf(cfg, q.name)
      {
        if q == p {
          WorkerCounters(ViewOf(s), p, pc);
          HowToHold(cfg, parked, p, pc, c, e);
        } else {
          HeldRowsStay(cfg, s, p, q, e);
        }
      }
    }
  }

  lemma WorkerCounters(v: View, p: ProcId, pc: Proc)
    requires ProcOk(v, p, pc) && p.Worker? && pc != Gone
    ensures IsWorkerCounter(pc)
  {
  }

  lemma HolderOwnsItsRow(cfg: Config, s: State, p: ProcId, e: EventId)
    requires ProcInv(ViewOf(s), s.procs) && FencedInv(cfg, s) && p in s.procs
    ensures Holds(s.procs[p], e) ==> p.Worker? && e in s.db.rows && s.db.rows[e].worker == OwnerOf(cfg, p.name)
  {
    hide SweepsOk;
    assert ProcOk(ViewOf(s), p, s.procs[p]);
    assert p.Worker? ==> HolderOk(cfg, s.db.rows, p, s.procs[p]);
  }

  /** A stale row of another process's sweep stays its owner's unless that owner moves. */
  lemma ActKeepsStillOwned(cfg: Config, s: State, p: ProcId, c: Choice, x: Stale, since: nat, s': State)
    requires ProcInv(ViewOf(s), s.procs) && FencedInv(cfg, s) && Active(s, p)
    requires s'.db.rows.Keys == s.db.rows.Keys && s'.hist.acted == s.hist.acted[p := s.hist.clock]
            && since <= s.hist.clock
    requires forall e | e in s.db.rows && s'.db.rows[e] != s.db.rows[e] :: Changes(s.procs[p], s.db.rows[e], e)
    requires StillOwned(cfg, s, x, since)
    requires s.procs[p].Resetting? && s.procs[p].todo != [] ==> s.procs[p].todo[0].id != x.id
    ensures StillOwned(cfg, s', x, since)
  {
    forall u | x.row.worker == Some(u) && Unmoved(cfg, s', u, since)
      ensures x.id in s'.db.rows && s'.db.rows[x.id].status.Processing? && s'.db.rows[x.id].worker == Some(u)
    {
      assert !Owns(cfg, p, u) by {
        assert p in s'.hist.acted;
      }
      assert Unmoved(cfg, s, u, since) by {
        forall q | q in s.hist.acted && Owns(cfg, q, u) ensures s.hist.acted[q] < since {
          assert q in s'.hist.acted;
        }
      }
      HolderOwnsItsRow(cfg, s, p, x.id);
    }
  }

  lemma ActKeepsDeparted(cfg: Config, s: State, p: ProcId, u: Uuid, since: nat, s': State)
    requires Departed(cfg, s, u, since) && Active(s, p) && OthersStay(Set(s, p, Gone), s', p)
    requires s'.hist.acted == s.hist.acted[p := s.hist.clock]
    ensures Departed(cfg, s', u, since)
  {
    assert !Owns(cfg, p, u);
    var q :| q in s.procs && Owns(cfg, q, u);
    assert q in s'.procs;
    forall r | r in s'.procs && Owns(cfg, r, u) ensures s'.procs[r] == Gone {
      assert r in Set(s, p, Gone).procs;
    }
  }

  /** What a sweep's program counter becomes: the head of its list is dropped, looked up or republished. */
  predicate SweepAdvances(pc: Proc, c: Choice, pc': Proc) {
    match pc'
    case Gone => true
    case Sweeping(status, todo, dead, since) =>
      && (pc.Sweeping? || pc.Resetting?) && pc.status == status && pc.since == since && pc.todo != []
      && ((todo == pc.todo[1..] && dead == pc.dead)
          || (todo == pc.todo && pc.Sweeping? && exists u | u in dead ::
                dead == pc.dead[u := dead[u]] && (dead[u] ==> FindsAbsent(pc, c, u))))
    case Resetting(status, todo, dead, since, _) =>
      && pc.Sweeping? && pc.status == status && pc.since == since && pc.todo == todo != [] && pc.dead == dead
      && NextSweepStep(status, todo[0].row, dead) == Republish
    case _ => false
  }

  lemma SweeperAdvances(cfg: Config, s: State, p: ProcId, pc: Proc, c: Choice)
    requires (pc.Sweeping? || pc.Resetting?) && p in s.procs && s.procs[p] == Gone
    ensures p in Resume(cfg, s, p, pc, c).procs && SweepAdvances(pc, c, Resume(cfg, s, p, pc, c).procs[p])
  {
    hide AssignTx;
    if pc.Sweeping? && pc.todo != [] && NextSweepStep(pc.status, pc.todo[0].row, pc.dead).Probe? {
      var u := NextSweepStep(pc.status, pc.todo[0].row, pc.dead).owner;
      var pc' := Resume(cfg, s, p, pc, c).procs[p];
      assert c.reply.Delivered? ==> u in pc'.dead && pc'.dead == pc.dead[u := pc'.dead[u]];
    }
  }

  lemma ActKeepsSweepList(cfg: Config, s: State, p: ProcId, c: Choice, todo: seq<Stale>, dead: map<Uuid, bool>,
      since: nat, s': State)
    requires ProcInv(ViewOf(s), s.procs) && FencedInv(cfg, s) && Active(s, p) && OthersStay(Set(s, p, Gone), s', p)
    requires s'.db.rows.Keys == s.db.rows.Keys && s'.hist.acted == s.hist.acted[p := s.hist.clock]
    requires s.hist.clock <= s'.hist.clock
    requires forall e | e in s.db.rows && s'.db.rows[e] != s.db.rows[e] :: Changes(s.procs[p], s.db.rows[e], e)
    requires SweepListOk(cfg, s, todo, dead, since)
    requires s.procs[p].Resetting? && s.procs[p].todo != [] ==>
               forall i | 0 <= i < |todo| :: s.procs[p].todo[0].id != todo[i].id
    ensures SweepListOk(cfg, s', todo, dead, since)
  {
    hide StillOwned, Departed, FencedInv, ProcInv;
    forall i | 0 <= i < |todo| ensures StillOwned(cfg, s', todo[i], since) {
      ActKeepsStillOwned(cfg, s, p, c, todo[i], since, s');
    }
    forall u | u in dead && dead[u] ensures Departed(cfg, s', u, since) {
      ActKeepsDeparted(cfg, s, p, u, since, s');
    }
  }

  lemma SweepListShrinks(cfg: Config, s: State, todo: seq<Stale>, dead: map<Uuid, bool>, since: nat)
    requires SweepListOk(cfg, s, todo, dead, since) && todo != []
    ensures SweepListOk(cfg, s, todo[1..], dead, since)
    ensures forall i | 0 <= i < |todo[1..]| :: todo[0].id != todo[1..][i].id
  {
  }

  lemma SweepListLearns(cfg: Config, s: State, todo: seq<Stale>, dead: map<Uuid, bool>, dead': map<Uuid, bool>,
      since: nat, u: Uuid)
    requires SweepListOk(cfg, s, todo, dead, since) && u in dead' && dead' == dead[u := dead'[u]]
    requires dead'[u] ==> Departed(cfg, s, u, since)
    ensures SweepListOk(cfg, s, todo, dead', since)
  {
  }

  /** The sweep that moves keeps its own list in order. */
  lemma SweeperKeepsItsList(cfg: Config, s: State, p: ProcId, c: Choice, s': State, pc': Proc)
    requires ProcInv(ViewOf(s), s.procs) && FencedInv(cfg, s) && Active(s, p) && OthersStay(Set(s, p, Gone), s', p)
    requires Fenced(cfg, s, Act(p, c)) && SweepAdvances(s.procs[p], c, pc')
    requires s'.db.rows.Keys == s.db.rows.Keys && s'.hist.acted == s.hist.acted[p := s.hist.clock]
    requires s.hist.clock <= s'.hist.clock
    requires forall e | e in s.db.rows && s'.db.rows[e] != s.db.rows[e] :: Changes(s.procs[p], s.db.rows[e], e)
    ensures SweepOk(cfg, s', pc')
  {
    hide SweepListOk, Departed, WorkersOk, ProcInv, ProcOk;
    var pc := s.procs[p];
    assert SweepOk(cfg, s, pc);
    if pc' != Gone && pc'.status.Processing? {
      var todo, dead, since := pc.todo, pc.dead, pc.since;
      if pc'.Sweeping? && pc'.todo == todo[1..] && pc'.dead == dead {
        SweepListShrinks(cfg, s, todo, dead, since);
        ActKeepsSweepList(cfg, s, p, c, todo[1..], dead, since, s');
      } else if pc'.Sweeping? {
        var u :| u in pc'.dead && pc'.dead == dead[u := pc'.dead[u]] && (pc'.dead[u] ==> FindsAbsent(pc, c, u));
        SweepListLearns(cfg, s, todo, dead, pc'.dead, since, u);
        ActKeepsSweepList(cfg, s, p, c, todo, pc'.dead, since, s');
      } else {
        ActKeepsSweepList(cfg, s, p, c, todo, dead, since, s');
      }
    }
  }

  lemma SweepersAreSweepers(s: State, p: ProcId)
    requires ProcInv(ViewOf(s), s.procs) && p in s.procs
    ensures s.procs[p].Sweeping? || s.procs[p].Resetting? ==> p.Sweeper?
    ensures p.Task? ==> !s.procs[p].Sweeping? && !s.procs[p].Resetting?
  {
    assert ProcOk(ViewOf(s), p, s.procs[p]);
  }

  /** What the lemmas above need to know about a step. */
  ghost predicate StepFrame(s: State, s': State, p: ProcId) {
    && p in s.procs && OthersStay(Set(s, p, Gone), s', p)
    && s'.db.rows.Keys == s.db.rows.Keys && s'.hist.acted == s.hist.acted[p := s.hist.clock]
    && s'.hist.clock == s.hist.clock + 1
    && forall e | e in s.db.rows && s'.db.rows[e] != s.db.rows[e] :: Changes(s.procs[p], s.db.rows[e], e)
  }

  lemma ActFrames(cfg: Config, s: State, p: ProcId, c: Choice)
    requires Enabled(s, Act(p, c))
    ensures StepFrame(s, Next(cfg, s, Act(p, c)), p)
  {
    hide Resume, Changes;
    WhoChangesARow(cfg, Set(s, p, Gone), p, s.procs[p], c);
    OnlyTheActorMoves(cfg, Set(s, p, Gone), p, s.procs[p], c);
  }

  lemma SweeperStep(cfg: Config, s: State, p: ProcId, c: Choice)
    requires ProcInv(ViewOf(s), s.procs) && FencedInv(cfg, s) && Enabled(s, Act(p, c)) && Fenced(cfg, s, Act(p, c))
    requires s.procs[p].Sweeping? || s.procs[p].Resetting?
    ensures var s' := Next(cfg, s, Act(p, c)); p in s'.procs && SweepOk(cfg, s', s'.procs[p])
  {
    hide Resume, SweepAdvances, Changes, ProcOk, SweepListOk, FencedInv, Fenced;
    ActFrames(cfg, s, p, c);
    SweeperAdvances(cfg, Set(s, p, Gone), p, s.procs[p], c);
    SweeperKeepsItsList(cfg, s, p, c, Next(cfg, s, Act(p, c)), Next(cfg, s, Act(p, c)).procs[p]);
  }

  lemma ActKeepsSweeps(cfg: Config, s: State, p: ProcId, c: Choice)
    requires Enabled(s, Act(p, c)) && Fenced(cfg, s, Act(p, c))
    requires ProcInv(ViewOf(s), s.procs) && FencedInv(cfg, s)
    requires var s' := Next(cfg, s, Act(p, c)); ProcInv(ViewOf(s'), s'.procs)
    ensures SweepsOk(cfg, Next(cfg, s, Act(p, c)))
  {
    hide Next, Changes, ProcInv, SweepListOk, WorkersOk, Fenced;
    var s' := Next(cfg, s, Act(p, c));
    ActFrames(cfg, s, p, c);
    SweepersAreSweepers(s, p);
    forall q | q in s'.procs ensures SweepOk(cfg, s', s'.procs[q]) {
      SweepersAreSweepers(s', q);
      if q != p && !q.Task? {
        assert q in Set(s, p, Gone).procs;
        OthersKeepTheirList(cfg, s, p, c, q, s');
      } else if q == p && (s.procs[p].Sweeping? || s.procs[p].Resetting?) {
        SweeperStep(cfg, s, p, c);
      } else if q == p {
        NewSweepsNeedASnapshot(cfg, s, p, c);
      }
    }
    forall q, r | q in s'.procs && r in s'.procs && q.Sweeper? && r.Sweeper?
      ensures s'.procs[q] == Gone || s'.procs[r] == Gone || q == r
    {
      assert q == p || q in Set(s, p, Gone).procs;
      assert r == p || r in Set(s, p, Gone).procs;
    }
  }

  lemma NewSweepsNeedASnapshot(cfg: Config, s: State, p: ProcId, c: Choice)
    requires Enabled(s, Act(p, c)) && !s.procs[p].Sweeping? && !s.procs[p].Resetting?
    ensures var s' := Next(cfg, s, Act(p, c));
            p in s'.procs && !s'.procs[p].Sweeping? && !s'.procs[p].Resetting?
  {
    hide CalculateBackoff, RecordFailureTx, FinalizeTx, AssignTx, UpdateStatusTx;
  }

  lemma ActKeepsFenced(cfg: Config, s: State, p: ProcId, c: Choice)
    requires Enabled(s, Act(p, c)) && Fenced(cfg, s, Act(p, c))
    requires Inv(cfg, s) && Inv(cfg, Next(cfg, s, Act(p, c))) && FencedInv(cfg, s)
    ensures FencedInv(cfg, Next(cfg, s, Act(p, c)))
  {
    hide Resume, Changes, ProcInv, SweepOk, StoreInv, QueueInv, HandoffInv, ReportsOk, HolderOk;
    FactsOf(cfg, s);
    ActFrames(cfg, s, p, c);
    ActKeepsWorkers(cfg, s, p, c);
    ActKeepsSweeps(cfg, s, p, c);
  }

  lemma OthersKeepTheirList(cfg: Config, s: State, p: ProcId, c: Choice, q: ProcId, s': State)
    requires ProcInv(ViewOf(s), s.procs) && FencedInv(cfg, s) && Active(s, p) && OthersStay(Set(s, p, Gone), s', p)
    requires s'.db.rows.Keys == s.db.rows.Keys && s'.hist.acted == s.hist.acted[p := s.hist.clock]
    requires s.hist.clock <= s'.hist.clock
    requires forall e | e in s.db.rows && s'.db.rows[e] != s.db.rows[e] :: Changes(s.procs[p], s.db.rows[e], e)
    requires q != p && q in s.procs
    ensures SweepOk(cfg, s', s.procs[q])
  {
    hide SweepListOk, WorkersOk, ProcInv, Changes;
    var pc := s.procs[q];
    assert SweepOk(cfg, s, pc);
    SweepersAreSweepers(s, p);
    SweepersAreSweepers(s, q);
    if (pc.Sweeping? || pc.Resetting?) && pc.status.Processing? {
      ActKeepsSweepList(cfg, s, p, c, pc.todo, pc.dead, pc.since, s');
    }
  }

  // ---- Moves that start or stop a process ----

  /** Processes start and stop and rows are added; rows, ids and departures of the past stand. */
  ghost predicate PastStands(cfg: Config, s: State, s': State) {
    && (forall e | e in s.db.rows :: e in s'.db.rows && s'.db.rows[e] == s.db.rows[e])
    && s'.hist.acted == s.hist.acted && s.hist.clock <= s'.hist.clock
    && (forall q | q in s.procs :: q in s'.procs && (q.Worker? && s.procs[q] == Gone ==> s'.procs[q] == Gone))
    && (forall q | q in s'.procs && q.Worker? && q !in s.procs :: OwnerOf(cfg, q.name).Some? && s'.procs[q].Polling?)
    && (forall q, r, u | q in s'.procs && q !in s.procs && r in s'.procs && r != q && Owns(cfg, r, u) ::
          !Owns(cfg, q, u))
  }

  lemma PastKeepsSweepList(cfg: Config, s: State, s': State, todo: seq<Stale>, dead: map<Uuid, bool>, since: nat)
    requires PastStands(cfg, s, s') && SweepListOk(cfg, s, todo, dead, since)
    ensures SweepListOk(cfg, s', todo, dead, since)
  {
    forall i | 0 <= i < |todo| ensures StillOwned(cfg, s', todo[i], since) {
      assert StillOwned(cfg, s, todo[i], since);
      assert forall u :: Unmoved(cfg, s', u, since) ==> Unmoved(cfg, s, u, since);
    }
    forall u | u in dead && dead[u] ensures Departed(cfg, s', u, since) {
      assert Departed(cfg, s, u, since);
      var q :| q in s.procs && Owns(cfg, q, u);
      assert q in s'.procs;
    }
  }

  lemma OtherMovesLeaveThePast(cfg: Config, s: State, m: Move)
    requires FencedInv(cfg, s) && Enabled(s, m) && Fenced(cfg, s, m) && !m.Act?
    ensures PastStands(cfg, s, Next(cfg, s, m))
  {
    hide SweepsOk, HolderOk, IsSnapshot;
  }

  lemma OtherMovesKeepFenced(cfg: Config, s: State, m: Move)
    requires FencedInv(cfg, s) && Enabled(s, m) && Fenced(cfg, s, m) && !m.Act?
    ensures FencedInv(cfg, Next(cfg, s, m))
  {
    hide SweepListOk, PastStands, HolderOk;
    var s' := Next(cfg, s, m);
    OtherMovesLeaveThePast(cfg, s, m);
    OtherMovesKeepWorkers(cfg, s, m);
    forall q | q in s'.procs ensures SweepOk(cfg, s', s'.procs[q]) {
      var pc := s'.procs[q];
      if q in s.procs && pc == s.procs[q] {
        assert SweepOk(cfg, s, pc);
        if (pc.Sweeping? || pc.Resetting?) && pc.status.Processing? {
          PastKeepsSweepList(cfg, s, s', pc.todo, pc.dead, pc.since);
        }
      } else if m.Snapshot? {
        FreshListOk(cfg, s, s', m.status, m.cutoff, m.todo);
      }
    }
  }

  lemma FreshListOk(cfg: Config, s: State, s': State, status: Status, cutoff: nat, todo: seq<Stale>)
    requires IsSnapshot(s.db, status, cutoff, todo) && s'.db == s.db && s.hist.clock <= s'.hist.clock
    ensures status.Processing? ==> SweepListOk(cfg, s', todo, map[], s.hist.clock)
  {
  }

  lemma OtherMovesKeepWorkers(cfg: Config, s: State, m: Move)
    requires FencedInv(cfg, s) && Enabled(s, m) && Fenced(cfg, s, m) && !m.Act?
    ensures WorkersOk(cfg, Next(cfg, s, m))
  {
    hide SweepOk, HolderOk;
    OtherMovesLeaveThePast(cfg, s, m);
    var s' := Next(cfg, s, m);
    forall q | q in s'.procs && q.Worker?
      ensures OwnerOf(cfg, q.name).Some? && HolderOk(cfg, s'.db.rows, q, s'.procs[q])
    {
      HolderStands(cfg, s, s', q);
    }
  }

  lemma HolderStands(cfg: Config, s: State, s': State, q: ProcId)
    requires PastStands(cfg, s, s') && WorkersOk(cfg, s) && q in s'.procs && q.Worker?
    requires q in s.procs ==> s'.procs[q] == s.procs[q] || s'.procs[q] == Gone
    ensures OwnerOf(cfg, q.name).Some? && HolderOk(cfg, s'.db.rows, q, s'.procs[q])
  {
    assert q in s.procs ==> HolderOk(cfg, s.db.rows, q, s.procs[q]);
  }

  lemma {:induction false} FencedRunsKeepInv(cfg: Config, moves: seq<Move>)
    requires Legal(cfg, moves) && FencedRun(cfg, moves)
    ensures FencedInv(cfg, After(cfg, moves))
  {
    hide Next, Fenced, Enabled, Inv;
    if moves != [] {
      var before, m := moves[..|moves| - 1], moves[|moves| - 1];
      FencedRunsKeepInv(cfg, before);
      RunsKeepInv(cfg, before);
      RunsKeepInv(cfg, moves);
      if m.Act? {
        ActKeepsFenced(cfg, After(cfg, before), m.actor, m.choice);
      } else {
        OtherMovesKeepFenced(cfg, After(cfg, before), m);
      }
    }
  }
}
