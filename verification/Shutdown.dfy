/**
 A pool inside the delivery protocol: the machine of `Lifecycle`, which knows goroutines, contexts and wait groups,
 runs together with the machine of `Protocol`, which knows events. A worker's reads, claims and records, a retry's
 last write, a boot and a loop's return are steps of both. When the pool has stopped, none of its processes is left.
 */
module Shutdown {
  import opened Events
  import opened EventStore
  import opened Streams
  import opened Backoff
  import opened Protocol
  import opened ProtocolInvariant
  import opened ProtocolSteps
  import opened Exclusive
  import opened Continuations
  import opened Runtime
  import Lifecycle

  /** The pool, the protocol, and which worker started each retry goroutine. */
  datatype Joint = Joint(pool: Lifecycle.PoolState, proto: State, spawned: map<ProcId, nat>)

  /** A step of the pool alone, or a move of the protocol with what it means for the pool. */
  datatype Step = Local(m: Lifecycle.Move) | Shared(n: Move)

  function CounterOf(s: State, p: ProcId): Proc {
    if p in s.procs then s.procs[p] else Gone
  }

  ghost predicate IsIndex(names: seq<string>, p: ProcId, i: nat) {
    i < |names| && p == Worker(names[i])
  }

  ghost predicate IsOurs(names: seq<string>, p: ProcId) {
    exists i :: IsIndex(names, p, i)
  }

  ghost function IndexOf(names: seq<string>, p: ProcId): (i: nat)
    requires IsOurs(names, p)
    ensures IsIndex(names, p, i)
  {
    var i :| IsIndex(names, p, i);
    i
  }

  /** The worker's loop is where its program counter may step. */
  predicate InPhase(loop: Lifecycle.LoopPc, pc: Proc) {
    match loop
    case Probing => pc.Polling?
    case Assigning => pc.Claiming?
    case Rejected => pc.Closing? && pc.verdict.Conflict?
    case Processing =>
      pc.Running? || pc.Finalizing? || pc.Failing? || (pc.Closing? && !pc.verdict.Conflict?)
    case _ => false
  }

  /** The retry goroutine a recorded failure starts. */
  function RetryOf(s: State, job: Job): ProcId {
    Task(job.event, if job.event in s.db.rows then s.db.rows[job.event].attempt + 1 else 0)
  }

  predicate Spawns(s: State, s': State, pc: Proc) {
    pc.Failing? && RetryOf(s, pc.job) !in s.procs && RetryOf(s, pc.job) in s'.procs
  }

  /** What a worker's step from `pc` to `pc'` is for its job loop, if it is the end of the call the loop is in. */
  function LoopFate(pc: Proc, pc': Proc, c: Choice, spawns: bool): Option<Lifecycle.Fate> {
    if pc.Polling? then
      if pc'.Claiming? then Some(Lifecycle.Good)
      else if pc' != Polling(High) then None
      else if pc == Polling(Low) && c.reply.Delivered? then Some(Lifecycle.Void)
      else Some(Lifecycle.Bad)
    else if pc.Claiming? then Some(if pc'.Running? then Lifecycle.Good else Lifecycle.Bad)
    else if pc.Closing? && pc.verdict.Conflict? then None
    else if pc' != Polling(High) then None
    else Some(if spawns then Lifecycle.Bad else Lifecycle.Good)
  }

  /** What a move of the protocol is for the pool. */
  ghost function Meaning(cfg: Config, names: seq<string>, j: Joint, m: Move): Option<Lifecycle.Move>
    requires Enabled(j.proto, m)
  {
    var s, s' := j.proto, Next(cfg, j.proto, m);
    match m
    case Boot(name) => if IsOurs(names, Worker(name)) then Some(Lifecycle.BootNext) else None
    case Halt(p) =>
      if IsOurs(names, p) then Some(Lifecycle.Of(IndexOf(names, p), Lifecycle.Loop(Lifecycle.Bad))) else None
    case Act(p, c) =>
      if IsOurs(names, p) then
        var fate := LoopFate(s.procs[p], CounterOf(s', p), c, Spawns(s, s', s.procs[p]));
        if fate.Some? then Some(Lifecycle.Of(IndexOf(names, p), Lifecycle.Loop(fate.value))) else None
      else if p in j.spawned && CounterOf(s', p) == Gone then Some(Lifecycle.Of(j.spawned[p], Lifecycle.Retried))
      else None
    case _ => None
  }

  /** The steps of a loop that touch nothing but the worker itself. */
  predicate IsLocal(w: Lifecycle.WorkerState, fate: Lifecycle.Fate, pc: Proc)
    requires Lifecycle.LoopLives(w)
  {
    match w.loop
    case Probing => false
    case Assigning => false
    case Processing => false
    case Rejected => pc == Polling(High)
    case _ => !Lifecycle.LoopStep(w, fate).loop.Exited?
  }

  ghost predicate CanStep(names: seq<string>, j: Joint, step: Step) {
    match step
    case Local(m) =>
      && Lifecycle.Enabled(j.pool, m)
      && (m.BootNext? ==> j.pool.starter == |j.pool.workers|)
      && (m.Of? ==> !m.step.Retried?)
      && (m.Of? && m.step.Loop? ==>
            && m.worker < |names|
            && IsLocal(j.pool.workers[m.worker], m.step.fate, CounterOf(j.proto, Worker(names[m.worker]))))
    case Shared(m) =>
      && Enabled(j.proto, m)
      && match m
         case Boot(name) =>
           IsOurs(names, Worker(name)) ==>
             0 <= j.pool.starter < |j.pool.workers| && IsIndex(names, Worker(name), j.pool.starter)
         case Halt(p) =>
           && p !in j.spawned
           && (IsOurs(names, p) ==>
                 && IndexOf(names, p) < |j.pool.workers|
                 && var w := j.pool.workers[IndexOf(names, p)];
                    Lifecycle.LoopLives(w) && Lifecycle.LoopStep(w, Lifecycle.Bad).loop.Exited?)
         case Act(p, _) =>
           IsOurs(names, p) ==>
             IndexOf(names, p) < |j.pool.workers| && InPhase(j.pool.workers[IndexOf(names, p)].loop, j.proto.procs[p])
         case _ => true
  }

  ghost function DoStep(cfg: Config, names: seq<string>, j: Joint, step: Step): Joint
    requires CanStep(names, j, step)
  {
    match step
    case Local(m) => j.(pool := Lifecycle.Next(j.pool, m))
    case Shared(m) =>
      var s, s' := j.proto, Next(cfg, j.proto, m);
      var meaning := Meaning(cfg, names, j, m);
      Joint(
        if meaning.Some? && Lifecycle.Enabled(j.pool, meaning.value) then Lifecycle.Next(j.pool, meaning.value)
        else j.pool,
        s',
        if m.Act? && IsOurs(names, m.actor) && Spawns(s, s', s.procs[m.actor]) then
          j.spawned[RetryOf(s, s.procs[m.actor].job) := IndexOf(names, m.actor)]
        else j.spawned)
  }

  ghost function Outset(names: seq<string>): Joint {
    Joint(Lifecycle.Fresh(|names|), START, map[])
  }

  ghost predicate IsRun(cfg: Config, names: seq<string>, steps: seq<Step>)
    decreases |steps|, 0
  {
    steps == [] ||
    var before := steps[..|steps| - 1];
    IsRun(cfg, names, before) && CanStep(names, EndOf(cfg, names, before), steps[|steps| - 1])
  }

  ghost function EndOf(cfg: Config, names: seq<string>, steps: seq<Step>): Joint
    requires IsRun(cfg, names, steps)
    decreases |steps|, 1
  {
    if steps == [] then Outset(names)
    else DoStep(cfg, names, EndOf(cfg, names, steps[..|steps| - 1]), steps[|steps| - 1])
  }

  // ---- What ties the two ----

  predicate WorkerTied(loop: Lifecycle.LoopPc, pc: Proc) {
    match loop
    case NotRun => pc == Gone
    case Exited => pc == Gone
    case Probing => pc.Polling?
    case Took => pc.Claiming?
    case Assigning => pc.Claiming?
    case Rejected => pc == Polling(High) || (pc.Closing? && pc.verdict.Conflict?)
    case Processing => InPhase(loop, pc)
    case _ => pc == Polling(High)
  }

  ghost function Retries(j: Joint, i: nat): set<ProcId> {
    set t | t in j.spawned && j.spawned[t] == i && CounterOf(j.proto, t) != Gone
  }

  ghost predicate MemberTied(names: seq<string>, j: Joint, i: nat)
    requires i < |names| == |j.pool.workers|
  {
    && WorkerTied(j.pool.workers[i].loop, CounterOf(j.proto, Worker(names[i])))
    && j.pool.workers[i].retries == |Retries(j, i)|
  }

  ghost predicate Tied(names: seq<string>, j: Joint) {
    && |j.pool.workers| == |names|
    && (forall i | 0 <= i < |names| :: MemberTied(names, j, i))
    && (forall t | t in j.spawned :: t.Task? && t in j.proto.procs && j.spawned[t] < |names|)
  }

  ghost predicate JointInv(cfg: Config, names: seq<string>, j: Joint) {
    Lifecycle.PoolOk(j.pool) && Inv(cfg, j.proto) && Tied(names, j)
  }

  predicate Distinct(names: seq<string>) {
    forall i, k | 0 <= i < k < |names| :: names[i] != names[k]
  }

  // ---- Steps of the pool alone ----

  lemma LocalStepStaysTied(w: Lifecycle.WorkerState, step: Lifecycle.Step, pc: Proc)
    requires Lifecycle.CanStep(w, step) && !step.Retried? && (step.Loop? ==> IsLocal(w, step.fate, pc))
    requires WorkerTied(w.loop, pc)
    ensures var w' := Lifecycle.DoStep(w, step); WorkerTied(w'.loop, pc) && w'.retries == w.retries
  {
  }

  /** Of a worker's state, moves other than its own steps and its boot leave the loop and the retries alone. */
  lemma PoolMovesLeaveLoops(p: Lifecycle.PoolState, m: Lifecycle.Move, i: nat)
    requires Lifecycle.Enabled(p, m) && i < |p.workers| && !(m.Of? && m.worker == i)
    requires !(m.BootNext? && p.starter == i)
    ensures var p' := Lifecycle.Next(p, m);
            |p'.workers| == |p.workers| && p'.workers[i].loop == p.workers[i].loop
            && p'.workers[i].retries == p.workers[i].retries
  {
    hide Lifecycle.DoStep, Lifecycle.CanStep;
  }

  lemma LocalKeepsTied(cfg: Config, names: seq<string>, j: Joint, m: Lifecycle.Move)
    requires Tied(names, j) && CanStep(names, j, Local(m))
    ensures Tied(names, DoStep(cfg, names, j, Local(m)))
  {
    hide Lifecycle.DoStep, Lifecycle.CanStep, WorkerTied, IsLocal;
    var j' := DoStep(cfg, names, j, Local(m));
    assert |j'.pool.workers| == |j.pool.workers|;
    forall i | 0 <= i < |names| ensures MemberTied(names, j', i) {
      assert MemberTied(names, j, i) && Retries(j', i) == Retries(j, i);
      if m.Of? && m.worker == i {
        LocalStepStaysTied(j.pool.workers[i], m.step, CounterOf(j.proto, Worker(names[i])));
      } else {
        PoolMovesLeaveLoops(j.pool, m, i);
      }
    }
  }

  // ---- Moves of the protocol ----

  /** A move leaves the program counters of all others alone, but for the retry goroutine it may start. */
  lemma OthersStand(cfg: Config, s: State, m: Move, p: ProcId)
    requires Inv(cfg, s) && Enabled(s, m) && !Concerns(m, p) && (p in s.procs || !p.Task?)
    ensures var s' := Next(cfg, s, m);
            CounterOf(s', p) == CounterOf(s, p) && (p in s.procs ==> p in s'.procs)
  {
    hide Resume, Inv, IsSnapshot;
    if m.Act? {
      OnlyTheActorMoves(cfg, Set(s, m.actor, Gone), m.actor, s.procs[m.actor], m.choice);
      if p in s.procs {
        ActLeavesOthers(cfg, s, m.actor, m.choice, p);
      } else {
        assert p !in Set(s, m.actor, Gone).procs;
      }
    }
  }

  lemma Untouched(names: seq<string>, j: Joint, j': Joint, i: nat)
    requires i < |names| == |j.pool.workers| == |j'.pool.workers| && MemberTied(names, j, i)
    requires j'.pool.workers[i].loop == j.pool.workers[i].loop
    requires j'.pool.workers[i].retries == j.pool.workers[i].retries
    requires CounterOf(j'.proto, Worker(names[i])) == CounterOf(j.proto, Worker(names[i]))
    requires Retries(j', i) == Retries(j, i)
    ensures MemberTied(names, j', i)
  {
  }

  /** A process that is neither a worker of the pool nor one of its retries changes nothing for the pool. */
  predicate Elsewhere(m: Move, names: seq<string>, spawned: map<ProcId, nat>) {
    && (forall i | 0 <= i < |names| :: !Concerns(m, Worker(names[i])))
    && (forall t | t in spawned :: !Concerns(m, t))
  }

  lemma ElsewhereKeepsTied(cfg: Config, names: seq<string>, j: Joint, m: Move)
    requires JointInv(cfg, names, j) && CanStep(names, j, Shared(m)) && Elsewhere(m, names, j.spawned)
    ensures DoStep(cfg, names, j, Shared(m)).pool == j.pool && DoStep(cfg, names, j, Shared(m)).spawned == j.spawned
    ensures Tied(names, DoStep(cfg, names, j, Shared(m)))
  {
    hide Next, Inv, Enabled, Lifecycle.PoolOk, WorkerTied, Spawns;
    var j' := DoStep(cfg, names, j, Shared(m));
    NotOurs(names, j, m);
    assert j'.pool == j.pool && j'.spawned == j.spawned;
    forall t | t in j.spawned ensures CounterOf(j'.proto, t) == CounterOf(j.proto, t) && t in j'.proto.procs {
      OthersStand(cfg, j.proto, m, t);
    }
    forall i | 0 <= i < |names| ensures MemberTied(names, j', i) {
      OthersStand(cfg, j.proto, m, Worker(names[i]));
      assert MemberTied(names, j, i) && Retries(j', i) == Retries(j, i);
      Untouched(names, j, j', i);
    }
  }

  lemma NotOurs(names: seq<string>, j: Joint, m: Move)
    requires Elsewhere(m, names, j.spawned)
    ensures m.Boot? ==> !IsOurs(names, Worker(m.name))
    ensures m.Halt? ==> !IsOurs(names, m.proc)
    ensures m.Act? ==> !IsOurs(names, m.actor) && m.actor !in j.spawned
  {
    forall p | IsOurs(names, p) ensures exists i :: 0 <= i < |names| && p == Worker(names[i]) {
      var i :| IsIndex(names, p, i);
    }
  }

  /** A move that concerns one worker of the pool leaves the others and all retries tied. */
  lemma OthersStayTied(cfg: Config, names: seq<string>, j: Joint, m: Move, i: nat, k: nat, j': Joint)
    requires JointInv(cfg, names, j) && Enabled(j.proto, m) && Distinct(names) && i < |names| && k < |names| && k != i
    requires forall p | Concerns(m, p) :: p == Worker(names[i])
    requires j'.proto == Next(cfg, j.proto, m) && j'.spawned == j.spawned
    requires |j'.pool.workers| == |names| && j'.pool.workers[k] == j.pool.workers[k]
    ensures MemberTied(names, j', k)
  {
    hide Next, Inv, Enabled, Lifecycle.PoolOk, WorkerTied;
    RetriesStand(cfg, names, j, m, i, k, j');
    OthersStand(cfg, j.proto, m, Worker(names[k])) by {
      assert names[i] != names[k];
    }
    assert MemberTied(names, j, k);
    Untouched(names, j, j', k);
  }

  lemma RetriesStand(cfg: Config, names: seq<string>, j: Joint, m: Move, i: nat, k: nat, j': Joint)
    requires JointInv(cfg, names, j) && Enabled(j.proto, m) && i < |names|
    requires forall p | Concerns(m, p) :: p == Worker(names[i])
    requires j'.proto == Next(cfg, j.proto, m) && j'.spawned == j.spawned
    ensures Retries(j', k) == Retries(j, k) && forall t | t in j.spawned :: t in j'.proto.procs
  {
    hide Next, Inv, Enabled, Lifecycle.PoolOk, WorkerTied, MemberTied;
    forall t | t in j.spawned ensures CounterOf(j'.proto, t) == CounterOf(j.proto, t) && t in j'.proto.procs {
      OthersStand(cfg, j.proto, m, t);
    }
  }

  lemma BootKeepsTied(cfg: Config, names: seq<string>, j: Joint, name: string)
    requires JointInv(cfg, names, j) && Distinct(names) && CanStep(names, j, Shared(Boot(name)))
    requires IsOurs(names, Worker(name))
    ensures Tied(names, DoStep(cfg, names, j, Shared(Boot(name))))
  {
    hide Inv, Lifecycle.WorkerOk, WorkerTied;
    var j', i := DoStep(cfg, names, j, Shared(Boot(name))), j.pool.starter;
    assert IsIndex(names, Worker(name), i) && Lifecycle.MemberOk(j.pool, i);
    BootFindsStopped(j.pool, i);
    assert j'.proto.procs == j.proto.procs[Worker(name) := Polling(High)];
    forall k | 0 <= k < |names| ensures MemberTied(names, j', k) {
      assert MemberTied(names, j, k);
      if k == i {
        RetriesStand(cfg, names, j, Boot(name), i, i, j');
        TiedAtTop(Lifecycle.Top);
      } else {
        OthersStayTied(cfg, names, j, Boot(name), i, k, j');
      }
    }
    RetriesStand(cfg, names, j, Boot(name), i, i, j');
  }

  lemma TiedAtTop(loop: Lifecycle.LoopPc)
    requires loop.Top?
    ensures WorkerTied(loop, Polling(High))
  {
  }

  lemma BootFindsStopped(p: Lifecycle.PoolState, i: nat)
    requires i < |p.workers| && Lifecycle.MemberOk(p, i) && p.starter == i && p.started
    ensures p.workers[i].status.Stopped?
  {
  }

  lemma HaltKeepsTied(cfg: Config, names: seq<string>, j: Joint, p: ProcId)
    requires JointInv(cfg, names, j) && Distinct(names) && CanStep(names, j, Shared(Halt(p))) && IsOurs(names, p)
    ensures Tied(names, DoStep(cfg, names, j, Shared(Halt(p))))
  {
    hide Inv, Lifecycle.WorkerOk, WorkerTied, Lifecycle.LoopStep;
    var j', i := DoStep(cfg, names, j, Shared(Halt(p))), IndexOf(names, p);
    var w := j.pool.workers[i];
    ReturnEndsTheLoop(w);
    assert j'.proto.procs == j.proto.procs[p := Gone];
    assert j'.pool.workers == j.pool.workers[i := Lifecycle.LoopStep(w, Lifecycle.Bad)];
    forall k | 0 <= k < |names| ensures MemberTied(names, j', k) {
      assert MemberTied(names, j, k);
      if k == i {
        RetriesStand(cfg, names, j, Halt(p), i, i, j');
      } else {
        OthersStayTied(cfg, names, j, Halt(p), i, k, j');
      }
    }
    RetriesStand(cfg, names, j, Halt(p), i, i, j');
  }

  lemma ReturnEndsTheLoop(w: Lifecycle.WorkerState)
    requires Lifecycle.LoopLives(w) && Lifecycle.LoopStep(w, Lifecycle.Bad).loop.Exited?
    ensures Lifecycle.LoopStep(w, Lifecycle.Bad).retries == w.retries
    ensures WorkerTied(Lifecycle.LoopStep(w, Lifecycle.Bad).loop, Gone)
  {
  }

  // ---- A worker's own steps ----

  predicate IsVerdict(pc: Proc, conflict: bool) {
    pc.Closing? && (pc.verdict.Conflict? <==> conflict)
  }

  /** Where a worker's program counter can go next. */
  predicate MayFollow(pc: Proc, pc': Proc, spawns: bool) {
    && (spawns ==> pc.Failing? && pc' == Polling(High))
    && match pc
       case Polling(_) => pc'.Claiming? || pc'.Polling?
       case Claiming(_) => pc'.Running? || pc' == Polling(High) || IsVerdict(pc', true)
       case Running(_) => pc'.Finalizing? || pc'.Failing?
       case Finalizing(_) => pc' == Polling(High) || IsVerdict(pc', false)
       case Failing(_) => pc' == Polling(High) || IsVerdict(pc', false)
       case Closing(_, v, _) => pc' == Polling(High) || IsVerdict(pc', v.Conflict?)
       case _ => false
  }

  lemma ReadFollows(cfg: Config, s: State, p: ProcId, c: Choice)
    requires Enabled(s, Act(p, c)) && p.Worker?
    requires s.procs[p].Polling? || s.procs[p].Claiming? || s.procs[p].Running?
    ensures var s' := Next(cfg, s, Act(p, c)); p in s'.procs && MayFollow(s.procs[p], s'.procs[p], false)
  {
    hide AssignTx, NextFrom;
  }

  lemma FinishFollows(cfg: Config, s: State, p: ProcId, c: Choice)
    requires Enabled(s, Act(p, c)) && p.Worker? && (s.procs[p].Finalizing? || s.procs[p].Closing?)
    ensures var s' := Next(cfg, s, Act(p, c)); p in s'.procs && MayFollow(s.procs[p], s'.procs[p], false)
  {
    hide FinalizeTx;
  }

  lemma FailureFollows(cfg: Config, s: State, p: ProcId, c: Choice)
    requires Enabled(s, Act(p, c)) && p.Worker? && s.procs[p].Failing?
    ensures var s', t := Next(cfg, s, Act(p, c)), RetryOf(s, s.procs[p].job);
            && p in s'.procs && MayFollow(s.procs[p], s'.procs[p], Spawns(s, s', s.procs[p]))
            && (Spawns(s, s', s.procs[p]) ==> CounterOf(s', t).Waiting?)
  {
    var s1 := Set(s, p, Gone);
    FailureGoesOn(cfg, s1, p, s.procs[p].job, c);
    hide ActFailing;
  }

  lemma FailureGoesOn(cfg: Config, s: State, p: ProcId, job: Job, c: Choice)
    requires p.Worker?
    ensures var s', t := ActFailing(cfg, s, p, job, c), RetryOf(s, job);
            && p in s'.procs && (s'.procs[p] == Polling(High) || IsVerdict(s'.procs[p], false))
            && (t in s'.procs && t !in s.procs ==> s'.procs[p] == Polling(High) && s'.procs[t].Waiting?)
  {
    hide CalculateBackoff;
  }

  lemma WorkerFollows(cfg: Config, s: State, p: ProcId, c: Choice)
    requires Enabled(s, Act(p, c)) && p.Worker? && IsWorkerCounter(s.procs[p])
    ensures var s', pc := Next(cfg, s, Act(p, c)), s.procs[p];
            && p in s'.procs && MayFollow(pc, s'.procs[p], Spawns(s, s', pc))
            && (Spawns(s, s', pc) ==> CounterOf(s', RetryOf(s, pc.job)).Waiting?)
  {
    hide Next, MayFollow;
    match s.procs[p] {
      case Polling(_) => ReadFollows(cfg, s, p, c);
      case Claiming(_) => ReadFollows(cfg, s, p, c);
      case Running(_) => ReadFollows(cfg, s, p, c);
      case Finalizing(_) => FinishFollows(cfg, s, p, c);
      case Closing(_, _, _) => FinishFollows(cfg, s, p, c);
      case Failing(_) => FailureFollows(cfg, s, p, c);
    }
  }

  /** The loop's part of a worker's step keeps it tied, and counts the retry the step started. */
  lemma LoopFollows(w: Lifecycle.WorkerState, pc: Proc, pc': Proc, c: Choice, spawns: bool)
    requires InPhase(w.loop, pc) && MayFollow(pc, pc', spawns)
    ensures Lifecycle.LoopLives(w)
    ensures var fate := LoopFate(pc, pc', c, spawns);
            if fate.None? then WorkerTied(w.loop, pc') && !spawns
            else var w' := Lifecycle.LoopStep(w, fate.value);
                 WorkerTied(w'.loop, pc') && w'.retries == w.retries + One(spawns)
  {
  }

  lemma PhaseOfWorker(loop: Lifecycle.LoopPc, pc: Proc)
    requires InPhase(loop, pc)
    ensures IsWorkerCounter(pc)
  {
  }

  /** A retry that starts counts for the worker that started it, and for no other. */
  lemma RetryStarts(j: Joint, t: ProcId, i: nat, k: nat)
    requires t !in j.spawned && CounterOf(j.proto, t) != Gone
    ensures var j' := j.(spawned := j.spawned[t := i]);
            |Retries(j', k)| == |Retries(j, k)| + One(k == i)
  {
    var j' := j.(spawned := j.spawned[t := i]);
    if k == i {
      assert Retries(j', k) == Retries(j, k) + {t};
    } else {
      assert Retries(j', k) == Retries(j, k);
    }
  }

  /** The pool after the loop's part of a step. */
  lemma LoopMoves(p: Lifecycle.PoolState, i: nat, fate: Lifecycle.Fate)
    requires i < |p.workers| && Lifecycle.LoopLives(p.workers[i])
    ensures var m := Lifecycle.Of(i, Lifecycle.Loop(fate));
            && Lifecycle.Enabled(p, m)
            && Lifecycle.Next(p, m) == p.(workers := p.workers[i := Lifecycle.LoopStep(p.workers[i], fate)])
  {
    hide Lifecycle.LoopStep;
  }

  lemma ActKeepsTied(cfg: Config, names: seq<string>, j: Joint, p: ProcId, c: Choice)
    requires JointInv(cfg, names, j) && Distinct(names) && CanStep(names, j, Shared(Act(p, c))) && IsOurs(names, p)
    ensures Tied(names, DoStep(cfg, names, j, Shared(Act(p, c))))
  {
    hide Next, Inv, Lifecycle.PoolOk, Lifecycle.Next, Lifecycle.LoopStep, WorkerTied, MayFollow, InPhase, LoopFate,
      Spawns;
    var m := Act(p, c);
    var j', i, s, s' := DoStep(cfg, names, j, Shared(m)), IndexOf(names, p), j.proto, Next(cfg, j.proto, m);
    var w, pc := j.pool.workers[i], s.procs[p];
    var spawns := Spawns(s, s', pc);
    PhaseOfWorker(w.loop, pc);
    WorkerFollows(cfg, s, p, c);
    LoopFollows(w, pc, s'.procs[p], c, spawns);
    var fate := LoopFate(pc, s'.procs[p], c, spawns);
    if fate.Some? {
      LoopMoves(j.pool, i, fate.value);
    }
    var w' := if fate.Some? then Lifecycle.LoopStep(w, fate.value) else w;
    assert j'.pool.workers == j.pool.workers[i := w'];
    var j1 := j'.(spawned := j.spawned);
    RetriesStand(cfg, names, j, m, i, i, j1);
    forall k | 0 <= k < |names| ensures MemberTied(names, j', k) {
      if k == i {
        assert MemberTied(names, j, i);
      } else {
        OthersStayTied(cfg, names, j, m, i, k, j1);
      }
      if spawns {
        RetryIsNew(cfg, names, j, p, c);
        RetryStarts(j1, RetryOf(s, pc.job), i, k);
      }
    }
    if spawns {
      RetryIsNew(cfg, names, j, p, c);
    }
  }

  lemma RetryIsNew(cfg: Config, names: seq<string>, j: Joint, p: ProcId, c: Choice)
    requires Tied(names, j) && Enabled(j.proto, Act(p, c))
    requires Spawns(j.proto, Next(cfg, j.proto, Act(p, c)), j.proto.procs[p])
    ensures j.proto.procs[p].Failing?
    ensures var t := RetryOf(j.proto, j.proto.procs[p].job);
            t !in j.spawned && t.Task? && t in Next(cfg, j.proto, Act(p, c)).procs
  {
    hide Next, MemberTied;
  }

  // ---- A retry's own steps ----

  lemma RetryEnds(j: Joint, j': Joint, t: ProcId, k: nat)
    requires t in j.spawned && CounterOf(j.proto, t) != Gone && j'.spawned == j.spawned
    requires forall x | x in j.spawned && x != t :: CounterOf(j'.proto, x) == CounterOf(j.proto, x)
    ensures |Retries(j', k)| == |Retries(j, k)| - One(k == j.spawned[t] && CounterOf(j'.proto, t) == Gone)
    ensures k == j.spawned[t] ==> |Retries(j, k)| > 0
  {
    if k == j.spawned[t] {
      assert t in Retries(j, k);
      assert Retries(j', k) == Retries(j, k) - if CounterOf(j'.proto, t) == Gone then {t} else {};
    } else {
      assert Retries(j', k) == Retries(j, k);
    }
  }

  lemma RetriedMoves(p: Lifecycle.PoolState, i: nat)
    requires i < |p.workers| && p.workers[i].retries > 0
    ensures var m, w := Lifecycle.Of(i, Lifecycle.Retried), p.workers[i];
            && Lifecycle.Enabled(p, m)
            && Lifecycle.Next(p, m)
               == p.(workers := p.workers[i := w.(retries := w.retries - 1, counter := w.counter - 1)])
  {
  }

  lemma RetryKeepsTied(cfg: Config, names: seq<string>, j: Joint, t: ProcId, c: Choice)
    requires JointInv(cfg, names, j) && CanStep(names, j, Shared(Act(t, c))) && t in j.spawned
    ensures Tied(names, DoStep(cfg, names, j, Shared(Act(t, c))))
  {
    hide Next, Inv, Lifecycle.PoolOk, Lifecycle.Next, WorkerTied, Retries;
    var m := Act(t, c);
    var j', i := DoStep(cfg, names, j, Shared(m)), j.spawned[t];
    var w := j.pool.workers[i];
    assert MemberTied(names, j, i) && !IsOurs(names, t);
    RetryEnds(j, j, t, i);
    RetriedMoves(j.pool, i);
    assert j'.spawned == j.spawned;
    forall x | x in j.spawned
      ensures x in j'.proto.procs && (x != t ==> CounterOf(j'.proto, x) == CounterOf(j.proto, x))
    {
      if x != t {
        OthersStand(cfg, j.proto, m, x);
      } else {
        ActorStays(cfg, j.proto, t, c);
      }
    }
    forall k | 0 <= k < |names| ensures MemberTied(names, j', k) {
      assert MemberTied(names, j, k);
      OthersStand(cfg, j.proto, m, Worker(names[k]));
      RetryEnds(j, j', t, k);
    }
  }

  lemma ActorStays(cfg: Config, s: State, p: ProcId, c: Choice)
    requires Enabled(s, Act(p, c)) && p.Task? && Inv(cfg, s)
    ensures p in Next(cfg, s, Act(p, c)).procs
  {
    hide Inv;
    FactsOf(cfg, s);
    assert ProcOk(ViewOf(s), p, s.procs[p]);
    TaskStays(cfg, Set(s, p, Gone), p, s.procs[p], c);
  }

  lemma TaskStays(cfg: Config, s: State, p: ProcId, pc: Proc, c: Choice)
    requires p in s.procs && (pc == Gone || pc.Waiting? || pc.Releasing? || pc.Requeuing?)
    ensures p in Resume(cfg, s, p, pc, c).procs
  {
    hide UpdateStatusTx, Handoff;
    if pc.Requeuing? {
      HandoffMovesNobody(s, p, pc.job.event, pc.receipt, UpdateStatusTx(s.db, pc.job.event, Retrying, Queued, c.now));
    }
  }

  // ---- Every run ----

  lemma SharedKeepsTied(cfg: Config, names: seq<string>, j: Joint, m: Move)
    requires JointInv(cfg, names, j) && Distinct(names) && CanStep(names, j, Shared(m))
    ensures Tied(names, DoStep(cfg, names, j, Shared(m)))
  {
    hide Next, Enabled, Inv, Lifecycle.PoolOk, IsOurs;
    if m.Boot? && IsOurs(names, Worker(m.name)) {
      BootKeepsTied(cfg, names, j, m.name);
    } else if m.Halt? && IsOurs(names, m.proc) {
      HaltKeepsTied(cfg, names, j, m.proc);
    } else if m.Act? && IsOurs(names, m.actor) {
      ActKeepsTied(cfg, names, j, m.actor, m.choice);
    } else if m.Act? && m.actor in j.spawned {
      RetryKeepsTied(cfg, names, j, m.actor, m.choice);
    } else {
      IsElsewhere(names, j, m);
      ElsewhereKeepsTied(cfg, names, j, m);
    }
  }

  lemma IsElsewhere(names: seq<string>, j: Joint, m: Move)
    requires Tied(names, j) && CanStep(names, j, Shared(m))
    requires m.Boot? ==> !IsOurs(names, Worker(m.name))
    requires m.Halt? ==> !IsOurs(names, m.proc)
    requires m.Act? ==> !IsOurs(names, m.actor) && m.actor !in j.spawned
    ensures Elsewhere(m, names, j.spawned)
  {
    hide Enabled, MemberTied;
    forall i | 0 <= i < |names| ensures !Concerns(m, Worker(names[i])) {
      assert IsIndex(names, Worker(names[i]), i);
    }
  }

  /** The pool's side of a step is a move of the pool, or nothing. */
  lemma StepKeepsPool(cfg: Config, names: seq<string>, j: Joint, step: Step)
    requires Lifecycle.PoolOk(j.pool) && CanStep(names, j, step)
    ensures var p := DoStep(cfg, names, j, step).pool;
            && Lifecycle.PoolOk(p)
            && (j.pool.joiner.Returned? ==> p.joiner.Returned?)
  {
    hide Next, Enabled, Lifecycle.PoolOk, Lifecycle.Next, Lifecycle.Enabled, Meaning, Spawns;
    match step {
      case Local(m) => Lifecycle.MoveKeepsPool(j.pool, m);
      case Shared(n) =>
        var meaning := Meaning(cfg, names, j, n);
        if meaning.Some? && Lifecycle.Enabled(j.pool, meaning.value) {
          Lifecycle.MoveKeepsPool(j.pool, meaning.value);
        }
    }
  }

  lemma StepKeepsJoint(cfg: Config, names: seq<string>, j: Joint, step: Step)
    requires JointInv(cfg, names, j) && Distinct(names) && CanStep(names, j, step)
    ensures JointInv(cfg, names, DoStep(cfg, names, j, step))
  {
    hide Tied, Lifecycle.PoolOk, Inv, Next, Enabled, Meaning, Spawns, Distinct;
    StepKeepsPool(cfg, names, j, step);
    match step {
      case Local(m) => LocalKeepsTied(cfg, names, j, m);
      case Shared(n) =>
        NextKeeps(cfg, j.proto, n);
        SharedKeepsTied(cfg, names, j, n);
    }
  }

  lemma OutsetIsTied(cfg: Config, names: seq<string>)
    ensures JointInv(cfg, names, Outset(names))
  {
    hide Inv, Lifecycle.PoolOk;
    assert Legal(cfg, []) && After(cfg, []) == START;
    RunsKeepInv(cfg, []);
    assert Lifecycle.Legal(|names|, []) && Lifecycle.After(|names|, []) == Lifecycle.Fresh(|names|);
    Lifecycle.RunsKeepPool(|names|, []);
    forall i | 0 <= i < |names| ensures MemberTied(names, Outset(names), i) {
      assert Retries(Outset(names), i) == {};
    }
  }

  lemma {:induction false} RunsStayTied(cfg: Config, names: seq<string>, steps: seq<Step>)
    requires IsRun(cfg, names, steps) && Distinct(names)
    ensures JointInv(cfg, names, EndOf(cfg, names, steps))
  {
    hide JointInv, CanStep, DoStep, Distinct;
    if steps == [] {
      OutsetIsTied(cfg, names);
    } else {
      RunsStayTied(cfg, names, steps[..|steps| - 1]);
      StepKeepsJoint(cfg, names, EndOf(cfg, names, steps[..|steps| - 1]), steps[|steps| - 1]);
    }
  }

  lemma {:induction false} ReturnedStays(cfg: Config, names: seq<string>, steps: seq<Step>, more: seq<Step>)
    requires IsRun(cfg, names, steps) && IsRun(cfg, names, steps + more) && Distinct(names)
    requires EndOf(cfg, names, steps).pool.joiner.Returned?
    ensures EndOf(cfg, names, steps + more).pool.joiner.Returned?
  {
    hide CanStep, DoStep, Distinct, JointInv;
    if more == [] {
      assert steps + more == steps;
    } else {
      var before := more[..|more| - 1];
      assert (steps + more)[..|steps + more| - 1] == steps + before;
      ReturnedStays(cfg, names, steps, before);
      RunsStayTied(cfg, names, steps + before);
      StepKeepsPool(cfg, names, EndOf(cfg, names, steps + before), more[|more| - 1]) by {
        TiedPoolIsOk(cfg, names, EndOf(cfg, names, steps + before));
      }
    }
  }

  lemma TiedPoolIsOk(cfg: Config, names: seq<string>, j: Joint)
    requires JointInv(cfg, names, j)
    ensures Lifecycle.PoolOk(j.pool)
  {
  }

  lemma StoppedPoolHasNobody(cfg: Config, names: seq<string>, j: Joint)
    requires JointInv(cfg, names, j) && j.pool.joiner.Returned?
    ensures forall i | 0 <= i < |names| :: !Active(j.proto, Worker(names[i]))
    ensures forall t | t in j.spawned :: !Active(j.proto, t)
  {
    hide Inv, Lifecycle.WorkerOk, WorkerTied;
    forall i | 0 <= i < |names| ensures !Active(j.proto, Worker(names[i])) && Retries(j, i) == {} {
      assert MemberTied(names, j, i) && Lifecycle.MemberOk(j.pool, i);
      Lifecycle.FinishedRests(j.pool.workers[i]);
      RestingIsGone(j.pool.workers[i], CounterOf(j.proto, Worker(names[i])));
    }
    forall t | t in j.spawned ensures !Active(j.proto, t) {
      assert t !in Retries(j, j.spawned[t]);
    }
  }

  lemma RestingIsGone(w: Lifecycle.WorkerState, pc: Proc)
    requires Lifecycle.AtRest(w) && WorkerTied(w.loop, pc)
    ensures pc == Gone && w.retries == 0
  {
  }

  /**
   When the `Pool.Stop` that stops a pool has returned, none of the pool's workers and none of the retries they ever
   started is at work on any event, then and in every continuation.
   */
  lemma NothingIsLeftBehind(cfg: Config, names: seq<string>, steps: seq<Step>, more: seq<Step>)
    requires IsRun(cfg, names, steps) && IsRun(cfg, names, steps + more) && Distinct(names)
    requires EndOf(cfg, names, steps).pool.joiner.Returned?
    ensures var j := EndOf(cfg, names, steps + more);
            && (forall i | 0 <= i < |names| :: !Active(j.proto, Worker(names[i])))
            && (forall t | t in j.spawned :: !Active(j.proto, t))
  {
    hide IsRun, EndOf, JointInv, Distinct;
    ReturnedStays(cfg, names, steps, more);
    RunsStayTied(cfg, names, steps + more);
    StoppedPoolHasNobody(cfg, names, EndOf(cfg, names, steps + more));
  }

  /** A worker that holds an event is waited for: its loop is processing, and counted. */
  lemma HoldersAreWaitedFor(cfg: Config, names: seq<string>, steps: seq<Step>, i: nat, e: EventId)
    requires IsRun(cfg, names, steps) && Distinct(names) && i < |names|
    requires Holds(CounterOf(EndOf(cfg, names, steps).proto, Worker(names[i])), e)
    ensures var p := EndOf(cfg, names, steps).pool;
            i < |p.workers| && p.workers[i].loop.Processing? && p.workers[i].counter > 0
  {
    hide IsRun, EndOf, Inv, Distinct;
    RunsStayTied(cfg, names, steps);
    var j := EndOf(cfg, names, steps);
    assert MemberTied(names, j, i) && Lifecycle.MemberOk(j.pool, i);
  }

  /** A step of worker `i`: of one of its goroutines, or a move of its process or of a retry it started. */
  ghost predicate IsStepOf(names: seq<string>, j: Joint, step: Step, i: nat)
    requires i < |names|
  {
    match step
    case Local(m) => m.Of? && m.worker == i
    case Shared(m) => Concerns(m, Worker(names[i])) || exists t :: t in Retries(j, i) && Concerns(m, t)
  }

  /** The tie blocks nothing: a cancelled worker that is being stopped can make a step of the two together. */
  lemma StoppingGoesOn(cfg: Config, names: seq<string>, steps: seq<Step>, i: nat) returns (step: Step)
    requires IsRun(cfg, names, steps) && Distinct(names) && i < |names|
    requires var p := EndOf(cfg, names, steps).pool;
             i < |p.workers| ==>
               p.workers[i].cancelled && !p.workers[i].stopper.Finished? && !p.workers[i].stopper.Idle?
    ensures CanStep(names, EndOf(cfg, names, steps), step) && IsStepOf(names, EndOf(cfg, names, steps), step, i)
  {
    hide IsRun, EndOf, Inv, Distinct, Retries;
    RunsStayTied(cfg, names, steps);
    var j := EndOf(cfg, names, steps);
    assert MemberTied(names, j, i) && Lifecycle.MemberOk(j.pool, i) && IsIndex(names, Worker(names[i]), i);
    var w, pc := j.pool.workers[i], CounterOf(j.proto, Worker(names[i]));
    if Lifecycle.CanStep(w, Lifecycle.Stop) {
      step := Local(Lifecycle.Of(i, Lifecycle.Stop));
    } else if w.heartbeat {
      step := Local(Lifecycle.Of(i, Lifecycle.Beat));
    } else if Lifecycle.LoopLives(w) {
      OursAreDistinct(names, i);
      step := LoopGoesOn(w, pc, i, names[i]);
    } else {
      var t :| t in Retries(j, i);
      RetryCanAct(names, j, i, t);
      step := Shared(Act(t, FAILS));
    }
  }

  lemma OursAreDistinct(names: seq<string>, i: nat)
    requires Distinct(names) && i < |names|
    ensures IsOurs(names, Worker(names[i])) && IndexOf(names, Worker(names[i])) == i
  {
    assert IsIndex(names, Worker(names[i]), i);
  }

  lemma LoopGoesOn(w: Lifecycle.WorkerState, pc: Proc, i: nat, name: string) returns (step: Step)
    requires Lifecycle.LoopLives(w) && w.cancelled && WorkerTied(w.loop, pc)
    ensures match step
            case Local(m) => m == Lifecycle.Of(i, Lifecycle.Loop(Lifecycle.Good)) && IsLocal(w, Lifecycle.Good, pc)
            case Shared(m) =>
              && pc != Gone
              && ((m == Halt(Worker(name)) && Lifecycle.LoopStep(w, Lifecycle.Bad).loop.Exited?)
                  || (m == Act(Worker(name), FAILS) && InPhase(w.loop, pc)))
  {
    match w.loop {
      case Top => step := Shared(Halt(Worker(name)));
      case RoundTop => step := Shared(Halt(Worker(name)));
      case Napping => step := Shared(Halt(Worker(name)));
      case Pausing => step := Shared(Halt(Worker(name)));
      case Probing => step := Shared(Act(Worker(name), FAILS));
      case Assigning => step := Shared(Act(Worker(name), FAILS));
      case Processing => step := Shared(Act(Worker(name), FAILS));
      case Rejected =>
        step := if pc == Polling(High) then Local(Lifecycle.Of(i, Lifecycle.Loop(Lifecycle.Good)))
                else Shared(Act(Worker(name), FAILS));
      case _ => step := Local(Lifecycle.Of(i, Lifecycle.Loop(Lifecycle.Good)));
    }
  }

  lemma RetryCanAct(names: seq<string>, j: Joint, i: nat, t: ProcId)
    requires Tied(names, j) && t in Retries(j, i)
    ensures CanStep(names, j, Shared(Act(t, FAILS)))
  {
  }

  /** Every retry goroutine started by a worker of the pool is known as its own. */
  lemma StartedRetriesAreKnown(cfg: Config, names: seq<string>, steps: seq<Step>, m: Move, t: ProcId)
    requires IsRun(cfg, names, steps) && Distinct(names) && CanStep(names, EndOf(cfg, names, steps), Shared(m))
    requires t.Task? && t !in EndOf(cfg, names, steps).proto.procs
    requires t in Next(cfg, EndOf(cfg, names, steps).proto, m).procs
    ensures m.Act?
    ensures var j := EndOf(cfg, names, steps);
            var j' := DoStep(cfg, names, j, Shared(m));
            IsOurs(names, m.actor) ==> t in j'.spawned && IsIndex(names, m.actor, j'.spawned[t])
  {
    hide IsRun, EndOf, Inv, Distinct, Tied, Lifecycle.PoolOk, Lifecycle.Enabled, Lifecycle.Next, Meaning, InPhase;
    RunsStayTied(cfg, names, steps);
    var j := EndOf(cfg, names, steps);
    WhoStartsARetry(cfg, j.proto, m, t);
  }

  lemma WhoStartsARetry(cfg: Config, s: State, m: Move, t: ProcId)
    requires Enabled(s, m) && t.Task? && t !in s.procs && t in Next(cfg, s, m).procs
    ensures m.Act? && s.procs[m.actor].Failing? && t == RetryOf(s, s.procs[m.actor].job)
  {
    hide IsSnapshot, Resume;
    if m.Act? {
      NewTaskIsRetry(cfg, Set(s, m.actor, Gone), m.actor, s.procs[m.actor], m.choice, t);
    }
  }

  lemma NewTaskIsRetry(cfg: Config, s: State, p: ProcId, pc: Proc, c: Choice, t: ProcId)
    requires t.Task? && t !in s.procs && p in s.procs && s.procs[p] == Gone && t in Resume(cfg, s, p, pc, c).procs
    ensures pc.Failing? && t == RetryOf(s, pc.job)
  {
    if !pc.Failing? {
      OwnCounterAlone(cfg, s, p, pc, c);
    } else {
      hide ActFailing;
    }
  }

  lemma OwnCounterAlone(cfg: Config, s: State, p: ProcId, pc: Proc, c: Choice)
    requires !pc.Failing? && p in s.procs && s.procs[p] == Gone
    ensures Resume(cfg, s, p, pc, c).procs.Keys == s.procs.Keys
  {
    hide UpdateStatusTx, Handoff, ActPolling, ActClaiming, ActFinalizing, ActClosing, ActSweeping, ActResetting;
    match pc
    case Enqueuing(e, r) =>
      HandoffMovesNobody(s, p, e, r, UpdateStatusTx(s.db, e, Received, Queued, c.now));
    case Requeuing(job, r) =>
      HandoffMovesNobody(s, p, job.event, r, UpdateStatusTx(s.db, job.event, Retrying, Queued, c.now));
    case Sweeping(_, _, _, _) =>
      SweeperMovesAlone(cfg, s, p, pc, c);
      SweeperAdvances(cfg, s, p, pc, c);
    case Resetting(_, _, _, _, _) =>
      SweeperMovesAlone(cfg, s, p, pc, c);
      SweeperAdvances(cfg, s, p, pc, c);
    case _ =>
  }
}
