/**
 Starting and stopping a pool. Each worker's goroutines (heartbeat, job loop, delayed retries and the goroutine
 running `Stop`) and the pool's own callers interleave freely, one access to shared state at a time.
 */
module Lifecycle {
  import Events

  datatype Health = Starting | Ready | Busy | Stopping | Stopped

  /** Where the job loop stands; every value but the first and the last is a live goroutine. */
  datatype LoopPc =
    | NotRun
    | Top          // about to look at the context
    | RoundTop     // inside Consume, about to look at the context
    | Probing      // reading the streams
    | Napping      // all streams were empty
    | Pausing      // Consume reported an error
    | Took         // about to set BUSY
    | Assigning    // about to claim the row
    | Rejected     // claim refused: about to set READY
    | Processing   // from the processor call to the recorded outcome
    | Checking     // about to read the status
    | Restoring    // it was not STOPPING: about to set READY
    | Exited

  datatype StopPc = Idle | Check | Mark | Cancel | Wait | Seal | Finished

  datatype WorkerState = WorkerState(
    status: Health,
    cancelled: bool,
    counter: int,
    heartbeat: bool,
    loop: LoopPc,
    retries: nat,
    stopper: StopPc,
    late: nat)       // jobs taken since the context was cancelled; the program never reads it

  function Unstarted(): WorkerState {
    WorkerState(Stopped, false, 0, false, NotRun, 0, Idle, 0)
  }

  predicate LoopLives(w: WorkerState) {
    !w.loop.NotRun? && !w.loop.Exited?
  }

  /** The worker's goroutines the wait group is there to count. */
  function Live(w: WorkerState): nat {
    Events.One(w.heartbeat) + Events.One(LoopLives(w)) + w.retries
  }

  /** Which way an open choice goes: a job, nothing or an error; accepted or refused; failed with a retry or not. */
  datatype Fate = Good | Void | Bad

  datatype Step = Beat | Loop(fate: Fate) | Retried | Stop

  predicate CanStep(w: WorkerState, step: Step) {
    match step
    case Beat => w.heartbeat && w.cancelled
    case Loop(_) => LoopLives(w)
    case Retried => w.retries > 0
    case Stop => !w.stopper.Idle? && !w.stopper.Finished? && (w.stopper.Wait? ==> w.counter == 0)
  }

  /** `Start` is refused unless the worker is STOPPED. The new context is born cancelled if its parent is. */
  function Boot(w: WorkerState, signalled: bool): WorkerState {
    if !w.status.Stopped? then w
    else w.(status := Ready, cancelled := signalled, counter := w.counter + 2, heartbeat := true, loop := Top,
        late := 0)
  }

  function Exit(w: WorkerState): WorkerState {
    w.(loop := Exited, counter := w.counter - 1)
  }

  function LoopStep(w: WorkerState, fate: Fate): WorkerState
    requires LoopLives(w)
  {
    match w.loop
    case Top => if w.cancelled then Exit(w) else w.(loop := RoundTop)
    case RoundTop => if w.cancelled then Exit(w) else w.(loop := Probing)
    case Probing =>
      if fate.Good? then w.(loop := Took, late := w.late + Events.One(w.cancelled))
      else if fate.Void? then w.(loop := Napping)
      else w.(loop := Pausing)
    case Napping => if fate.Bad? && w.cancelled then Exit(w) else w.(loop := RoundTop)
    case Pausing => if fate.Bad? && w.cancelled then Exit(w) else w.(loop := Top)
    case Took => w.(status := Busy, loop := Assigning)
    case Assigning => w.(loop := if fate.Good? then Processing else Rejected)
    case Rejected => w.(status := Ready, loop := Top)
    case Processing =>
      if fate.Bad? then w.(counter := w.counter + 1, retries := w.retries + 1, loop := Checking)
      else w.(loop := Checking)
    case Checking => w.(loop := if w.status.Stopping? then Top else Restoring)
    case Restoring => w.(status := Ready, loop := Top)
  }

  function StopStep(w: WorkerState): WorkerState {
    match w.stopper
    case Check => w.(stopper := if w.status.Stopped? || w.status.Stopping? then Finished else Mark)
    case Mark => w.(status := Stopping, stopper := Cancel)
    case Cancel => w.(cancelled := true, stopper := Wait)
    case Wait => w.(stopper := Seal)
    case Seal => w.(status := Stopped, stopper := Finished)
    case Idle => w
    case Finished => w
  }

  function DoStep(w: WorkerState, step: Step): WorkerState
    requires CanStep(w, step)
  {
    match step
    case Beat => w.(heartbeat := false, counter := w.counter - 1)
    case Loop(fate) => LoopStep(w, fate)
    case Retried => w.(retries := w.retries - 1, counter := w.counter - 1)
    case Stop => StopStep(w)
  }

  // ---- The pool ----

  datatype Joiner = Uncalled | Spawning(next: nat) | Joining | Returned

  /** `starter` is the next worker to boot while `Pool.Start` runs, which holds the pool's lock all along. */
  datatype PoolState = PoolState(
    workers: seq<WorkerState>,
    starter: int,
    started: bool,
    stopped: bool,
    joiner: Joiner,
    signalled: bool)  // the context `Start` was given has been cancelled

  const NO_STARTER: int := -1

  function Fresh(n: nat): PoolState {
    PoolState(seq(n, i => Unstarted()), NO_STARTER, false, false, Uncalled, false)
  }

  datatype Move =
    | CallStart | BootNext | CallStop | SpawnNext | Join
    | Signal                        // the process is told to terminate
    | Inherit(worker: nat)          // ... and that reaches one worker's context
    | Of(worker: nat, step: Step)

  predicate Enabled(p: PoolState, m: Move) {
    match m
    case CallStart => p.starter == NO_STARTER
    case BootNext => 0 <= p.starter <= |p.workers|
    case CallStop => p.starter == NO_STARTER
    case SpawnNext => p.joiner.Spawning? && p.joiner.next <= |p.workers|
    case Join => p.joiner.Joining? && forall i | 0 <= i < |p.workers| :: p.workers[i].stopper.Finished?
    case Signal => true
    case Inherit(i) => p.signalled && i < |p.workers| && !p.workers[i].loop.NotRun?
    case Of(i, step) => i < |p.workers| && CanStep(p.workers[i], step)
  }

  function Next(p: PoolState, m: Move): PoolState
    requires Enabled(p, m)
  {
    match m
    case CallStart => if p.started || p.stopped then p else p.(started := true, starter := 0)
    case BootNext =>
      if p.starter == |p.workers| || !p.workers[p.starter].status.Stopped? then p.(starter := NO_STARTER)
      else p.(workers := p.workers[p.starter := Boot(p.workers[p.starter], p.signalled)], starter := p.starter + 1)
    case CallStop => if !p.started || p.stopped then p else p.(stopped := true, joiner := Spawning(0))
    case SpawnNext =>
      var i := p.joiner.next;
      if i == |p.workers| then p.(joiner := Joining)
      else p.(workers := p.workers[i := p.workers[i].(stopper := Check)], joiner := Spawning(i + 1))
    case Join => p.(joiner := Returned)
    case Signal => p.(signalled := true)
    case Inherit(i) => p.(workers := p.workers[i := p.workers[i].(cancelled := true)])
    case Of(i, step) => p.(workers := p.workers[i := DoStep(p.workers[i], step)])
  }

  predicate Legal(n: nat, moves: seq<Move>)
    decreases |moves|, 0
  {
    moves == [] ||
    var before := moves[..|moves| - 1];
    Legal(n, before) && Enabled(After(n, before), moves[|moves| - 1])
  }

  function After(n: nat, moves: seq<Move>): PoolState
    requires Legal(n, moves)
    decreases |moves|, 1
  {
    if moves == [] then Fresh(n) else Next(After(n, moves[..|moves| - 1]), moves[|moves| - 1])
  }

  // ---- What every run keeps ----

  /** STOPPED, its `Stop` over, and no goroutine of it alive. */
  predicate AtRest(w: WorkerState) {
    w.status.Stopped? && w.stopper.Finished? && w.cancelled && Live(w) == 0 && w.counter == 0
  }

  predicate WorkerOk(w: WorkerState) {
    && w.counter == Live(w)
    && (w.stopper.Wait? || w.stopper.Seal? || w.stopper.Finished? ==> w.cancelled)
    && (w.loop.NotRun? ==> w.stopper.Idle?)
    && w.late <= 1 && (w.late == 1 ==> w.cancelled && !w.loop.Probing?)
    && match w.stopper
       case Idle => if w.loop.NotRun? then w.status.Stopped? && Live(w) == 0 else w.status.Ready? || w.status.Busy?
       case Check => w.status.Ready? || w.status.Busy?
       case Mark => w.status.Ready? || w.status.Busy?
       case Cancel => w.status.Ready? || w.status.Busy? || w.status.Stopping?
       case Wait => w.status.Ready? || w.status.Busy? || w.status.Stopping?
       case Seal => Live(w) == 0
       case Finished => AtRest(w)
  }

  /** Workers are booted in order, all of them before the first is told to stop. */
  predicate PoolOk(p: PoolState) {
    && NO_STARTER <= p.starter <= |p.workers|
    && (p.joiner.Spawning? ==> p.joiner.next <= |p.workers|)
    && (p.starter != NO_STARTER ==> p.started && !p.stopped)
    && (p.joiner.Uncalled? <==> !p.stopped) && (p.stopped ==> p.started)
    && forall i | 0 <= i < |p.workers| :: MemberOk(p, i)
  }

  predicate MemberOk(p: PoolState, i: nat)
    requires i < |p.workers|
  {
    && WorkerOk(p.workers[i])
    && (p.workers[i].loop.NotRun? <==> !p.started || 0 <= p.starter <= i)
    && (p.workers[i].stopper.Idle? <==> p.joiner.Uncalled? || (p.joiner.Spawning? && p.joiner.next <= i))
    && (p.joiner.Returned? ==> p.workers[i].stopper.Finished?)
  }

  lemma LoopKeepsWorker(w: WorkerState, fate: Fate)
    requires WorkerOk(w) && LoopLives(w)
    ensures WorkerOk(LoopStep(w, fate)) && !LoopStep(w, fate).loop.NotRun?
    ensures LoopStep(w, fate).stopper == w.stopper
  {
    match w.stopper {
      case Idle =>
      case Check =>
      case Mark =>
      case Cancel =>
      case Wait =>
      case Seal =>
      case Finished =>
    }
  }

  lemma StopKeepsWorker(w: WorkerState)
    requires WorkerOk(w) && CanStep(w, Stop)
    ensures WorkerOk(StopStep(w)) && !StopStep(w).stopper.Idle? && !StopStep(w).loop.NotRun?
  {
    match w.stopper {
      case Check =>
      case Mark =>
      case Cancel =>
      case Wait =>
      case Seal =>
    }
  }

  lemma EndKeepsWorker(w: WorkerState, step: Step)
    requires WorkerOk(w) && CanStep(w, step) && (step.Beat? || step.Retried?)
    ensures WorkerOk(DoStep(w, step)) && DoStep(w, step).stopper == w.stopper && !DoStep(w, step).loop.NotRun?
  {
    match w.stopper {
      case Idle =>
      case Check =>
      case Mark =>
      case Cancel =>
      case Wait =>
      case Seal =>
      case Finished =>
    }
  }

  lemma StepKeepsWorker(w: WorkerState, step: Step)
    requires WorkerOk(w) && CanStep(w, step)
    ensures WorkerOk(DoStep(w, step)) && !w.loop.NotRun? && !AtRest(w) && !DoStep(w, step).loop.NotRun?
    ensures DoStep(w, step).stopper.Idle? <==> w.stopper.Idle?
  {
    hide WorkerOk;
    match step {
      case Beat =>
        EndKeepsWorker(w, step);
      case Loop(fate) =>
        LoopKeepsWorker(w, fate);
      case Retried =>
        EndKeepsWorker(w, step);
      case Stop =>
        StopKeepsWorker(w);
    }
  }

  lemma BootKeepsWorker(w: WorkerState, signalled: bool)
    requires WorkerOk(w) && w.loop.NotRun?
    ensures var w' := Boot(w, signalled);
            w.status.Stopped? && WorkerOk(w') && !w'.loop.NotRun? && w'.stopper.Idle?
  {
  }

  lemma InheritKeepsWorker(w: WorkerState)
    requires WorkerOk(w)
    ensures WorkerOk(w.(cancelled := true)) && (w.stopper.Finished? ==> w.(cancelled := true) == w)
  {
  }

  lemma CheckKeepsWorker(w: WorkerState)
    requires WorkerOk(w) && w.stopper.Idle? && !w.loop.NotRun?
    ensures WorkerOk(w.(stopper := Check))
  {
  }

  lemma FinishedRests(w: WorkerState)
    requires WorkerOk(w) && w.stopper.Finished?
    ensures AtRest(w) && forall step :: !CanStep(w, step)
  {
  }

  lemma MoveKeepsPool(p: PoolState, m: Move)
    requires PoolOk(p) && Enabled(p, m)
    ensures PoolOk(Next(p, m)) && |Next(p, m).workers| == |p.workers|
    ensures p.joiner.Returned? ==> Next(p, m).workers == p.workers && Next(p, m).joiner.Returned?
  {
    hide WorkerOk, DoStep, CanStep;
    if m.Of? {
      assert MemberOk(p, m.worker);
      StepKeepsWorker(p.workers[m.worker], m.step);
      if p.joiner.Returned? {
        FinishedRests(p.workers[m.worker]);
        assert false;
      }
    }
    if m.Inherit? {
      assert MemberOk(p, m.worker);
      InheritKeepsWorker(p.workers[m.worker]);
    }
    if m.BootNext? && p.starter < |p.workers| {
      assert MemberOk(p, p.starter);
      BootKeepsWorker(p.workers[p.starter], p.signalled);
    }
    if m.SpawnNext? && p.joiner.next < |p.workers| {
      assert MemberOk(p, p.joiner.next);
      CheckKeepsWorker(p.workers[p.joiner.next]);
    }
    forall i | 0 <= i < |p.workers| ensures MemberOk(Next(p, m), i) {
      assert MemberOk(p, i);
    }
  }

  // ---- Every run ----

  lemma {:induction false} RunsKeepPool(n: nat, moves: seq<Move>)
    requires Legal(n, moves)
    ensures PoolOk(After(n, moves)) && |After(n, moves).workers| == n
  {
    hide Next, Enabled, MemberOk;
    if moves != [] {
      RunsKeepPool(n, moves[..|moves| - 1]);
      MoveKeepsPool(After(n, moves[..|moves| - 1]), moves[|moves| - 1]);
    } else {
      forall i | 0 <= i < n ensures MemberOk(Fresh(n), i) {
        FreshMember(n, i);
      }
    }
  }

  lemma FreshMember(n: nat, i: nat)
    requires i < n
    ensures MemberOk(Fresh(n), i)
  {
    hide WorkerOk;
    UnstartedOk(Fresh(n).workers[i]);
  }

  lemma UnstartedOk(w: WorkerState)
    requires w.status.Stopped? && w.loop.NotRun? && w.stopper.Idle?
    requires !w.cancelled && !w.heartbeat && w.counter == 0 && w.retries == 0 && w.late == 0
    ensures WorkerOk(w)
  {
  }

  /** The wait group counts exactly the live goroutines, and a worker takes at most one job once it is cancelled. */
  lemma CounterCountsGoroutines(n: nat, moves: seq<Move>, i: nat)
    requires Legal(n, moves) && i < n
    ensures var p := After(n, moves);
            i < |p.workers| && p.workers[i].counter == Live(p.workers[i]) && p.workers[i].late <= 1
  {
    hide After, Legal;
    RunsKeepPool(n, moves);
    assert MemberOk(After(n, moves), i);
  }

  /** Goroutines are added to a wait group only before its worker is told to stop, or while the group is not empty. */
  lemma AddsAreSafe(n: nat, moves: seq<Move>, m: Move, i: nat)
    requires Legal(n, moves) && Enabled(After(n, moves), m) && i < n
    ensures var p := After(n, moves);
            var p' := Next(p, m);
            i < |p.workers| == |p'.workers| &&
            (p'.workers[i].counter > p.workers[i].counter ==> p.workers[i].counter > 0 || p.workers[i].stopper.Idle?)
  {
    hide After, Legal, DoStep;
    var p := After(n, moves);
    RunsKeepPool(n, moves);
    MoveKeepsPool(p, m);
    assert MemberOk(p, i);
    if m.Of? && m.worker == i {
      if Next(p, m).workers[i].counter > p.workers[i].counter {
        StepAddsSafely(p.workers[i], m.step);
      }
    }
  }

  lemma StepAddsSafely(w: WorkerState, step: Step)
    requires WorkerOk(w) && CanStep(w, step) && DoStep(w, step).counter > w.counter
    ensures w.counter > 0
  {
  }

  /** `Pool.Start` never finds a worker that is not STOPPED, so its error path is dead. */
  lemma StartNeverFails(n: nat, moves: seq<Move>)
    requires Legal(n, moves) && 0 <= After(n, moves).starter < n
    ensures var p := After(n, moves);
            |p.workers| == n && p.workers[p.starter].status.Stopped?
  {
    hide After, Legal;
    RunsKeepPool(n, moves);
    assert MemberOk(After(n, moves), After(n, moves).starter);
  }

  /** Once the `Pool.Stop` that did the stopping has returned, every worker is at rest and never changes again. */
  lemma {:induction false} StoppedForGood(n: nat, moves: seq<Move>, more: seq<Move>)
    requires Legal(n, moves) && Legal(n, moves + more) && After(n, moves).joiner.Returned?
    ensures After(n, moves + more).workers == After(n, moves).workers && After(n, moves + more).joiner.Returned?
    ensures forall w | w in After(n, moves).workers :: AtRest(w)
  {
    hide Next, Enabled, AtRest;
    var p := After(n, moves);
    RunsKeepPool(n, moves);
    forall w | w in p.workers ensures AtRest(w) {
      var i :| 0 <= i < |p.workers| && p.workers[i] == w;
      assert MemberOk(p, i);
      FinishedRests(w);
    }
    if more == [] {
      assert moves + more == moves;
    } else {
      var before, m := more[..|more| - 1], more[|more| - 1];
      assert (moves + more)[..|moves + more| - 1] == moves + before;
      StoppedForGood(n, moves, before);
      RunsKeepPool(n, moves + before);
      MoveKeepsPool(After(n, moves + before), m);
    }
  }

  // ---- Stopping terminates ----

  function LoopRank(pc: LoopPc): nat {
    match pc
    case NotRun => 0
    case Exited => 0
    case Top => 1
    case RoundTop => 1
    case Restoring => 2
    case Rejected => 2
    case Napping => 2
    case Pausing => 2
    case Checking => 3
    case Processing => 5
    case Assigning => 6
    case Took => 7
    case Probing => 8
  }

  function StopRank(pc: StopPc): nat {
    match pc
    case Idle => 6
    case Check => 5
    case Mark => 4
    case Cancel => 3
    case Wait => 2
    case Seal => 1
    case Finished => 0
  }

  /** The steps a cancelled worker can still make. */
  function Work(w: WorkerState): nat {
    LoopRank(w.loop) + w.retries + Events.One(w.heartbeat) + StopRank(w.stopper)
  }

  lemma EveryStepIsProgress(w: WorkerState, step: Step)
    requires WorkerOk(w) && w.cancelled && CanStep(w, step)
    ensures DoStep(w, step).cancelled && Work(DoStep(w, step)) < Work(w)
  {
    match step {
      case Beat =>
      case Loop(fate) =>
        match w.loop {
          case Top =>
          case RoundTop =>
          case Probing =>
          case Napping =>
          case Pausing =>
          case Took =>
          case Assigning =>
          case Rejected =>
          case Processing =>
          case Checking =>
          case Restoring =>
        }
      case Retried =>
      case Stop =>
    }
  }

  /** A cancelled worker whose `Stop` is under way can always make a step. */
  lemma SomeStepIsPossible(w: WorkerState)
    requires WorkerOk(w) && w.cancelled && !w.stopper.Finished? && !w.stopper.Idle?
    ensures exists step :: CanStep(w, step)
  {
    if CanStep(w, Stop) {
    } else if w.heartbeat {
      assert CanStep(w, Beat);
    } else if LoopLives(w) {
      assert CanStep(w, Loop(Void));
    } else {
      assert CanStep(w, Retried);
    }
  }

  function TotalWork(ws: seq<WorkerState>): nat {
    if ws == [] then 0 else TotalWork(ws[..|ws| - 1]) + Work(ws[|ws| - 1])
  }

  lemma {:induction false} TotalWorkUpdated(ws: seq<WorkerState>, i: nat, w: WorkerState)
    requires i < |ws|
    ensures TotalWork(ws[i := w]) == TotalWork(ws) - Work(ws[i]) + Work(w)
  {
    hide Work;
    var n := |ws| - 1;
    if i == n {
      assert ws[i := w][..n] == ws[..n];
    } else {
      assert ws[i := w][..n] == ws[..n][i := w];
      TotalWorkUpdated(ws[..n], i, w);
    }
  }

  // ---- STOPPING is not final ----

  /** A STOPPING worker's status is overwritten exactly by a job loop that had decided to set it before. */
  lemma WhoOverwritesStopping(w: WorkerState, step: Step)
    requires WorkerOk(w) && CanStep(w, step) && w.status.Stopping?
    ensures var w' := DoStep(w, step);
            (!w'.status.Stopping? && !w'.status.Stopped?)
            <==> step.Loop? && (w.loop.Took? || w.loop.Rejected? || w.loop.Restoring?)
  {
    match step {
      case Loop(fate) =>
      case Stop =>
      case Beat =>
      case Retried =>
    }
  }

  /** A job loop that reads STOPPING at the end of a job goes on without setting the status; otherwise it sets READY. */
  lemma StoppingIsSeen(w: WorkerState, fate: Fate)
    requires LoopLives(w) && w.loop.Checking?
    ensures var w' := DoStep(w, Loop(fate));
            && w'.status == w.status
            && (if w.status.Stopping? then w'.loop.Top? else w'.loop.Restoring? && DoStep(w', Loop(fate)).status.Ready?)
  {
  }

  /** Who sets a worker's status, and to what. */
  lemma WhoSetsStatus(w: WorkerState, step: Step)
    requires CanStep(w, step)
    ensures var w' := DoStep(w, step);
            w'.status == if step.Loop? && w.loop.Took? then Busy
                         else if step.Loop? && (w.loop.Rejected? || w.loop.Restoring?) then Ready
                         else if step.Stop? && w.stopper.Mark? then Stopping
                         else if step.Stop? && w.stopper.Seal? then Stopped
                         else w.status
  {
  }

  lemma Extended(n: nat, moves: seq<Move>, m: Move)
    requires Legal(n, moves) && Enabled(After(n, moves), m)
    ensures Legal(n, moves + [m]) && After(n, moves + [m]) == Next(After(n, moves), m)
  {
    assert (moves + [m])[..|moves|] == moves;
  }

  lemma TookAJob() returns (moves: seq<Move>)
    ensures Legal(1, moves)
    ensures After(1, moves) == PoolState(
        [WorkerState(Ready, false, 2, true, Took, 0, Idle, 0)], NO_STARTER, true, false, Uncalled, false)
  {
    hide Legal, After;
    moves := [];
    NoMoves(1);
    Extended(1, moves, CallStart);
    moves := moves + [CallStart];
    Extended(1, moves, BootNext);
    moves := moves + [BootNext];
    Extended(1, moves, BootNext);
    moves := moves + [BootNext];
    for k := 0 to 3
      invariant Legal(1, moves)
      invariant After(1, moves) == PoolState(
          [WorkerState(Ready, false, 2, true, [Top, RoundTop, Probing, Took][k], 0, Idle, 0)],
          NO_STARTER, true, false, Uncalled, false)
    {
      Extended(1, moves, Of(0, Loop(Good)));
      moves := moves + [Of(0, Loop(Good))];
    }
  }

  /** A pool of one whose worker took a job just before it was told to stop. */
  lemma ToldToStopWithAJob() returns (moves: seq<Move>)
    ensures Legal(1, moves)
    ensures After(1, moves) == PoolState(
        [WorkerState(Stopping, false, 2, true, Took, 0, Cancel, 0)], NO_STARTER, true, true, Joining, false)
  {
    hide Legal, After;
    moves := TookAJob();
    Extended(1, moves, CallStop);
    moves := moves + [CallStop];
    Extended(1, moves, SpawnNext);
    moves := moves + [SpawnNext];
    Extended(1, moves, SpawnNext);
    moves := moves + [SpawnNext];
    Extended(1, moves, Of(0, Stop));
    moves := moves + [Of(0, Stop)];
    Extended(1, moves, Of(0, Stop));
    moves := moves + [Of(0, Stop)];
  }

  lemma NoMoves(n: nat)
    ensures Legal(n, []) && After(n, []) == Fresh(n)
  {
  }

  /** A worker that is STOPPING can turn BUSY, and READY again, before it is STOPPED. */
  lemma StoppingCanBeOverwritten()
    ensures exists moves, busy, ready ::
              && Legal(1, moves) && Legal(1, moves + busy) && Legal(1, moves + busy + ready)
              && After(1, moves).workers != [] && After(1, moves).workers[0].status.Stopping?
              && After(1, moves + busy).workers != [] && After(1, moves + busy).workers[0].status.Busy?
              && After(1, moves + busy + ready).workers != []
              && After(1, moves + busy + ready).workers[0].status.Ready?
  {
    hide Legal, After;
    var moves := ToldToStopWithAJob();
    var busy := [Of(0, Loop(Good))];
    Extended(1, moves, busy[0]);
    var m1 := moves + busy;
    Extended(1, m1, Of(0, Loop(Bad)));
    var m2 := m1 + [Of(0, Loop(Bad))];
    Extended(1, m2, Of(0, Loop(Good)));
    var ready := [Of(0, Loop(Bad)), Of(0, Loop(Good))];
    assert m1 + ready == m2 + [Of(0, Loop(Good))];
  }
}
