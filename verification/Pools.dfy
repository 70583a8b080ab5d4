/**
 The worker and pool objects. A method's own accesses to shared state are entered as moves of the state machine,
 and between any two of them the goroutines make the steps the script lists. `Stop` is proved to return under
 every scheduling of the goroutines it waits for.
 */
module Pools {
  import opened Lifecycle

  class Worker {
    var status: Health
    var cancelled: bool
    var counter: int
    var heartbeat: bool
    var loop: LoopPc
    var retries: nat
    var stopper: StopPc
    var late: nat

    constructor ()
      ensures View() == Unstarted()
    {
      status, cancelled, counter, heartbeat := Stopped, false, 0, false;
      loop, retries, stopper, late := NotRun, 0, Idle, 0;
    }

    function View(): WorkerState
      reads this
    {
      WorkerState(status, cancelled, counter, heartbeat, loop, retries, stopper, late)
    }

    method Start(signalled: bool) returns (ok: bool)
      modifies this
      ensures View() == Boot(old(View()), signalled) && ok == old(status).Stopped?
      ensures ok ==> status.Ready? && heartbeat && loop.Top? && counter == old(counter) + 2 && cancelled == signalled
      ensures !ok ==> View() == old(View())
    {
      if status != Stopped {
        return false;
      }
      status := Starting;
      cancelled, late := signalled, 0;
      status := Ready;
      counter := counter + 2;
      heartbeat := true;
      loop := Top;
      return true;
    }

    /** The job loop's next access to the worker's shared state. */
    method RunLoop(fate: Fate)
      requires LoopLives(View())
      modifies this
      ensures View() == LoopStep(old(View()), fate)
    {
      match loop
      case Top =>
        if cancelled { Leave(); } else { loop := RoundTop; }
      case RoundTop =>
        if cancelled { Leave(); } else { loop := Probing; }
      case Probing =>
        match fate {
          case Good =>
            loop := Took;
            if cancelled { late := late + 1; }
          case Void => loop := Napping;
          case Bad => loop := Pausing;
        }
      case Napping =>
        if fate.Bad? && cancelled { Leave(); } else { loop := RoundTop; }
      case Pausing =>
        if fate.Bad? && cancelled { Leave(); } else { loop := Top; }
      case Took =>
        status, loop := Busy, Assigning;
      case Assigning =>
        if fate.Good? { loop := Processing; } else { loop := Rejected; }
      case Rejected =>
        status, loop := Ready, Top;
      case Processing =>
        if fate.Bad? {
          counter, retries := counter + 1, retries + 1;
        }
        loop := Checking;
      case Checking =>
        if status != Stopping { loop := Restoring; } else { loop := Top; }
      case Restoring =>
        status, loop := Ready, Top;
    }

    method Leave()
      modifies this`loop, this`counter
      ensures View() == Exit(old(View()))
    {
      loop, counter := Exited, counter - 1;
    }

    /** The next access of the goroutine that runs the worker's `Stop`. */
    method RunStop()
      requires CanStep(View(), Stop)
      modifies this
      ensures View() == StopStep(old(View()))
    {
      match stopper
      case Check =>
        if status == Stopped || status == Stopping { stopper := Finished; } else { stopper := Mark; }
      case Mark =>
        status, stopper := Stopping, Cancel;
      case Cancel =>
        cancelled, stopper := true, Wait;
      case Wait =>
        stopper := Seal;
      case Seal =>
        status, stopper := Stopped, Finished;
    }

    method Run(step: Step)
      requires CanStep(View(), step)
      modifies this
      ensures View() == DoStep(old(View()), step)
    {
      match step
      case Beat => heartbeat, counter := false, counter - 1;
      case Loop(fate) => RunLoop(fate);
      case Retried => retries, counter := retries - 1, counter - 1;
      case Stop => RunStop();
    }
  }

  /** A non-positive count means four workers. */
  function PoolSize(count: int): nat {
    if count <= 0 then 4 else count
  }

  class Pool {
    const workers: seq<Worker>
    var started: bool
    var stopped: bool
    var starter: int
    var joiner: Joiner
    var signalled: bool
    var script: seq<seq<Move>>
    ghost var moves: seq<Move>

    ghost predicate Valid()
      reads this, workers
    {
      && (forall i, j | 0 <= i < j < |workers| :: workers[i] != workers[j])
      && Legal(|workers|, moves) && View() == After(|workers|, moves)
    }

    ghost function View(): PoolState
      reads this, workers
    {
      PoolState(Views(workers), starter, started, stopped, joiner, signalled)
    }

    /** No call of `Start` holds the pool's lock. */
    predicate Unlocked()
      reads this
    {
      starter == NO_STARTER
    }

    constructor (count: int, script: seq<seq<Move>>)
      ensures Valid() && fresh(workers) && |workers| == PoolSize(count)
      ensures !started && !stopped && Unlocked() && moves == []
    {
      var ws: seq<Worker> := [];
      for i := 0 to PoolSize(count)
        invariant |ws| == i && fresh(ws)
        invariant forall j | 0 <= j < i :: ws[j].View() == Unstarted()
        invariant forall j, k | 0 <= j < k < i :: ws[j] != ws[k]
      {
        var w := new Worker();
        ws := ws + [w];
      }
      workers, this.script := ws, script;
      started, stopped, signalled, starter, joiner, moves := false, false, false, NO_STARTER, Uncalled, [];
    }

    /** Enters a move that has just been made. */
    ghost method Enter(before: PoolState, m: Move)
      requires forall i, j | 0 <= i < j < |workers| :: workers[i] != workers[j]
      requires Legal(|workers|, moves) && before == After(|workers|, moves)
      requires Enabled(before, m) && View() == Next(before, m)
      modifies this`moves
      ensures Valid() && moves == old(moves) + [m]
    {
      hide Next, Enabled;
      moves := moves + [m];
      assert moves[..|moves| - 1] == old(moves);
    }

    /** A goroutine of worker `i` makes a step. */
    method Run(i: nat, step: Step)
      requires Valid() && i < |workers| && CanStep(workers[i].View(), step)
      modifies this`moves, workers[i]
      ensures Valid() && moves == old(moves) + [Of(i, step)]
      ensures workers[i].View() == DoStep(old(workers[i].View()), step)
    {
      hide Legal, After, DoStep, CanStep;
      ghost var before := View();
      workers[i].Run(step);
      assert Views(workers) == before.workers[i := DoStep(before.workers[i], step)];
      Enter(before, Of(i, step));
    }

    /** The signal to terminate arrives, or reaches the context of worker `m.worker`. */
    method Hear(m: Move)
      requires Valid() && (m.Signal? || m.Inherit?) && Enabled(View(), m)
      modifies this`moves, this`signalled, workers
      ensures Valid() && moves == old(moves) + [m]
      ensures forall i | 0 <= i < |workers| :: old(workers[i].cancelled) ==> workers[i].cancelled
    {
      hide Legal, After;
      ghost var before := View();
      if m.Signal? {
        signalled := true;
        assert Views(workers) == before.workers;
      } else {
        workers[m.worker].cancelled := true;
        assert Views(workers) == before.workers[m.worker := before.workers[m.worker].(cancelled := true)];
      }
      Enter(before, m);
    }

    /** Goroutines run for a while. */
    method Yield()
      requires Valid()
      modifies this`moves, this`script, this`signalled, workers
      ensures Valid() && old(moves) <= moves
      ensures forall i | 0 <= i < |workers| :: old(workers[i].cancelled) ==> workers[i].cancelled
    {
      hide Legal, After, Next, CanStep, DoStep;
      if script == [] {
        return;
      }
      var batch := script[0];
      script := script[1..];
      for k := 0 to |batch|
        invariant Valid() && old(moves) <= moves
        invariant forall i | 0 <= i < |workers| :: old(workers[i].cancelled) ==> workers[i].cancelled
      {
        var m := batch[k];
        if m.Signal? || (m.Inherit? && signalled && m.worker < |workers| && !workers[m.worker].loop.NotRun?) {
          Hear(m);
        } else if m.Of? && m.worker < |workers| {
          var w := workers[m.worker].View();
          if CanStep(w, m.step) {
            if w.cancelled {
              CancelledStays(w, m.step);
            }
            Run(m.worker, m.step);
          }
        }
      }
    }

    method BootNext()
      requires Valid() && 0 <= starter < |workers|
      modifies this`moves, this`starter, workers
      ensures Valid() && moves == old(moves) + [Move.BootNext] && starter == old(starter) + 1
    {
      hide Legal, After, Boot;
      ghost var before := View();
      BootFinds(this);
      var ok := workers[starter].Start(signalled);
      starter := starter + 1;
      assert Views(workers) == before.workers[starter - 1 := Boot(before.workers[starter - 1], signalled)];
      Enter(before, Move.BootNext);
    }

    /** Only the first call before any stop goes on to boot the workers. */
    method BeginStart() returns (starting: bool)
      requires Valid() && Unlocked()
      modifies this`moves, this`started, this`starter
      ensures Valid() && moves == old(moves) + [CallStart]
      ensures starting <==> !old(started) && !old(stopped)
      ensures started && starter == if starting then 0 else NO_STARTER
      ensures !starting ==> View() == old(View())
    {
      hide Legal, After;
      ghost var before := View();
      starting := !started && !stopped;
      if starting {
        started, starter := true, 0;
      } else {
        PoolLatches(this);
      }
      assert Views(workers) == before.workers;
      Enter(before, CallStart);
    }

    /** Every worker has been booted. */
    method EndStart()
      requires Valid() && starter == |workers|
      modifies this`moves, this`starter
      ensures Valid() && Unlocked() && moves == old(moves) + [Move.BootNext]
    {
      hide Legal, After;
      ghost var before := View();
      starter := NO_STARTER;
      assert Views(workers) == before.workers;
      Enter(before, Move.BootNext);
    }

    /** Boots every worker while holding the lock; a second call changes nothing. */
    method Start() returns (ok: bool)
      requires Valid() && Unlocked()
      modifies this, workers
      ensures Valid() && Unlocked() && old(moves) <= moves
      ensures ok <==> !old(started) && !old(stopped)
      ensures !ok ==> View() == old(View())
      ensures started && stopped == old(stopped) && joiner == old(joiner)
      ensures forall i | 0 <= i < |workers| :: !workers[i].loop.NotRun?
    {
      hide Legal, After;
      ok := BeginStart();
      if ok {
        for i := 0 to |workers|
          invariant Valid() && old(moves) <= moves && i == starter
          invariant started && stopped == old(stopped) && joiner == old(joiner)
        {
          Yield();
          BootNext();
        }
        EndStart();
      }
      AllHaveRun(this);
    }

    method SpawnNext()
      requires Valid() && joiner.Spawning? && joiner.next < |workers|
      modifies this`moves, this`joiner, workers
      ensures Valid() && moves == old(moves) + [Move.SpawnNext] && joiner == Spawning(old(joiner.next) + 1)
    {
      hide Legal, After;
      ghost var before := View();
      workers[joiner.next].stopper := Check;
      joiner := Spawning(joiner.next + 1);
      assert Views(workers) == before.workers[joiner.next - 1 := before.workers[joiner.next - 1].(stopper := Check)];
      Enter(before, Move.SpawnNext);
    }

    /** Every worker has its stopper. */
    method EndSpawning()
      requires Valid() && joiner == Spawning(|workers|)
      modifies this`moves, this`joiner
      ensures Valid() && moves == old(moves) + [Move.SpawnNext] && joiner.Joining?
    {
      hide Legal, After;
      ghost var before := View();
      joiner := Joining;
      assert Views(workers) == before.workers;
      Enter(before, Move.SpawnNext);
    }

    /** Lets worker `i`'s stopper come as far as cancelling it, if the signal has not done that already. */
    method Cancel(i: nat)
      requires Valid() && i < |workers| && (joiner.Joining? || joiner.Returned?)
      modifies this`moves, this`script, this`signalled, workers
      ensures Valid() && old(moves) <= moves && workers[i].cancelled
      ensures forall j | 0 <= j < |workers| :: old(workers[j].cancelled) ==> workers[j].cancelled
    {
      hide Legal, After, Next, Enabled;
      Yield();
      while !workers[i].cancelled
        invariant Valid() && old(moves) <= moves
        invariant forall j | 0 <= j < |workers| :: old(workers[j].cancelled) ==> workers[j].cancelled
        decreases StopRank(workers[i].stopper)
      {
        Uncancelled(this, i);
        Run(i, Step.Stop);
      }
    }

    /** Some goroutine of worker `i` is scheduled, and then there is less left to do. */
    method Advance(i: nat)
      requires Valid() && joiner.Joining? && i < |workers| && workers[i].cancelled && !workers[i].stopper.Finished?
      modifies this`moves, workers
      ensures Valid() && old(moves) <= moves && workers[i].cancelled
      ensures forall j | 0 <= j < |workers| && j != i :: workers[j].cancelled == old(workers[j].cancelled)
      ensures TotalWork(Views(workers)) < old(TotalWork(Views(workers)))
    {
      hide Legal, After, Next, Enabled, CanStep, DoStep, Work;
      WorkersAreOk(this, i);
      StopperBegan(this, i);
      SomeStepIsPossible(workers[i].View());
      var step :| CanStep(workers[i].View(), step);
      ghost var before := Views(workers);
      EveryStepIsProgress(workers[i].View(), step);
      Run(i, step);
      assert Views(workers) == before[i := workers[i].View()];
      TotalWorkUpdated(before, i, workers[i].View());
    }

    /** Waits for every worker's `Stop`, whichever goroutines are scheduled. */
    method Await()
      requires Valid() && joiner.Joining? && forall i | 0 <= i < |workers| :: workers[i].cancelled
      modifies this`moves, workers
      ensures Valid() && old(moves) <= moves
      ensures forall i | 0 <= i < |workers| :: workers[i].stopper.Finished?
    {
      hide Legal, After, TotalWork;
      while exists i :: 0 <= i < |workers| && !workers[i].stopper.Finished?
        invariant Valid() && old(moves) <= moves
        invariant forall i | 0 <= i < |workers| :: workers[i].cancelled
        decreases TotalWork(Views(workers))
      {
        var i :| 0 <= i < |workers| && !workers[i].stopper.Finished?;
        Advance(i);
      }
    }

    /** Starts a goroutine per worker that stops it. */
    method SpawnAll()
      requires Valid() && joiner == Spawning(0)
      modifies this`moves, this`script, this`signalled, this`joiner, workers
      ensures Valid() && old(moves) <= moves && joiner.Joining?
    {
      hide Legal, After;
      for i := 0 to |workers|
        invariant Valid() && old(moves) <= moves && joiner == Spawning(i)
      {
        Yield();
        SpawnNext();
      }
      EndSpawning();
    }

    method CancelAll()
      requires Valid() && joiner.Joining?
      modifies this`moves, this`script, this`signalled, workers
      ensures Valid() && old(moves) <= moves
      ensures forall i | 0 <= i < |workers| :: workers[i].cancelled
    {
      hide Legal, After;
      for i := 0 to |workers|
        invariant Valid() && old(moves) <= moves
        invariant forall j | 0 <= j < i :: workers[j].cancelled
      {
        Cancel(i);
      }
    }

    method Conclude()
      requires Valid() && joiner.Joining? && forall i | 0 <= i < |workers| :: workers[i].stopper.Finished?
      modifies this`moves, this`joiner
      ensures Valid() && moves == old(moves) + [Join] && joiner.Returned?
      ensures forall i | 0 <= i < |workers| :: AtRest(workers[i].View())
    {
      hide Legal, After, AtRest;
      ghost var before := View();
      joiner := Returned;
      assert Views(workers) == before.workers;
      Enter(before, Join);
      AllAtRest(this);
    }

    /** Only the first call after the pool was started goes on to stop it. */
    method Latch() returns (stopping: bool)
      requires Valid() && Unlocked()
      modifies this`moves, this`stopped, this`joiner
      ensures Valid() && moves == old(moves) + [CallStop]
      ensures stopping <==> old(started) && !old(stopped)
      ensures if stopping then joiner == Spawning(0) else View() == old(View())
    {
      hide Legal, After;
      ghost var before := View();
      stopping := started && !stopped;
      if stopping {
        stopped, joiner := true, Spawning(0);
      }
      assert Views(workers) == before.workers;
      Enter(before, CallStop);
    }

    /** The call that stops the pool returns with every worker at rest; any other call changes nothing. */
    method Stop() returns (stopping: bool)
      requires Valid() && Unlocked()
      modifies this, workers
      ensures Valid() && Unlocked() && old(moves) <= moves
      ensures stopping <==> old(started) && !old(stopped)
      ensures !stopping ==> View() == old(View())
      ensures stopping ==> joiner.Returned? && forall i | 0 <= i < |workers| :: AtRest(workers[i].View())
    {
      hide Valid, Legal, After, AtRest, Next, Enabled;
      stopping := Latch();
      if stopping {
        SpawnAll();
        CancelAll();
        Await();
        Conclude();
      }
    }

    // ---- One worker's goroutines ----

    predicate CanMake(m: Move)
      reads this, workers
    {
      match m
      case CallStart => Unlocked()
      case BootNext => 0 <= starter <= |workers|
      case CallStop => Unlocked()
      case SpawnNext => joiner.Spawning? && joiner.next <= |workers|
      case Join => joiner.Joining? && forall i | 0 <= i < |workers| :: workers[i].stopper.Finished?
      case Signal => true
      case Inherit(i) => signalled && i < |workers| && !workers[i].loop.NotRun?
      case Of(i, step) => i < |workers| && CanStep(workers[i].View(), step)
    }

    method Perform(m: Move)
      requires Valid() && CanMake(m)
      modifies this`moves, this`signalled, this`started, this`starter, this`stopped, this`joiner, workers
      ensures Valid() && moves == old(moves) + [m]
      ensures Enabled(old(View()), m) && View() == Next(old(View()), m)
    {
      hide Legal, After, Next, DoStep, CanStep, AtRest;
      MakeableIsEnabled(this, m);
      match m {
        case CallStart => var _ := BeginStart();
        case BootNext => if starter < |workers| { BootNext(); } else { EndStart(); }
        case CallStop => var _ := Latch();
        case SpawnNext => if joiner.next < |workers| { SpawnNext(); } else { EndSpawning(); }
        case Join => Conclude();
        case Signal => Hear(m);
        case Inherit(_) => Hear(m);
        case Of(i, step) => Run(i, step);
      }
      LastMove(|workers|, old(moves), m);
    }

    /** Everything but worker `i`'s job loop runs for a while. */
    method BesidesTheLoop(i: nat)
      requires Valid() && i < |workers| && LoopLives(workers[i].View())
      modifies this, workers
      ensures Valid() && old(moves) <= moves && workers[i].loop == old(workers[i].loop)
      ensures old(workers[i].cancelled) ==> workers[i].cancelled
      ensures workers[i].status == old(workers[i].status) || workers[i].status.Stopping?
    {
      hide Legal, After, Next, Enabled, CanStep;
      if script != [] {
        var batch := script[0];
        script := script[1..];
        for k := 0 to |batch|
          invariant Valid() && old(moves) <= moves && workers[i].loop == old(workers[i].loop)
          invariant old(workers[i].cancelled) ==> workers[i].cancelled
          invariant workers[i].status == old(workers[i].status) || workers[i].status.Stopping?
        {
          var m := batch[k];
          if CanMake(m) && !IsOfLoop(m, i) {
            MakeableIsEnabled(this, m);
            OthersLeaveTheLoop(this, m, i);
            Perform(m);
            assert View().workers[i] == workers[i].View();
          }
        }
      }
    }

    /**
     Rounds over the streams until there is a job or an error; `left` says how the reads and sleeps still to come
     turn out. The worker leaves when it sees its context cancelled.
     */
    method Consume(i: nat, fates: seq<Fate>) returns (left: seq<Fate>)
      requires Valid() && i < |workers| && workers[i].loop.RoundTop? && Calm(workers[i].status)
      modifies this, workers
      ensures Valid() && old(moves) <= moves && |left| <= |fates| && Calm(workers[i].status)
      ensures match workers[i].loop
              case Took => |left| < |fates| && fates[|fates| - |left| - 1].Good?
              case Pausing => |left| < |fates| && fates[|fates| - |left| - 1].Bad?
              case Exited => workers[i].cancelled
              case RoundTop => left == [] && !workers[i].cancelled
              case _ => false
    {
      hide Valid, Legal, After, Next, Enabled;
      left := fates;
      while true
        invariant Valid() && old(moves) <= moves && |left| <= |fates|
        invariant workers[i].loop.RoundTop? && Calm(workers[i].status) && left == fates[|fates| - |left|..]
        decreases |left|
      {
        BesidesTheLoop(i);
        if workers[i].cancelled {
          Run(i, Loop(Good));
          return;
        }
        if left == [] {
          return;
        }
        var found := left[0];
        left := left[1..];
        Run(i, Loop(Good));
        BesidesTheLoop(i);
        Run(i, Loop(found));
        if !found.Void? {
          return;
        }
        Nap(i, Upcoming(left));
        left := Rest(left);
        if workers[i].loop.Exited? {
          return;
        }
      }
    }

    /** Sleeps between two rounds, which a cancelled context may cut short. */
    method Nap(i: nat, wake: Fate)
      requires Valid() && i < |workers| && workers[i].loop.Napping? && Calm(workers[i].status)
      modifies this, workers
      ensures Valid() && old(moves) <= moves && Calm(workers[i].status)
      ensures workers[i].loop.RoundTop? || (workers[i].loop.Exited? && workers[i].cancelled)
    {
      hide Valid, Legal, After, Next, Enabled;
      BesidesTheLoop(i);
      Run(i, Loop(wake));
    }

    /** One job, from setting BUSY to looking at the context again: claimed or not, processed, failed or not. */
    method HandleJob(i: nat, claimed: bool, retried: bool) returns (seen: Health)
      requires Valid() && i < |workers| && workers[i].loop.Took?
      modifies this, workers
      ensures Valid() && old(moves) <= moves
      ensures workers[i].loop.Top? && Calm(workers[i].status)
      ensures old(workers[i].cancelled) ==> workers[i].cancelled
      ensures claimed && seen.Stopping? ==> workers[i].status.Stopping?
    {
      hide Valid, Legal, After, Next, Enabled;
      BesidesTheLoop(i);
      Run(i, Loop(Good));
      BesidesTheLoop(i);
      Run(i, Loop(if claimed then Good else Bad));
      BesidesTheLoop(i);
      if claimed {
        seen := Process(i, retried);
      } else {
        seen := workers[i].status;
        Run(i, Loop(Good));
      }
    }

    /** From the processor call to READY, unless the worker is seen to be STOPPING; `seen` is the status it read. */
    method Process(i: nat, retried: bool) returns (seen: Health)
      requires Valid() && i < |workers| && workers[i].loop.Processing?
      modifies this, workers
      ensures Valid() && old(moves) <= moves
      ensures workers[i].loop.Top? && Calm(workers[i].status)
      ensures old(workers[i].cancelled) ==> workers[i].cancelled
      ensures old(workers[i].status).Stopping? ==> seen.Stopping?
      ensures seen.Stopping? ==> workers[i].status.Stopping?
    {
      hide Valid, Legal, After, Next, Enabled;
      Run(i, Loop(if retried then Bad else Good));
      BesidesTheLoop(i);
      seen := workers[i].status;
      Run(i, Loop(Good));
      if seen != Stopping {
        BesidesTheLoop(i);
        Run(i, Loop(Good));
      }
    }

    /**
     The job loop of a worker, for as long as `fates` says how its calls turn out. It ends exactly when its context is
     cancelled, and neither when it ends nor between jobs is the worker left BUSY.
     */
    method RunJobLoop(i: nat, fates: seq<Fate>) returns (ended: bool)
      requires Valid() && i < |workers| && workers[i].loop.Top? && Calm(workers[i].status)
      modifies this, workers
      ensures Valid() && old(moves) <= moves && Calm(workers[i].status)
      ensures ended <==> workers[i].loop.Exited?
      ensures ended <==> workers[i].cancelled
      ensures !ended ==> workers[i].loop.Top? || workers[i].loop.RoundTop?
    {
      hide Valid, Legal, After, Next, Enabled;
      var left := fates;
      while true
        invariant Valid() && old(moves) <= moves
        invariant workers[i].loop.Top? && Calm(workers[i].status)
        decreases |left|
      {
        BesidesTheLoop(i);
        var cancelled := workers[i].cancelled;
        if !cancelled && left == [] {
          return false;
        }
        Run(i, Loop(Good));
        if cancelled {
          return true;
        }
        left := Consume(i, left);
        if workers[i].loop.Exited? || workers[i].loop.RoundTop? {
          return workers[i].loop.Exited?;
        }
        BesidesTheLoop(i);
        var turn := Upcoming(left);
        left := Rest(left);
        if workers[i].loop.Pausing? {
          Run(i, Loop(turn));
          if workers[i].loop.Exited? {
            return true;
          }
        } else {
          var _ := HandleJob(i, turn.Good?, Upcoming(left).Bad?);
          left := Rest(left);
        }
      }
    }

    /** Everything but the goroutine that stops worker `i` runs for a while. */
    method BesidesTheStopper(i: nat)
      requires Valid() && i < |workers| && Stoppable(workers[i].stopper)
      modifies this, workers
      ensures Valid() && old(moves) <= moves && workers[i].stopper == old(workers[i].stopper)
      ensures old(workers[i].cancelled) ==>
          workers[i].cancelled && Work(workers[i].View()) <= old(Work(workers[i].View()))
      ensures old(workers[i].stopper).Wait? && old(workers[i].counter) == 0 ==> workers[i].counter == 0
      ensures old(workers[i].stopper).Check? ==> !workers[i].status.Stopped? && !workers[i].status.Stopping?
    {
      hide Legal, After, Next, Enabled, CanStep, Work;
      NotYetStopping(this, i);
      if script != [] {
        var batch := script[0];
        script := script[1..];
        for k := 0 to |batch|
          invariant Valid() && old(moves) <= moves && workers[i].stopper == old(workers[i].stopper)
          invariant old(workers[i].cancelled) ==>
              workers[i].cancelled && Work(workers[i].View()) <= old(Work(workers[i].View()))
          invariant old(workers[i].stopper).Wait? && old(workers[i].counter) == 0 ==> workers[i].counter == 0
        {
          var m := batch[k];
          if CanMake(m) && m != Of(i, Step.Stop) {
            MakeableIsEnabled(this, m);
            OthersLeaveTheStopper(this, m, i);
            Perform(m);
            assert View().workers[i] == workers[i].View();
          }
        }
      }
      NotYetStopping(this, i);
    }

    /** Waits until the group of worker `i`'s goroutines is empty, whichever of them are scheduled. */
    method WaitForGroup(i: nat)
      requires Valid() && i < |workers| && workers[i].stopper.Wait?
      modifies this, workers
      ensures Valid() && old(moves) <= moves && workers[i].stopper.Wait? && workers[i].counter == 0
    {
      hide Legal, After, Next, Enabled, CanStep, DoStep, Work;
      WorkersAreOk(this, i);
      WaitsCancelled(workers[i].View());
      while workers[i].counter != 0
        invariant Valid() && old(moves) <= moves && workers[i].stopper.Wait? && workers[i].cancelled
        decreases Work(workers[i].View())
      {
        WorkersAreOk(this, i);
        SomeoneElseCan(workers[i].View());
        var step :| CanStep(workers[i].View(), step) && !step.Stop?;
        EveryStepIsProgress(workers[i].View(), step);
        StepperStays(workers[i].View(), step);
        Run(i, step);
        BesidesTheStopper(i);
      }
    }

    /** Sets STOPPING and cancels the worker's context. */
    method Cancelling(i: nat)
      requires Valid() && i < |workers| && workers[i].stopper.Mark?
      modifies this, workers
      ensures Valid() && old(moves) <= moves && workers[i].stopper.Wait?
    {
      hide Valid, Legal, After, Next, Enabled;
      BesidesTheStopper(i);
      Run(i, Step.Stop);
      BesidesTheStopper(i);
      Run(i, Step.Stop);
    }

    /** `Stop` of one worker: it returns, however the other goroutines are scheduled, and then the worker is at rest. */
    method StopWorker(i: nat)
      requires Valid() && i < |workers| && workers[i].stopper.Check?
      modifies this, workers
      ensures Valid() && old(moves) <= moves && AtRest(workers[i].View())
    {
      hide Valid, Legal, After, Next, Enabled, AtRest, Work;
      BesidesTheStopper(i);
      var over := workers[i].status == Stopped || workers[i].status == Stopping;
      Run(i, Step.Stop);
      if !over {
        Cancelling(i);
        BesidesTheStopper(i);
        WaitForGroup(i);
        Run(i, Step.Stop);
        BesidesTheStopper(i);
        Run(i, Step.Stop);
      }
      WorkersAreOk(this, i);
      FinishedRests(workers[i].View());
    }
  }

  /** How the next open choice turns out; nothing happens when no more is said. */
  function Upcoming(fates: seq<Fate>): Fate {
    if fates == [] then Void else fates[0]
  }

  function Rest(fates: seq<Fate>): seq<Fate> {
    if fates == [] then [] else fates[1..]
  }

  /** The status of a worker that has no job. */
  predicate Calm(s: Health) {
    s.Ready? || s.Stopping?
  }

  predicate Stoppable(pc: StopPc) {
    !pc.Idle? && !pc.Finished?
  }

  predicate IsOfLoop(m: Move, i: nat) {
    m.Of? && m.worker == i && m.step.Loop?
  }

  lemma LastMove(n: nat, moves: seq<Move>, m: Move)
    requires Legal(n, moves + [m])
    ensures Legal(n, moves) && Enabled(After(n, moves), m)
    ensures After(n, moves + [m]) == Next(After(n, moves), m)
  {
    assert (moves + [m])[..|moves|] == moves;
  }

  lemma MakeableIsEnabled(p: Pool, m: Move)
    requires p.Valid() && p.CanMake(m)
    ensures Enabled(p.View(), m)
  {
    hide Legal, After, CanStep;
  }

  lemma OthersLeaveTheLoop(p: Pool, m: Move, i: nat)
    requires p.Valid() && Enabled(p.View(), m) && !IsOfLoop(m, i) && i < |p.workers|
    requires LoopLives(p.workers[i].View())
    ensures |Next(p.View(), m).workers| == |p.workers|
    ensures var w, w' := p.workers[i].View(), Next(p.View(), m).workers[i];
            w'.loop == w.loop && (w.cancelled ==> w'.cancelled) && (w'.status == w.status || w'.status.Stopping?)
  {
    hide Legal, After, CanStep, DoStep, WorkerOk;
    RunsKeepPool(|p.workers|, p.moves);
    assert MemberOk(p.View(), i);
    assert p.View().workers[i] == p.workers[i].View();
    if m.Of? && m.worker == i {
      OtherStepLeavesTheLoop(p.workers[i].View(), m.step);
    }
  }

  lemma OtherStepLeavesTheLoop(w: WorkerState, step: Step)
    requires WorkerOk(w) && LoopLives(w) && CanStep(w, step) && !step.Loop?
    ensures var w' := DoStep(w, step);
            w'.loop == w.loop && (w.cancelled ==> w'.cancelled) && (w'.status == w.status || w'.status.Stopping?)
  {
  }

  lemma OthersLeaveTheStopper(p: Pool, m: Move, i: nat)
    requires p.Valid() && Enabled(p.View(), m) && m != Of(i, Step.Stop) && i < |p.workers|
    requires Stoppable(p.workers[i].stopper)
    ensures |Next(p.View(), m).workers| == |p.workers|
    ensures var w, w' := p.workers[i].View(), Next(p.View(), m).workers[i];
            && w'.stopper == w.stopper
            && (w.cancelled ==> w'.cancelled && Work(w') <= Work(w))
            && (w.stopper.Wait? && w.counter == 0 ==> w'.counter == 0)
  {
    hide Legal, After, CanStep, DoStep, WorkerOk;
    RunsKeepPool(|p.workers|, p.moves);
    assert MemberOk(p.View(), i);
    assert p.View().workers[i] == p.workers[i].View();
    if m.Of? && m.worker == i {
      var w := p.workers[i].View();
      if w.cancelled {
        EveryStepIsProgress(w, m.step);
      }
      StepperStays(w, m.step);
    }
  }

  lemma StepperStays(w: WorkerState, step: Step)
    requires WorkerOk(w) && CanStep(w, step) && !step.Stop?
    ensures DoStep(w, step).stopper == w.stopper && w.counter > 0
  {
  }

  lemma NotYetStopping(p: Pool, i: nat)
    requires p.Valid() && i < |p.workers|
    ensures p.workers[i].stopper.Check? ==> !p.workers[i].status.Stopped? && !p.workers[i].status.Stopping?
  {
    WorkersAreOk(p, i);
  }

  lemma WaitsCancelled(w: WorkerState)
    requires WorkerOk(w) && w.stopper.Wait?
    ensures w.cancelled
  {
  }

  /** While a group is not empty, one of its goroutines can make a step. */
  lemma SomeoneElseCan(w: WorkerState)
    requires WorkerOk(w) && w.cancelled && w.counter != 0
    ensures exists step :: CanStep(w, step) && !step.Stop?
  {
    if w.heartbeat {
      assert CanStep(w, Beat);
    } else if LoopLives(w) {
      assert CanStep(w, Loop(Void));
    } else {
      assert CanStep(w, Retried);
    }
  }

  /** A stopped pool was started. */
  lemma PoolLatches(p: Pool)
    requires p.Valid()
    ensures p.stopped ==> p.started
  {
    hide Legal, After;
    RunsKeepPool(|p.workers|, p.moves);
  }

  lemma CancelledStays(w: WorkerState, step: Step)
    requires CanStep(w, step) && w.cancelled
    ensures DoStep(w, step).cancelled
  {
  }

  lemma WorkersAreOk(p: Pool, i: nat)
    requires p.Valid() && i < |p.workers|
    ensures WorkerOk(p.workers[i].View())
  {
    hide Legal, After;
    RunsKeepPool(|p.workers|, p.moves);
    assert MemberOk(p.View(), i);
    assert p.View().workers[i] == p.workers[i].View();
  }

  lemma StopperBegan(p: Pool, i: nat)
    requires p.Valid() && i < |p.workers| && p.joiner.Joining?
    ensures !p.workers[i].stopper.Idle?
  {
    hide Legal, After;
    RunsKeepPool(|p.workers|, p.moves);
    assert MemberOk(p.View(), i);
    assert p.View().workers[i] == p.workers[i].View();
  }

  lemma AllAtRest(p: Pool)
    requires p.Valid() && p.joiner.Returned?
    ensures forall i | 0 <= i < |p.workers| :: AtRest(p.workers[i].View())
  {
    hide Legal, After, AtRest;
    assert p.moves + [] == p.moves;
    StoppedForGood(|p.workers|, p.moves, []);
    forall i | 0 <= i < |p.workers| ensures AtRest(p.workers[i].View()) {
      assert p.View().workers[i] == p.workers[i].View();
    }
  }

  /** A worker that is being stopped and not cancelled yet has a stopper that can go on. */
  lemma Uncancelled(p: Pool, i: nat)
    requires p.Valid() && i < |p.workers| && (p.joiner.Joining? || p.joiner.Returned?) && !p.workers[i].cancelled
    ensures CanStep(p.workers[i].View(), Step.Stop)
    ensures StopRank(StopStep(p.workers[i].View()).stopper) < StopRank(p.workers[i].stopper)
  {
    hide Legal, After;
    RunsKeepPool(|p.workers|, p.moves);
    assert MemberOk(p.View(), i);
    assert p.View().workers[i] == p.workers[i].View();
  }

  lemma AllHaveRun(p: Pool)
    requires p.Valid() && p.started && p.Unlocked()
    ensures forall i | 0 <= i < |p.workers| :: !p.workers[i].loop.NotRun?
  {
    hide Legal, After;
    RunsKeepPool(|p.workers|, p.moves);
    forall i | 0 <= i < |p.workers| ensures !p.workers[i].loop.NotRun? {
      assert MemberOk(p.View(), i) && p.View().workers[i] == p.workers[i].View();
    }
  }

  lemma BootFinds(p: Pool)
    requires p.Valid() && 0 <= p.starter < |p.workers|
    ensures p.workers[p.starter].status.Stopped?
  {
    hide Legal, After;
    StartNeverFails(|p.workers|, p.moves);
    assert p.View().workers[p.starter] == p.workers[p.starter].View();
  }

  ghost function Views(ws: seq<Worker>): (vs: seq<WorkerState>)
    reads ws
    ensures |vs| == |ws| && forall i | 0 <= i < |ws| :: vs[i] == ws[i].View()
  {
    seq(|ws|, i requires 0 <= i < |ws| reads ws => ws[i].View())
  }
}
