/**
 The recovery sweep with its memo of heartbeat answers, and why the memo is sound: a row is republished exactly
 when asking for its own owner would have republished it.
 */
module Recovery {
  import opened Events
  import opened EventStore
  import opened Streams
  import opened Protocol
  import opened Runtime

  datatype Lookup = NotAsked | NoAnswer | Answer(absent: bool)

  /** What a sweep did about one row of its list; `copy` is the message it published. */
  datatype Treatment = Treatment(lookup: Lookup, tried: bool, copy: Option<nat>, moved: bool)

  /** Whether row `i` has an owner that no earlier row of the list got an answer about. */
  ghost predicate OwnerUnknown(stale: seq<Stale>, done: seq<Treatment>, i: nat)
    requires i < |stale| && i <= |done|
  {
    && stale[i].row.worker.Some?
    && forall j | 0 <= j < i && j < |stale| && stale[j].row.worker == stale[i].row.worker :: !done[j].lookup.Answer?
  }

  /** Some row up to `i` with the same owner got the answer that its key is absent. */
  ghost predicate FoundAbsent(stale: seq<Stale>, done: seq<Treatment>, i: nat)
    requires i < |stale| && i < |done|
  {
    && stale[i].row.worker.Some?
    && exists j :: 0 <= j <= i && stale[j].row.worker == stale[i].row.worker && done[j].lookup == Answer(true)
  }

  ghost predicate TreatedOk(status: Status, stale: seq<Stale>, done: seq<Treatment>, i: nat)
    requires i < |stale| && i < |done|
  {
    && (done[i].lookup.NotAsked? <==> !(status.Processing? && OwnerUnknown(stale, done, i)))
    && (done[i].tried <==> !status.Processing? || FoundAbsent(stale, done, i))
    && (done[i].copy.Some? ==> done[i].tried)
    && (done[i].moved ==> done[i].copy.Some?)
  }

  /** The first rows of the list have been dealt with. */
  ghost predicate Treated(status: Status, stale: seq<Stale>, done: seq<Treatment>) {
    |done| <= |stale| && forall i | 0 <= i < |done| :: TreatedOk(status, stale, done, i)
  }

  ghost predicate CopiesMade(stale: seq<Stale>, done: seq<Treatment>, from: nat, log: seq<Message>) {
    && |done| <= |stale|
    && forall i | 0 <= i < |done| && done[i].copy.Some? ::
         && from <= done[i].copy.value < |log|
         && log[done[i].copy.value] == Message(stale[i].id, stale[i].row.priority, stale[i].row.attempt)
  }

  /** The memo holds exactly the answers got so far. */
  ghost predicate MemoOk(stale: seq<Stale>, done: seq<Treatment>, dead: map<Uuid, bool>) {
    && |done| <= |stale|
    && (forall j | 0 <= j < |done| && done[j].lookup.Answer? ::
          stale[j].row.worker.Some? && stale[j].row.worker.value in dead
          && dead[stale[j].row.worker.value] == done[j].lookup.absent)
    && (forall u | u in dead :: exists j ::
          0 <= j < |done| && stale[j].row.worker == Some(u) && done[j].lookup == Answer(dead[u]))
  }

  /** Heartbeat answers that do not change while the sweep runs. */
  ghost predicate Stable(stale: seq<Stale>, done: seq<Treatment>, beats: Uuid -> bool) {
    |done| <= |stale| &&
    forall i | 0 <= i < |done| && done[i].lookup.Answer? ::
      stale[i].row.worker.Some? && done[i].lookup.absent == !beats(stale[i].row.worker.value)
  }

  /**
   With stable answers the memo changes nothing: a PROCESSING row is republished if and only if it has an owner,
   that owner has no heartbeat, and no lookup made for this very row failed; a RETRYING row always is.
   */
  lemma MemoAgreesWithDirectLookup(status: Status, stale: seq<Stale>, done: seq<Treatment>, beats: Uuid -> bool, i: nat)
    requires Treated(status, stale, done) && Stable(stale, done, beats) && i < |done|
    ensures done[i].tried <==>
            || !status.Processing?
            || (stale[i].row.worker.Some? && !beats(stale[i].row.worker.value) && !done[i].lookup.NoAnswer?)
  {
    assert TreatedOk(status, stale, done, i);
    if status.Processing? && stale[i].row.worker.Some? {
      if done[i].lookup.NotAsked? {
        var j :| 0 <= j < i && stale[j].row.worker == stale[i].row.worker && done[j].lookup.Answer?;
        assert done[j].lookup == Answer(!beats(stale[i].row.worker.value));
      } else if done[i].lookup.NoAnswer? {
        assert !FoundAbsent(stale, done, i) by {
          assert OwnerUnknown(stale, done, i);
        }
      } else {
        assert done[i].lookup == Answer(!beats(stale[i].row.worker.value));
      }
    }
  }

  /** An owner is asked about again only when every earlier lookup failed, and only while rows are PROCESSING. */
  lemma AskedAgainOnlyAfterErrors(status: Status, stale: seq<Stale>, done: seq<Treatment>, i: nat, j: nat)
    requires Treated(status, stale, done) && i < j < |done| && stale[i].row.worker == stale[j].row.worker
    requires !done[i].lookup.NotAsked? && !done[j].lookup.NotAsked?
    ensures done[i].lookup.NoAnswer? && status.Processing?
  {
    assert TreatedOk(status, stale, done, j);
    assert OwnerUnknown(stale, done, j);
  }

  lemma TreatedMore(status: Status, stale: seq<Stale>, done: seq<Treatment>, t: Treatment)
    requires Treated(status, stale, done) && |done| < |stale|
    requires TreatedOk(status, stale, done + [t], |done|)
    ensures Treated(status, stale, done + [t])
  {
    var done' := done + [t];
    forall i | 0 <= i < |done'| ensures TreatedOk(status, stale, done', i) {
      if i < |done| {
        assert TreatedOk(status, stale, done, i);
        assert forall j | 0 <= j <= i :: done'[j] == done[j];
        assert OwnerUnknown(stale, done', i) <==> OwnerUnknown(stale, done, i);
        assert FoundAbsent(stale, done', i) <==> FoundAbsent(stale, done, i);
      }
    }
  }

  lemma MemoGrows(stale: seq<Stale>, done: seq<Treatment>, dead: map<Uuid, bool>, t: Treatment, dead': map<Uuid, bool>)
    requires MemoOk(stale, done, dead) && |done| < |stale|
    requires var owner := stale[|done|].row.worker;
             && (t.lookup.Answer? ==> owner.Some? && owner.value !in dead)
             && dead' == if t.lookup.Answer? then dead[owner.value := t.lookup.absent] else dead
    ensures MemoOk(stale, done + [t], dead')
  {
    var n, done' := |done|, done + [t];
    assert forall j | 0 <= j < n :: done'[j] == done[j];
    forall u | u in dead'
      ensures exists j :: 0 <= j <= n && stale[j].row.worker == Some(u) && done'[j].lookup == Answer(dead'[u])
    {
      if t.lookup.Answer? && stale[n].row.worker == Some(u) {
        assert done'[n].lookup == Answer(dead'[u]);
      } else {
        var j :| 0 <= j < n && stale[j].row.worker == Some(u) && done[j].lookup == Answer(dead[u]);
        assert done'[j].lookup == Answer(dead'[u]);
      }
    }
  }

  /** The next row is treated as the memo, with what this row's own lookup added to it, says. */
  lemma MemoDecides(status: Status, stale: seq<Stale>, done: seq<Treatment>, dead: map<Uuid, bool>, t: Treatment,
      dead': map<Uuid, bool>)
    requires Treated(status, stale, done) && MemoOk(stale, done, dead) && |done| < |stale|
    requires var owner := stale[|done|].row.worker;
             && (t.lookup.NotAsked? <==> !(status.Processing? && owner.Some? && owner.value !in dead))
             && dead' == (if t.lookup.Answer? && owner.Some? then dead[owner.value := t.lookup.absent] else dead)
             && (t.tried <==> !status.Processing? || (owner.Some? && owner.value in dead' && dead'[owner.value]))
    requires (t.copy.Some? ==> t.tried) && (t.moved ==> t.copy.Some?)
    ensures Treated(status, stale, done + [t]) && MemoOk(stale, done + [t], dead')
  {
    var n, done' := |done|, done + [t];
    var owner := stale[n].row.worker;
    assert forall j | 0 <= j < n :: done'[j] == done[j];
    assert owner.Some? ==> (owner.value !in dead <==> OwnerUnknown(stale, done', n));
    MemoGrows(stale, done, dead, t, dead');
    assert status.Processing? ==> (t.tried <==> FoundAbsent(stale, done', n));
    TreatedMore(status, stale, done, t);
  }

  /** What the protocol makes of a row's reset. */
  lemma ResetRecorded(cfg: Config, s: State, p: ProcId, c: Choice)
    requires p in s.procs && s.procs[p].Resetting? && s.procs[p].todo != [] && Enabled(s, Act(p, c))
    requires s.hist.commits.Keys == s.db.rows.Keys && s.procs[p].status in {Processing, Retrying}
    ensures var pc, s' := s.procs[p], Next(cfg, s, Act(p, c));
            var e := pc.todo[0].id;
            var tx := AssignTx(s.db, e, None, pc.status, Queued, c.now);
            && s'.db == EventRepo.Effect(s.db, tx, c.reply) && s'.broker == s.broker
            && p in s'.procs && s'.procs[p] == Sweeping(pc.status, pc.todo[1..], pc.dead, pc.since)
            && (EventRepo.Answer(tx, c.reply).Ok? ==>
                  && e in s'.db.rows && s'.db.rows[e].status.Queued? && s'.db.rows[e].worker == None
                  && e in s'.hist.handoff && s'.hist.handoff[e] == pc.receipt)
  {
  }

  /** What the protocol makes of a sweep's publication. */
  lemma CopyPublished(cfg: Config, s: State, p: ProcId, c: Choice)
    requires p in s.procs && s.procs[p].Sweeping? && s.procs[p].todo != [] && Enabled(s, Act(p, c))
    requires NextSweepStep(s.procs[p].status, s.procs[p].todo[0].row, s.procs[p].dead).Republish?
    ensures var pc, s' := s.procs[p], Next(cfg, s, Act(p, c));
            var x := pc.todo[0];
            var copy := Message(x.id, x.row.priority, x.row.attempt);
            && s'.db == s.db && p in s'.procs
            && s'.broker == (if c.reply.Refused? then s.broker else s.broker.Add(copy))
            && s'.procs[p] ==
               if c.reply.Delivered? then Resetting(pc.status, pc.todo, pc.dead, pc.since, |s.broker.log|)
               else Sweeping(pc.status, pc.todo[1..], pc.dead, pc.since)
  {
  }

  /** What the protocol makes of an owner's lookup. */
  lemma LookupRecorded(cfg: Config, s: State, p: ProcId, c: Choice, u: Uuid)
    requires p in s.procs && s.procs[p].Sweeping? && s.procs[p].todo != [] && Enabled(s, Act(p, c))
    requires NextSweepStep(s.procs[p].status, s.procs[p].todo[0].row, s.procs[p].dead) == Probe(u)
    ensures var pc, s' := s.procs[p], Next(cfg, s, Act(p, c));
            && s'.db == s.db && s'.broker == s.broker && p in s'.procs
            && s'.procs[p] == if c.reply.Delivered? then Sweeping(pc.status, pc.todo, pc.dead[u := !c.flag], pc.since)
                              else Sweeping(pc.status, pc.todo[1..], pc.dead, pc.since)
  {
  }

  class Scheduler {
    const sys: System
    const run: nat

    constructor (sys: System, run: nat)
      ensures this.sys == sys && this.run == run
    {
      this.sys, this.run := sys, run;
    }

    function Me(): ProcId {
      Sweeper(run)
    }

    ghost predicate At(pc: Proc)
      reads sys
    {
      sys.Stands(Me(), pc)
    }

    /** The query, whose result is a sweep's whole work list. */
    method Query(status: Status, cutoff: nat) returns (alive: bool, ok: bool, stale: seq<Stale>, since: nat)
      requires sys.Valid() && sys.Ended(Me()) && status in {Processing, Retrying}
      modifies sys, sys.repo, sys.queue
      ensures sys.Valid() && old(sys.moves) <= sys.moves && old(sys.queue.log) <= sys.queue.log
      ensures if ok then At(Sweeping(status, stale, map[], since)) else stale == [] && sys.Ended(Me())
      ensures !alive ==> Me() in sys.killed
      ensures ok <==> alive && sys.last.choice.reply.Delivered?
      ensures ok ==>
          && |old(sys.moves)| < |sys.moves|
          && sys.moves[|sys.moves| - 1] == Snapshot(run, status, cutoff, stale)
    {
      hide Legal, After, RedisQueue.Valid, IsSnapshot;
      ok, stale, since := false, [], 0;
      var turn;
      alive, turn := sys.Wait(Me());
      if alive && turn.choice.reply.Delivered? {
        var before := sys.Current();
        ok, since := true, sys.hist.clock;
        stale := sys.repo.GetStaleEvents(status, cutoff);
        sys.Enter(before, Snapshot(run, status, cutoff, stale));
      }
    }

    /** A row that needs no call. */
    method Skip(status: Status, todo: seq<Stale>, dead: map<Uuid, bool>, since: nat) returns (alive: bool)
      requires sys.Valid() && At(Sweeping(status, todo, dead, since)) && todo != []
      requires NextSweepStep(status, todo[0].row, dead).Skip?
      modifies sys, sys.repo, sys.queue
      ensures sys.Valid() && old(sys.moves) <= sys.moves && old(sys.queue.log) <= sys.queue.log
      ensures if alive then At(Sweeping(status, todo[1..], dead, since)) else sys.Ended(Me())
      ensures if alive then sys.Acted(Me()) else Me() in sys.killed
    {
      hide Legal, After, RedisQueue.Valid;
      var turn;
      alive, turn := sys.Wait(Me());
      if alive {
        sys.Enter(sys.Current(), Act(Me(), turn.choice));
      }
    }

    /** EXISTS on the owner's heartbeat key; a failed call gives up on the row. */
    method Look(status: Status, todo: seq<Stale>, dead: map<Uuid, bool>, since: nat, u: Uuid)
      returns (alive: bool, lookup: Lookup)
      requires sys.Valid() && At(Sweeping(status, todo, dead, since)) && todo != []
      requires NextSweepStep(status, todo[0].row, dead) == Probe(u)
      modifies sys, sys.repo, sys.queue
      ensures sys.Valid() && old(sys.moves) <= sys.moves && old(sys.queue.log) <= sys.queue.log
      ensures !lookup.NotAsked?
      ensures if !alive then sys.Ended(Me())
              else if lookup.Answer? then At(Sweeping(status, todo, dead[u := lookup.absent], since))
              else At(Sweeping(status, todo[1..], dead, since))
      ensures if alive then sys.Acted(Me()) else Me() in sys.killed
    {
      hide Legal, After, Next, RedisQueue.Valid;
      var turn;
      alive, turn := sys.Wait(Me());
      lookup := if turn.choice.reply.Delivered? then Answer(!turn.choice.flag) else NoAnswer;
      if alive {
        var before := sys.Current();
        LookupRecorded(sys.cfg, before, Me(), turn.choice, u);
        sys.Enter(before, Act(Me(), turn.choice));
      }
    }

    method Republish(status: Status, todo: seq<Stale>, dead: map<Uuid, bool>, since: nat)
      returns (alive: bool, copy: Option<nat>)
      requires sys.Valid() && At(Sweeping(status, todo, dead, since)) && todo != []
      requires NextSweepStep(status, todo[0].row, dead).Republish?
      modifies sys, sys.repo, sys.queue
      ensures sys.Valid() && old(sys.moves) <= sys.moves && old(sys.queue.log) <= sys.queue.log
      ensures if !alive then sys.Ended(Me())
              else if copy.None? then At(Sweeping(status, todo[1..], dead, since))
              else At(Resetting(status, todo, dead, since, copy.value))
      ensures alive && copy.Some? ==>
          && |old(sys.queue.log)| <= copy.value < |sys.queue.log|
          && sys.queue.log[copy.value] == Message(todo[0].id, todo[0].row.priority, todo[0].row.attempt)
      ensures if alive then sys.Acted(Me()) else Me() in sys.killed
    {
      hide Legal, After, Next, RedisQueue.Valid;
      var turn;
      copy := None;
      alive, turn := sys.Wait(Me());
      if alive {
        var before := sys.Current();
        CopyPublished(sys.cfg, before, Me(), turn.choice);
        var ok := sys.queue.Publish(
          Message(todo[0].id, todo[0].row.priority, todo[0].row.attempt), turn.choice.reply);
        copy := if ok then Some(|before.broker.log|) else None;
        sys.Enter(before, Act(Me(), turn.choice));
      }
    }

    /** Puts the row back to QUEUED without an owner, if it still has the status the sweep looked for. */
    method Reset(status: Status, todo: seq<Stale>, dead: map<Uuid, bool>, since: nat, copy: nat)
      returns (alive: bool, moved: bool)
      requires sys.Valid() && At(Resetting(status, todo, dead, since, copy)) && todo != []
      requires status in {Processing, Retrying}
      modifies sys, sys.repo, sys.queue
      ensures sys.Valid() && old(sys.moves) <= sys.moves && old(sys.queue.log) <= sys.queue.log
      ensures if alive then At(Sweeping(status, todo[1..], dead, since)) else sys.Ended(Me())
      ensures alive && moved ==>
          && todo[0].id in sys.repo.events && todo[0].id in sys.Before().db.rows
          && sys.Before().db.rows[todo[0].id].status == status
          && sys.repo.events[todo[0].id]
             == sys.Before().db.rows[todo[0].id].(status := Queued, worker := None, updatedAt := sys.last.choice.now)
          && todo[0].id in sys.hist.handoff && sys.hist.handoff[todo[0].id] == copy
      ensures if alive then sys.Acted(Me()) else Me() in sys.killed
    {
      hide Legal, After, Next, AssignTx, RedisQueue.Valid;
      var turn;
      moved := false;
      alive, turn := sys.Wait(Me());
      if alive {
        var before := sys.Current();
        ResetRecorded(sys.cfg, before, Me(), turn.choice);
        var err := sys.repo.AssignEvent(todo[0].id, None, status, Queued, turn.choice.now, turn.choice.reply);
        moved := err.Ok?;
        sys.Enter(before, Act(Me(), turn.choice));
      }
    }

    /** One row of the list. */
    method Recover(status: Status, todo: seq<Stale>, dead: map<Uuid, bool>, since: nat)
      returns (alive: bool, t: Treatment, dead': map<Uuid, bool>)
      requires sys.Valid() && At(Sweeping(status, todo, dead, since)) && todo != [] && status in {Processing, Retrying}
      modifies sys, sys.repo, sys.queue
      ensures sys.Valid() && old(sys.moves) <= sys.moves && old(sys.queue.log) <= sys.queue.log
      ensures if alive then At(Sweeping(status, todo[1..], dead', since)) else sys.Ended(Me())
      ensures alive ==>
          var owner := todo[0].row.worker;
          && (t.lookup.NotAsked? <==> !(status.Processing? && owner.Some? && owner.value !in dead))
          && dead' == (if t.lookup.Answer? && owner.Some? then dead[owner.value := t.lookup.absent] else dead)
          && (t.tried <==> !status.Processing? || (owner.Some? && owner.value in dead' && dead'[owner.value]))
      ensures (t.copy.Some? ==> t.tried) && (t.moved ==> t.copy.Some?)
      ensures alive && t.copy.Some? ==>
          && |old(sys.queue.log)| <= t.copy.value < |sys.queue.log|
          && sys.queue.log[t.copy.value] == Message(todo[0].id, todo[0].row.priority, todo[0].row.attempt)
      ensures !alive ==> Me() in sys.killed
    {
      hide System.Valid, System.Stands, System.Ended;
      dead' := dead;
      t := Treatment(NotAsked, false, None, false);
      if status.Processing? {
        if todo[0].row.worker.None? {
          alive := Skip(status, todo, dead, since);
          return;
        }
        var owner := todo[0].row.worker.value;
        if owner !in dead {
          var lookup;
          alive, lookup := Look(status, todo, dead, since, owner);
          t := t.(lookup := lookup);
          if !alive || lookup.NoAnswer? {
            return;
          }
          dead' := dead[owner := lookup.absent];
        }
        if !dead'[owner] {
          alive := Skip(status, todo, dead', since);
          return;
        }
      }
      var copy;
      alive, copy := Republish(status, todo, dead', since);
      t := t.(tried := true, copy := copy);
      if !alive || copy.None? {
        return;
      }
      var moved;
      alive, moved := Reset(status, todo, dead', since, copy.value);
      t := t.(moved := moved);
    }

    /**
     `done` says what became of each row of the list, as far as the sweep came: the whole list unless it was
     killed or its query failed. A row is moved only after its copy was published by this sweep.
     */
    method RecoverEvents(status: Status, cutoff: nat)
      returns (alive: bool, ok: bool, stale: seq<Stale>, done: seq<Treatment>)
      requires sys.Valid() && sys.Ended(Me()) && status in {Processing, Retrying}
      modifies sys, sys.repo, sys.queue
      ensures sys.Valid() && old(sys.moves) <= sys.moves && sys.Ended(Me())
      ensures !alive ==> Me() in sys.killed
      ensures alive && !ok ==> !sys.last.choice.reply.Delivered? && stale == []
      ensures ok ==> exists k ::
          |old(sys.moves)| <= k < |sys.moves| && sys.moves[k] == Snapshot(run, status, cutoff, stale)
      ensures Treated(status, stale, done) && (alive && ok ==> |done| == |stale|)
      ensures CopiesMade(stale, done, |old(sys.queue.log)|, sys.queue.log)
    {
      hide System.Valid, System.Stands, System.Ended, TreatedOk, MemoOk, NextSweepStep;
      done := [];
      var since;
      alive, ok, stale, since := Query(status, cutoff);
      if !ok {
        return;
      }
      ghost var query := |sys.moves| - 1;
      var dead: map<Uuid, bool> := map[];
      NothingKnown(stale);
      assert stale[0..] == stale;
      for i := 0 to |stale|
        invariant sys.Valid() && old(sys.moves) <= sys.moves && old(sys.queue.log) <= sys.queue.log
        invariant |old(sys.moves)| <= query < |sys.moves|
        invariant sys.moves[query] == Snapshot(run, status, cutoff, stale)
        invariant At(Sweeping(status, stale[i..], dead, since))
        invariant alive && ok && |done| == i && Treated(status, stale, done) && MemoOk(stale, done, dead)
        invariant CopiesMade(stale, done, |old(sys.queue.log)|, sys.queue.log)
      {
        var t, dead';
        alive, t, dead' := Recover(status, stale[i..], dead, since);
        if !alive {
          return;
        }
        MemoDecides(status, stale, done, dead, t, dead');
        done, dead := done + [t], dead';
        assert stale[i..][1..] == stale[i + 1..];
      }
      assert stale[|stale|..] == [];
      Finish(status, dead, since);
    }

    method Finish(status: Status, dead: map<Uuid, bool>, since: nat)
      requires sys.Valid() && At(Sweeping(status, [], dead, since))
      modifies sys, sys.repo, sys.queue
      ensures sys.Valid() && old(sys.moves) <= sys.moves && sys.queue.log == old(sys.queue.log) && sys.Ended(Me())
    {
      sys.Return(Me());
    }
  }

  lemma NothingKnown(stale: seq<Stale>)
    ensures MemoOk(stale, [], map[])
  {
  }
}
