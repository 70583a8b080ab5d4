/** Ways a run can go on: extending runs move by move, working off a sweep's list, and fetching a given message. */
module Continuations {
  import opened Events
  import opened Trails
  import opened EventStore
  import opened Streams
  import opened Protocol
  import opened ProtocolInvariant
  import opened ProtocolSteps

  const YES: Choice := Choice(Delivered, 0, true, 0.0)
  const NO: Choice := Choice(Delivered, 0, false, 0.0)
  const FAILS: Choice := Choice(Refused, 0, false, 0.0)
  const LOSES_ANSWER: Choice := Choice(Lost, 0, false, 0.0)

  lemma OneMore(cfg: Config, moves: seq<Move>, m: Move)
    requires Legal(cfg, moves) && Enabled(After(cfg, moves), m)
    ensures Legal(cfg, moves + [m]) && After(cfg, moves + [m]) == Next(cfg, After(cfg, moves), m)
  {
    assert (moves + [m])[..|moves|] == moves;
  }

  lemma Joined(moves: seq<Move>, a: seq<Move>, b: seq<Move>)
    ensures moves + a + b == moves + (a + b)
  {
  }

  // ---- Fresh ids ----

  lemma {:induction false} LongestName(ps: set<ProcId>) returns (n: nat)
    ensures forall p | p in ps && p.Worker? :: |p.name| <= n
    decreases ps
  {
    n := 0;
    if ps != {} {
      var p :| p in ps;
      n := LongestName(ps - {p});
      if p.Worker? && |p.name| > n {
        n := |p.name|;
      }
      assert forall q | q in ps :: q == p || q in ps - {p};
    }
  }

  /** There is always a worker id nobody has used. */
  lemma FreshName(procs: map<ProcId, Proc>) returns (name: string)
    ensures Worker(name) !in procs
  {
    var n := LongestName(procs.Keys);
    name := seq(n + 1, _ => 'w');
  }

  lemma {:induction false} LatestRun(ps: set<ProcId>) returns (n: nat)
    ensures forall p | p in ps && p.Sweeper? :: p.run <= n
    decreases ps
  {
    n := 0;
    if ps != {} {
      var p :| p in ps;
      n := LatestRun(ps - {p});
      if p.Sweeper? && p.run > n {
        n := p.run;
      }
      assert forall q | q in ps :: q == p || q in ps - {p};
    }
  }

  lemma FreshRun(procs: map<ProcId, Proc>) returns (run: nat)
    ensures Sweeper(run) !in procs
  {
    var n := LatestRun(procs.Keys);
    run := n + 1;
  }

  // ---- Sweeps ----

  lemma {:induction false} ScanCompletes(rows: map<EventId, Row>, status: Status, cutoff: nat, stale: seq<Stale>,
      left: set<EventId>) returns (todo: seq<Stale>)
    requires IsScan(rows, status, cutoff, stale, left)
    ensures IsScan(rows, status, cutoff, todo, {})
    decreases left
  {
    if left == {} {
      todo := stale;
    } else {
      OldestExists(rows, left);
      var oldest :| oldest in left && forall e | e in left :: rows[oldest].updatedAt <= rows[e].updatedAt;
      ScanTakesOldest(rows, status, cutoff, stale, left, oldest);
      todo := ScanCompletes(rows, status, cutoff, stale + [Stale(oldest, rows[oldest])], left - {oldest});
    }
  }

  /** The query always has a result. */
  lemma SnapshotExists(db: Db, status: Status, cutoff: nat) returns (todo: seq<Stale>)
    ensures IsSnapshot(db, status, cutoff, todo)
  {
    todo := ScanCompletes(
      db.rows, status, cutoff, [], set e | e in db.rows && IsStale(db.rows[e], status, cutoff));
  }

  /** A sweep whose call fails gives up on the row at the head of its list. */
  lemma DropHead(cfg: Config, moves: seq<Move>, p: ProcId)
    requires Legal(cfg, moves) && p in After(cfg, moves).procs
    requires var pc := After(cfg, moves).procs[p]; (pc.Sweeping? || pc.Resetting?) && pc.todo != []
    ensures Legal(cfg, moves + [Act(p, FAILS)])
    ensures var s, s' := After(cfg, moves), After(cfg, moves + [Act(p, FAILS)]);
            var pc := s.procs[p];
            && s'.db == s.db && s'.broker == s.broker
            && s'.procs == s.procs[p := Sweeping(pc.status, pc.todo[1..], pc.dead, pc.since)]
  {
    OneMore(cfg, moves, Act(p, FAILS));
    hide Legal, After;
    GivingUp(cfg, After(cfg, moves), p);
  }

  lemma GivingUp(cfg: Config, s: State, p: ProcId)
    requires Enabled(s, Act(p, FAILS))
    requires var pc := s.procs[p]; (pc.Sweeping? || pc.Resetting?) && pc.todo != []
    ensures var s', pc := Next(cfg, s, Act(p, FAILS)), s.procs[p];
            && s'.db == s.db && s'.broker == s.broker
            && s'.procs == s.procs[p := Sweeping(pc.status, pc.todo[1..], pc.dead, pc.since)]
  {
    hide AssignTx, Handoff, NextSweepStep;
  }

  /** ... and so can come to any row of it. */
  lemma {:induction false} DropTo(cfg: Config, moves: seq<Move>, p: ProcId, i: nat) returns (more: seq<Move>)
    requires Legal(cfg, moves) && p in After(cfg, moves).procs
    requires var pc := After(cfg, moves).procs[p]; pc.Sweeping? && i <= |pc.todo|
    ensures Legal(cfg, moves + more)
    ensures var s, s' := After(cfg, moves), After(cfg, moves + more);
            var pc := s.procs[p];
            && s'.db == s.db && s'.broker == s.broker
            && s'.procs == s.procs[p := Sweeping(pc.status, pc.todo[i..], pc.dead, pc.since)]
    decreases i
  {
    hide Legal, After, Next;
    more := [];
    assert moves + [] == moves;
    if i > 0 {
      DropHead(cfg, moves, p);
      var first := [Act(p, FAILS)];
      var rest := DropTo(cfg, moves + first, p, i - 1);
      Joined(moves, first, rest);
      more := first + rest;
      var todo := After(cfg, moves).procs[p].todo;
      assert todo[1..][i - 1..] == todo[i..];
    }
  }

  /** A sweep at a row it may recover can find the owner absent and publish a copy. */
  lemma Republishes(cfg: Config, moves: seq<Move>, p: ProcId) returns (more: seq<Move>)
    requires Legal(cfg, moves) && p in After(cfg, moves).procs
    requires var pc := After(cfg, moves).procs[p];
             pc.Sweeping? && pc.todo != [] && !NextSweepStep(pc.status, pc.todo[0].row, pc.dead).Skip?
    ensures Legal(cfg, moves + more)
    ensures var s, s' := After(cfg, moves), After(cfg, moves + more);
            var pc := s.procs[p];
            var x := pc.todo[0];
            && s'.db == s.db && s'.broker == s.broker.Add(Message(x.id, x.row.priority, x.row.attempt))
            && p in s'.procs && s'.procs[p].Resetting? && s'.procs[p].status == pc.status && s'.procs[p].todo == pc.todo
            && s'.hist.commits == s.hist.commits
            && forall q | q in s.procs && q != p :: q in s'.procs && s'.procs[q] == s.procs[q]
  {
    hide Legal, After;
    var s := After(cfg, moves);
    var pc := s.procs[p];
    more := [];
    assert moves + [] == moves;
    if NextSweepStep(pc.status, pc.todo[0].row, pc.dead).Probe? {
      OneMore(cfg, moves, Act(p, NO));
      more := [Act(p, NO)];
    }
    OneMore(cfg, moves + more, Act(p, YES));
    Joined(moves, more, [Act(p, YES)]);
    more := more + [Act(p, YES)];
  }

  // ---- Messages ----

  /** The processor is at work on `e`, or has succeeded and the result is not recorded yet. */
  predicate IsAtWork(pc: Proc, e: EventId) {
    (pc.Running? || pc.Finalizing?) && pc.job.event == e
  }

  ghost predicate BeingRun(s: State, e: EventId) {
    exists q :: q in s.procs && IsAtWork(s.procs[q], e)
  }

  /** Entries the group has not been handed, counted stream by stream. */
  function Ahead(b: Broker): nat
    requires b.Valid()
  {
    assert b.cursors.Of(High) <= |b.log| && b.cursors.Of(Normal) <= |b.log| && b.cursors.Of(Low) <= |b.log|;
    3 * |b.log| - b.cursors.high - b.cursors.normal - b.cursors.low
  }

  /** One read by a worker on its way to message `i`. */
  lemma ReadStep(cfg: Config, moves: seq<Move>, p: ProcId, i: nat) returns (m: Move)
    requires Legal(cfg, moves) && p in After(cfg, moves).procs && After(cfg, moves).broker.Valid()
    requires var s := After(cfg, moves);
             && s.procs[p].Polling? && i < |s.broker.log| && !s.broker.IsDelivered(i)
             && Rank(s.procs[p].stream) <= Rank(StreamOf(s.broker.log[i].priority))
    ensures Legal(cfg, moves + [m])
    ensures var s, s' := After(cfg, moves), After(cfg, moves + [m]);
            && s'.db == s.db && s'.broker.log == s.broker.log && s'.broker.Valid() && p in s'.procs
            && (s'.procs[p] == Claiming(JobOf(i, s.broker.log[i]))
                || (s'.procs[p].Polling? && !s'.broker.IsDelivered(i)
                    && Rank(s'.procs[p].stream) <= Rank(StreamOf(s.broker.log[i].priority))
                    && (Ahead(s'.broker) < Ahead(s.broker)
                        || (Ahead(s'.broker) == Ahead(s.broker)
                            && Rank(s'.procs[p].stream) > Rank(s.procs[p].stream)))))
  {
    var s := After(cfg, moves);
    var stream := s.procs[p].stream;
    var j := s.broker.Next(stream);
    m := Act(p, if j == i || j == |s.broker.log| then YES else LOSES_ANSWER);
    OneMore(cfg, moves, m);
    hide Legal, After;
    DeliverKeepsValid(s.broker, stream);
  }

  lemma {:induction false} Fetch(cfg: Config, moves: seq<Move>, p: ProcId, i: nat) returns (more: seq<Move>)
    requires Legal(cfg, moves) && p in After(cfg, moves).procs && After(cfg, moves).broker.Valid()
    requires var s := After(cfg, moves);
             && s.procs[p].Polling? && i < |s.broker.log| && !s.broker.IsDelivered(i)
             && Rank(s.procs[p].stream) <= Rank(StreamOf(s.broker.log[i].priority))
    ensures Legal(cfg, moves + more)
    ensures var s, s' := After(cfg, moves), After(cfg, moves + more);
            && s'.db == s.db && p in s'.procs && s'.procs[p] == Claiming(JobOf(i, s.broker.log[i]))
    decreases Ahead(After(cfg, moves).broker), 2 - Rank(After(cfg, moves).procs[p].stream)
  {
    hide Legal, After;
    var m := ReadStep(cfg, moves, p, i);
    more := [m];
    if !After(cfg, moves + [m]).procs[p].Claiming? {
      var rest := Fetch(cfg, moves + [m], p, i);
      Joined(moves, [m], rest);
      more := [m] + rest;
    }
  }

  lemma Boots(cfg: Config, moves: seq<Move>) returns (name: string)
    requires Legal(cfg, moves)
    ensures Legal(cfg, moves + [Boot(name)])
    ensures var s, s' := After(cfg, moves), After(cfg, moves + [Boot(name)]);
            && s'.db == s.db && s'.broker == s.broker && Worker(name) in s'.procs
            && s'.procs[Worker(name)] == Polling(High)
  {
    name := FreshName(After(cfg, moves).procs);
    OneMore(cfg, moves, Boot(name));
  }

  /** A claim of a QUEUED row succeeds when its call goes through. */
  lemma ClaimSucceeds(cfg: Config, moves: seq<Move>, p: ProcId)
    requires Legal(cfg, moves) && p.Worker? && p in After(cfg, moves).procs && After(cfg, moves).procs[p].Claiming?
    requires var s := After(cfg, moves);
             var e := s.procs[p].job.event;
             e in s.db.rows && s.db.rows[e].status.Queued? && e in s.hist.commits
    ensures Legal(cfg, moves + [Act(p, YES)])
    ensures var s, s' := After(cfg, moves), After(cfg, moves + [Act(p, YES)]);
            var e := s.procs[p].job.event;
            e in s'.db.rows && s'.db.rows[e].status.Processing? && BeingRun(s', e)
  {
    hide Legal, After, Next;
    ClaimGoesThrough(cfg, After(cfg, moves), p);
    OneMore(cfg, moves, Act(p, YES));
  }

  lemma ClaimGoesThrough(cfg: Config, s: State, p: ProcId)
    requires p.Worker? && p in s.procs && s.procs[p].Claiming?
    requires var e := s.procs[p].job.event; e in s.db.rows && s.db.rows[e].status.Queued? && e in s.hist.commits
    ensures Enabled(s, Act(p, YES))
    ensures var e, s' := s.procs[p].job.event, Next(cfg, s, Act(p, YES));
            e in s'.db.rows && s'.db.rows[e].status.Processing? && BeingRun(s', e)
  {
    assert p in Next(cfg, s, Act(p, YES)).procs && Next(cfg, s, Act(p, YES)).procs[p] == Running(s.procs[p].job);
  }

  lemma KnownRows(cfg: Config, moves: seq<Move>)
    requires Legal(cfg, moves)
    ensures var s := After(cfg, moves);
            && s.broker.Valid() && ProcInv(ViewOf(s), s.procs)
            && s.hist.commits.Keys == s.db.rows.Keys == s.hist.delays.Keys
            && forall e | e in s.db.rows :: RowOk(cfg, s.db.rows[e], e in s.db.idempotency)
  {
    hide Legal, After;
    RunsKeepInv(cfg, moves);
  }

  /** While an event is QUEUED, any copy of it that has not been delivered can still be read and claimed. */
  lemma FetchedAndClaimed(cfg: Config, moves: seq<Move>, i: nat) returns (more: seq<Move>)
    requires Legal(cfg, moves)
    requires var s := After(cfg, moves);
             && i < |s.broker.log| && !s.broker.IsDelivered(i) && s.broker.log[i].event in s.db.rows
             && s.db.rows[s.broker.log[i].event].status.Queued?
    ensures Legal(cfg, moves + more)
    ensures var s, s' := After(cfg, moves), After(cfg, moves + more);
            var e := s.broker.log[i].event;
            e in s'.db.rows && s'.db.rows[e].status.Processing? && BeingRun(s', e)
  {
    hide Legal, After, ProcInv, RowOk;
    var name := Boots(cfg, moves);
    var first := [Boot(name)];
    KnownRows(cfg, moves + first);
    var second := Fetch(cfg, moves + first, Worker(name), i);
    Joined(moves, first, second);
    KnownRows(cfg, moves + (first + second));
    ClaimSucceeds(cfg, moves + (first + second), Worker(name));
    Joined(moves, first + second, [Act(Worker(name), YES)]);
    more := first + second + [Act(Worker(name), YES)];
  }
}
