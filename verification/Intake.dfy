/** The submit handler: a row, then a copy on its stream, then QUEUED. */
module Intake {
  import opened Events
  import opened EventStore
  import opened Streams
  import opened Protocol
  import opened ProtocolInvariant
  import opened ProtocolSteps
  import opened Runtime
  import opened Stopped

  /** A request body; `sound` says whether its type is a known one and its payload valid JSON. */
  datatype Request = Malformed | Request(priority: int, sound: bool)

  datatype Response = BadRequest | InternalError | Accepted | Disconnected

  /** An id that names no row names no handler either. */
  lemma HandlersHaveRows(cfg: Config, moves: seq<Move>, e: EventId)
    requires Legal(cfg, moves) && e !in After(cfg, moves).db.rows
    ensures Handler(e) !in After(cfg, moves).procs
  {
    hide Legal, After;
    RunsKeepInv(cfg, moves);
    var s := After(cfg, moves);
    FactsOf(cfg, s);
    assert Handler(e) in s.procs ==> ProcIdOk(s.db.rows, Handler(e));
  }

  /** An accepted row whose status write was not carried out never leaves RECEIVED. */
  lemma LeftReceived(sys: System, e: EventId)
    requires sys.Valid() && e in sys.repo.events && sys.repo.events[e].status.Received? && sys.Ended(Handler(e))
    ensures Legal(sys.cfg, sys.moves) && e in After(sys.cfg, sys.moves).db.rows && FrozenFrom(sys.cfg, sys.moves, e)
  {
    hide Legal, After, FrozenFrom;
    ReceivedIsStuckExactlyWhen(sys.cfg, sys.moves, e);
  }

  class EventHandler {
    const sys: System

    constructor (sys: System)
      ensures this.sys == sys
    {
      this.sys := sys;
    }

    /** An id that already names a row is turned down by the primary key. */
    method Create(e: EventId, priority: int) returns (alive: bool, ok: bool)
      requires sys.Valid() && priority in {1, 5, 10}
      modifies sys, sys.repo, sys.queue
      ensures sys.Valid() && old(sys.moves) <= sys.moves && old(sys.queue.log) <= sys.queue.log
      ensures !alive ==> Handler(e) in sys.killed
      ensures alive ==> (ok <==> e !in old(sys.repo.events) && sys.last.choice.reply.Delivered?)
      ensures ok ==> sys.Stands(Handler(e), Publishing(e, priority))
      ensures ok ==> e in sys.repo.events && e !in old(sys.repo.events)
      ensures ok ==> sys.repo.events[e] == Row(priority, Received, 0, None, sys.last.choice.now, None)
    {
      hide Legal, After, NextFrom, RedisQueue.Valid;
      ok := false;
      var turn;
      alive, turn := sys.Wait(Handler(e));
      if alive {
        var before := sys.Current();
        var err := sys.repo.Create(e, NewRow(priority, turn.choice.now), turn.choice.reply);
        if e !in before.db.rows {
          HandlersHaveRows(sys.cfg, sys.moves, e);
          sys.Enter(before, Submit(e, priority, turn.choice.reply, turn.choice.now));
          ok := err.Ok?;
        }
      }
    }

    method Publish(e: EventId, priority: int) returns (alive: bool, ok: bool, copy: nat)
      requires sys.Valid() && sys.Stands(Handler(e), Publishing(e, priority))
      modifies sys, sys.repo, sys.queue
      ensures sys.Valid() && old(sys.moves) <= sys.moves && old(sys.queue.log) <= sys.queue.log
      ensures old(sys.repo.events).Keys <= sys.repo.events.Keys
      ensures if alive then sys.Acted(Handler(e)) else Handler(e) in sys.killed
      ensures alive ==> (ok <==> sys.last.choice.reply.Delivered?)
      ensures if alive && ok then sys.Stands(Handler(e), Enqueuing(e, copy)) else sys.Ended(Handler(e))
      ensures ok ==>
          |old(sys.queue.log)| <= copy < |sys.queue.log| && sys.queue.log[copy] == Message(e, priority, 0)
      ensures e in old(sys.repo.events) && old(sys.repo.events)[e].status.Received? ==>
          sys.repo.events[e] == old(sys.repo.events)[e]
    {
      hide Legal, After, NextFrom, RedisQueue.Valid;
      ok, copy := false, 0;
      var turn;
      alive, turn := sys.Wait(Handler(e));
      if alive {
        var before := sys.Current();
        copy := |before.broker.log|;
        ok := sys.queue.Publish(Message(e, priority, 0), turn.choice.reply);
        sys.Enter(before, Act(Handler(e), turn.choice));
      }
    }

    method MarkQueued(e: EventId, copy: nat) returns (alive: bool, ok: bool)
      requires sys.Valid() && sys.Stands(Handler(e), Enqueuing(e, copy))
      modifies sys, sys.repo, sys.queue
      ensures sys.Valid() && old(sys.moves) <= sys.moves && old(sys.queue.log) <= sys.queue.log
      ensures old(sys.repo.events).Keys <= sys.repo.events.Keys && sys.Ended(Handler(e))
      ensures if alive then sys.Acted(Handler(e)) else Handler(e) in sys.killed
      ensures ok ==> e in sys.hist.handoff && sys.hist.handoff[e] == copy
      ensures alive && e in old(sys.repo.events) && old(sys.repo.events)[e].status.Received? ==>
          && (ok <==> sys.last.choice.reply.Delivered?)
          && var r := old(sys.repo.events)[e];
             sys.repo.events[e] == if sys.last.choice.reply.Refused? then r
                                   else r.(status := Queued, updatedAt := sys.last.choice.now)
    {
      hide Legal, After, NextFrom, RedisQueue.Valid;
      ok := false;
      var turn;
      alive, turn := sys.Wait(Handler(e));
      if alive {
        var before := sys.Current();
        var err := sys.repo.UpdateStatus(e, Received, Queued, turn.choice.now, turn.choice.reply);
        ok := err.Ok?;
        sys.Enter(before, Act(Handler(e), turn.choice));
      }
    }

    /**
     A request that is turned down has touched nothing; one that is accepted has its row and a copy on its
     stream; any other answer means that the insert or the publication was not confirmed. Accepting does not wait
     for the status write: when that was not carried out the row is left RECEIVED, with nobody to queue it.
     `queued` says that the write was confirmed.
     */
    method HandleCreateEvent(r: Request, e: EventId) returns (response: Response, queued: bool)
      requires sys.Valid()
      modifies sys, sys.repo, sys.queue
      ensures sys.Valid() && old(sys.moves) <= sys.moves
      ensures response.BadRequest? <==>
          r.Malformed? || !r.sound || (r.priority != 1 && r.priority != 5 && r.priority != 10)
      ensures response.BadRequest? ==> sys.moves == old(sys.moves) && sys.Current() == old(sys.Current())
      ensures response.InternalError? ==> e in old(sys.repo.events) || !sys.last.choice.reply.Delivered?
      ensures response.Disconnected? ==> Handler(e) in sys.killed
      ensures response.Accepted? ==>
          && e !in old(sys.repo.events) && e in sys.repo.events && sys.Ended(Handler(e))
          && sys.repo.events[e].status == (if sys.last.choice.reply.Refused? then Received else Queued)
          && (queued <==> sys.last.choice.reply.Delivered?)
          && sys.repo.events[e].priority == r.priority
          && sys.repo.events[e].attempt == 0 && sys.repo.events[e].worker == None
          && exists copy | |old(sys.queue.log)| <= copy < |sys.queue.log| ::
               sys.queue.log[copy] == Message(e, r.priority, 0)
               && (queued ==> e in sys.hist.handoff && sys.hist.handoff[e] == copy)
    {
      hide System.Valid, System.Stands, System.Ended;
      queued := false;
      if r.Malformed? || !r.sound || r.priority !in {1, 5, 10} {
        return BadRequest, queued;
      }
      var alive, ok := Create(e, r.priority);
      if !alive || !ok {
        return if alive then InternalError else Disconnected, queued;
      }
      var copy;
      alive, ok, copy := Publish(e, r.priority);
      if !alive || !ok {
        return if alive then InternalError else Disconnected, queued;
      }
      alive, queued := MarkQueued(e, copy);
      response := if alive then Accepted else Disconnected;
    }
  }
}
