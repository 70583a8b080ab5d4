/**
 The relational store. Each transaction is first given as a function on the two tables (`...Tx`),
 which the protocol uses as one atomic step; `EventRepo` is the repository object, whose methods
 are proved to perform exactly those transactions under any connection fault.
 */
module EventStore {
  import opened Events

  type EventId = nat
  type Uuid = nat

  datatype Row = Row(
    priority: int,
    status: Status,
    attempt: int,
    worker: Option<Uuid>,
    updatedAt: nat,
    completedAt: Option<nat>)

  /** The `events` and `idempotency` tables. */
  datatype Db = Db(rows: map<EventId, Row>, idempotency: map<EventId, string>)

  datatype StoreError = Ok | NotFound | InvalidTransition | AlreadyFinalized | Infra

  datatype Tx = Tx(db: Db, err: StoreError)

  /** What became of a remote call: answered, answer lost after it took effect, or never run. */
  datatype Reply = Delivered | Lost | Refused

  /** One row of a stale-event query, as it was when the query ran. */
  datatype Stale = Stale(id: EventId, row: Row)

  function NewRow(priority: int, now: nat): Row {
    Row(priority, Received, 0, None, now, None)
  }

  function CreateTx(db: Db, id: EventId, row: Row): Tx {
    if id in db.rows then Tx(db, Infra) else Tx(db.(rows := db.rows[id := row]), Ok)
  }

  /** `completed_at` is written for COMPLETED only, and `worker_id` is left alone. */
  function UpdateStatusTx(db: Db, id: EventId, old_: Status, new_: Status, now: nat): Tx {
    if !IsValidTransition(old_, new_) then Tx(db, InvalidTransition)
    else if id !in db.rows then Tx(db, NotFound)
    else if db.rows[id].status != old_ then Tx(db, InvalidTransition)
    else
      var row := db.rows[id].(status := new_, updatedAt := now);
      Tx(db.(rows := db.rows[id := if new_.Completed? then row.(completedAt := Some(now)) else row]), Ok)
  }

  function AssignTx(db: Db, id: EventId, worker: Option<Uuid>, old_: Status, new_: Status, now: nat): Tx {
    if !IsValidTransition(old_, new_) then Tx(db, InvalidTransition)
    else if id !in db.rows then Tx(db, NotFound)
    else if db.rows[id].status != old_ then Tx(db, InvalidTransition)
    else
      var row := db.rows[id].(status := new_, worker := worker, updatedAt := now);
      Tx(db.(rows := db.rows[id := if new_.Completed? then row.(completedAt := Some(now)) else row]), Ok)
  }

  function FinalizeTx(db: Db, id: EventId, hash: string, now: nat): Tx {
    if id !in db.rows then Tx(db, NotFound)
    else if db.rows[id].status.Completed? then Tx(db, AlreadyFinalized)
    else if db.rows[id].status != Processing then Tx(db, InvalidTransition)
    else if id in db.idempotency then Tx(db, AlreadyFinalized)
    else
      var row := db.rows[id].(status := Completed, updatedAt := now, completedAt := Some(now));
      Tx(Db(db.rows[id := row], db.idempotency[id := hash]), Ok)
  }

  function RecordFailureTx(db: Db, id: EventId, maxAttempts: int, now: nat): Tx {
    if id !in db.rows then Tx(db, NotFound)
    else if db.rows[id].status != Processing then Tx(db, InvalidTransition)
    else
      var row := db.rows[id].(attempt := db.rows[id].attempt + 1, updatedAt := now);
      Tx(db.(rows := db.rows[id :=
          if row.attempt < maxAttempts then row.(status := Retrying)
          else row.(status := Failed, completedAt := Some(now))]), Ok)
  }

  predicate RowHas(rows: map<EventId, Row>, id: EventId, status: Status) {
    id in rows && rows[id].status == status
  }

  predicate IsStale(row: Row, status: Status, cutoff: nat) {
    row.status == status && row.updatedAt < cutoff
  }

  /** `todo` lists every stale row exactly once, oldest update first. */
  predicate IsSnapshot(db: Db, status: Status, cutoff: nat, todo: seq<Stale>) {
    && (forall i | 0 <= i < |todo| ::
          todo[i].id in db.rows && todo[i].row == db.rows[todo[i].id] && IsStale(todo[i].row, status, cutoff))
    && (forall i, j | 0 <= i < j < |todo| ::
          todo[i].id != todo[j].id && todo[i].row.updatedAt <= todo[j].row.updatedAt)
    && (forall e | e in db.rows ::
          IsStale(db.rows[e], status, cutoff) ==> exists i | 0 <= i < |todo| :: todo[i].id == e)
  }

  class EventRepo {
    var events: map<EventId, Row>
    var idempotency: map<EventId, string>

    constructor ()
      ensures Tables() == Db(map[], map[])
    {
      events, idempotency := map[], map[];
    }

    function Tables(): Db
      reads this
    {
      Db(events, idempotency)
    }

    /** The effect of a transaction whose caller got `reply`. */
    static function Effect(db: Db, tx: Tx, reply: Reply): Db {
      if reply.Refused? then db else tx.db
    }

    /** What that caller is told. */
    static function Answer(tx: Tx, reply: Reply): StoreError {
      if reply.Delivered? then tx.err else Infra
    }

    method Create(id: EventId, row: Row, reply: Reply) returns (err: StoreError)
      modifies this
      ensures var tx := CreateTx(old(Tables()), id, row);
              Tables() == Effect(old(Tables()), tx, reply) && err == Answer(tx, reply)
      ensures err == if reply.Delivered? && id !in old(events) then Ok else Infra
      ensures events == if reply.Refused? || id in old(events) then old(events) else old(events)[id := row]
      ensures idempotency == old(idempotency)
    {
      if reply.Refused? || id in events {
        return Infra;
      }
      events := events[id := row];
      err := if reply.Lost? then Infra else Ok;
    }

    /** An illegal transition is rejected before the database is contacted, so even when it is unreachable. */
    method UpdateStatus(id: EventId, old_: Status, new_: Status, now: nat, reply: Reply) returns (err: StoreError)
      modifies this
      ensures var tx := UpdateStatusTx(old(Tables()), id, old_, new_, now);
              && Tables() == Effect(old(Tables()), tx, reply)
              && err == if IsValidTransition(old_, new_) then Answer(tx, reply) else InvalidTransition
      ensures err.Ok? <==> reply.Delivered? && IsValidTransition(old_, new_) && RowHas(old(events), id, old_)
      ensures err.NotFound? <==> reply.Delivered? && IsValidTransition(old_, new_) && id !in old(events)
      ensures err.InvalidTransition? <==>
          !IsValidTransition(old_, new_) || (reply.Delivered? && id in old(events) && old(events)[id].status != old_)
      ensures err.Infra? <==> !reply.Delivered? && IsValidTransition(old_, new_)
      ensures idempotency == old(idempotency)
      ensures if reply.Refused? || !IsValidTransition(old_, new_) || !RowHas(old(events), id, old_)
              then events == old(events)
              else var r := old(events)[id];
                   events == old(events)[id := Row(r.priority, new_, r.attempt, r.worker, now,
                                                   if new_.Completed? then Some(now) else r.completedAt)]
    {
      if !IsValidTransition(old_, new_) {
        return InvalidTransition;
      }
      if reply.Refused? {
        return Infra;
      }
      if id !in events {
        err := NotFound;
      } else if events[id].status != old_ {
        err := InvalidTransition;
      } else {
        var row := events[id].(status := new_, updatedAt := now);
        if new_.Completed? {
          row := row.(completedAt := Some(now));
        }
        events := events[id := row];
        err := Ok;
      }
      if reply.Lost? {
        err := Infra;
      }
    }

    method AssignEvent(id: EventId, worker: Option<Uuid>, old_: Status, new_: Status, now: nat, reply: Reply)
      returns (err: StoreError)
      modifies this
      ensures var tx := AssignTx(old(Tables()), id, worker, old_, new_, now);
              && Tables() == Effect(old(Tables()), tx, reply)
              && err == if IsValidTransition(old_, new_) then Answer(tx, reply) else InvalidTransition
      ensures err.Ok? <==> reply.Delivered? && IsValidTransition(old_, new_) && RowHas(old(events), id, old_)
      ensures err.NotFound? <==> reply.Delivered? && IsValidTransition(old_, new_) && id !in old(events)
      ensures err.InvalidTransition? <==>
          !IsValidTransition(old_, new_) || (reply.Delivered? && id in old(events) && old(events)[id].status != old_)
      ensures err.Infra? <==> !reply.Delivered? && IsValidTransition(old_, new_)
      ensures idempotency == old(idempotency)
      ensures if reply.Refused? || !IsValidTransition(old_, new_) || !RowHas(old(events), id, old_)
              then events == old(events)
              else var r := old(events)[id];
                   events == old(events)[id := Row(r.priority, new_, r.attempt, worker, now,
                                                   if new_.Completed? then Some(now) else r.completedAt)]
    {
      if !IsValidTransition(old_, new_) {
        return InvalidTransition;
      }
      if reply.Refused? {
        return Infra;
      }
      if id !in events {
        err := NotFound;
      } else if events[id].status != old_ {
        err := InvalidTransition;
      } else {
        var row := events[id].(status := new_, worker := worker, updatedAt := now);
        if new_.Completed? {
          row := row.(completedAt := Some(now));
        }
        events := events[id := row];
        err := Ok;
      }
      if reply.Lost? {
        err := Infra;
      }
    }

    method FinalizeEvent(id: EventId, hash: string, now: nat, reply: Reply) returns (err: StoreError)
      modifies this
      ensures var tx := FinalizeTx(old(Tables()), id, hash, now);
              Tables() == Effect(old(Tables()), tx, reply) && err == Answer(tx, reply)
      ensures err.Ok? <==> reply.Delivered? && RowHas(old(events), id, Processing) && id !in old(idempotency)
      ensures err.NotFound? <==> reply.Delivered? && id !in old(events)
      ensures err.AlreadyFinalized? <==>
          reply.Delivered? && (RowHas(old(events), id, Completed)
                               || (RowHas(old(events), id, Processing) && id in old(idempotency)))
      ensures err.InvalidTransition? <==>
          reply.Delivered? && id in old(events) && !RowHas(old(events), id, Processing)
          && !RowHas(old(events), id, Completed)
      ensures err.Infra? <==> !reply.Delivered?
      ensures if reply.Refused? || !RowHas(old(events), id, Processing) || id in old(idempotency)
              then events == old(events) && idempotency == old(idempotency)
              else var r := old(events)[id];
                   && events == old(events)[id := Row(r.priority, Completed, r.attempt, r.worker, now, Some(now))]
                   && idempotency == old(idempotency)[id := hash]
    {
      if reply.Refused? {
        return Infra;
      }
      if id !in events {
        err := NotFound;
      } else if events[id].status != Processing {
        err := if events[id].status.Completed? then AlreadyFinalized else InvalidTransition;
      } else if id in idempotency {
        err := AlreadyFinalized;
      } else {
        idempotency := idempotency[id := hash];
        events := events[id := events[id].(status := Completed, updatedAt := now, completedAt := Some(now))];
        err := Ok;
      }
      if reply.Lost? {
        err := Infra;
      }
    }

    /** `next` is the status the row now has; it is meaningful only when `err` is Ok. */
    method RecordFailure(id: EventId, maxAttempts: int, now: nat, reply: Reply) returns (next: Status, err: StoreError)
      modifies this
      ensures var tx := RecordFailureTx(old(Tables()), id, maxAttempts, now);
              && Tables() == Effect(old(Tables()), tx, reply) && err == Answer(tx, reply)
              && (err.Ok? ==> id in events && next == events[id].status)
      ensures err.Ok? <==> reply.Delivered? && RowHas(old(events), id, Processing)
      ensures err.NotFound? <==> reply.Delivered? && id !in old(events)
      ensures err.InvalidTransition? <==>
          reply.Delivered? && id in old(events) && !RowHas(old(events), id, Processing)
      ensures err.Infra? <==> !reply.Delivered?
      ensures idempotency == old(idempotency)
      ensures if reply.Refused? || !RowHas(old(events), id, Processing) then events == old(events)
              else var r := old(events)[id];
                   && (err.Ok? ==> next == if r.attempt + 1 < maxAttempts then Retrying else Failed)
                   && events == old(events)[id :=
                       if r.attempt + 1 < maxAttempts
                       then Row(r.priority, Retrying, r.attempt + 1, r.worker, now, r.completedAt)
                       else Row(r.priority, Failed, r.attempt + 1, r.worker, now, Some(now))]
    {
      next := Processing;
      if reply.Refused? {
        return next, Infra;
      }
      if id !in events {
        err := NotFound;
      } else if events[id].status != Processing {
        err := InvalidTransition;
      } else {
        var newAttempt := events[id].attempt + 1;
        if newAttempt < maxAttempts {
          next := Retrying;
          events := events[id := events[id].(status := next, attempt := newAttempt, updatedAt := now)];
        } else {
          next := Failed;
          events := events[id :=
              events[id].(status := next, attempt := newAttempt, updatedAt := now, completedAt := Some(now))];
        }
        err := Ok;
      }
      if reply.Lost? {
        err := Infra;
      }
    }

    method GetStaleEvents(status: Status, cutoff: nat) returns (stale: seq<Stale>)
      ensures IsSnapshot(Tables(), status, cutoff, stale)
      ensures forall e: EventId ::
          (exists i | 0 <= i < |stale| :: stale[i].id == e)
          <==> e in events && events[e].status == status && events[e].updatedAt < cutoff
      ensures forall i | 0 <= i < |stale| :: stale[i].id in events && stale[i].row == events[stale[i].id]
      ensures forall i, j | 0 <= i < j < |stale| ::
          stale[i].id != stale[j].id && stale[i].row.updatedAt <= stale[j].row.updatedAt
    {
      stale := [];
      var left := set e | e in events && IsStale(events[e], status, cutoff);
      while left != {}
        invariant IsScan(events, status, cutoff, stale, left)
        decreases left
      {
        OldestExists(events, left);
        var oldest :| oldest in left && forall e | e in left :: events[oldest].updatedAt <= events[e].updatedAt;
        ScanTakesOldest(events, status, cutoff, stale, left, oldest);
        stale := stale + [Stale(oldest, events[oldest])];
        left := left - {oldest};
      }
    }
  }

  /** A scan in update order that has yet to reach the stale rows in `left`. */
  predicate IsScan(rows: map<EventId, Row>, status: Status, cutoff: nat, stale: seq<Stale>, left: set<EventId>) {
    && (forall e | e in left :: e in rows && IsStale(rows[e], status, cutoff))
    && (forall i | 0 <= i < |stale| ::
          stale[i].id in rows && stale[i].id !in left && stale[i].row == rows[stale[i].id]
          && IsStale(stale[i].row, status, cutoff))
    && (forall i, j | 0 <= i < j < |stale| ::
          stale[i].id != stale[j].id && stale[i].row.updatedAt <= stale[j].row.updatedAt)
    && (forall i, e | 0 <= i < |stale| && e in left :: stale[i].row.updatedAt <= rows[e].updatedAt)
    && (forall e | e in rows && IsStale(rows[e], status, cutoff) ::
          e in left || exists i | 0 <= i < |stale| :: stale[i].id == e)
  }

  lemma ScanTakesOldest(rows: map<EventId, Row>, status: Status, cutoff: nat, stale: seq<Stale>, left: set<EventId>,
      oldest: EventId)
    requires IsScan(rows, status, cutoff, stale, left)
    requires oldest in left && forall e | e in left :: rows[oldest].updatedAt <= rows[e].updatedAt
    ensures IsScan(rows, status, cutoff, stale + [Stale(oldest, rows[oldest])], left - {oldest})
  {
    hide IsStale;
    var stale' := stale + [Stale(oldest, rows[oldest])];
    assert stale'[|stale|].id == oldest;
    forall e | e in rows && IsStale(rows[e], status, cutoff)
      ensures e in left - {oldest} || exists i | 0 <= i < |stale'| :: stale'[i].id == e
    {
      if e !in left {
        var i :| 0 <= i < |stale| && stale[i].id == e;
        assert stale'[i].id == e;
      }
    }
  }

  lemma {:induction false} OldestExists(events: map<EventId, Row>, ids: set<EventId>)
    requires ids != {} && ids <= events.Keys
    ensures exists o :: o in ids && forall e | e in ids :: events[o].updatedAt <= events[e].updatedAt
    decreases ids
  {
    var x :| x in ids;
    if ids != {x} {
      OldestExists(events, ids - {x});
      var o :| o in ids - {x} && forall e | e in ids - {x} :: events[o].updatedAt <= events[e].updatedAt;
      var least := if events[x].updatedAt < events[o].updatedAt then x else o;
      assert forall e | e in ids :: e == x || e in ids - {x};
      assert least in ids && forall e | e in ids :: events[least].updatedAt <= events[e].updatedAt;
    } else {
      assert x in ids && forall e | e in ids :: events[x].updatedAt <= events[e].updatedAt;
    }
  }
}
