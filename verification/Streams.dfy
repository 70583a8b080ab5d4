/**
 The three priority streams and their consumer group. `Broker` is the server seen as one log of
 additions (the server is single-threaded, so additions are totally ordered): a stream is the part
 of the log with its priority class. `RedisQueue` keeps the three streams themselves and is proved
 to behave as that log.
 */
module Streams {
  import opened Events
  import opened EventStore

  datatype Stream = High | Normal | Low

  /** The publisher's switch: anything that is not 10 or 5 goes to the low stream. */
  function StreamOf(priority: int): Stream {
    if priority == 10 then High else if priority == 5 then Normal else Low
  }

  function Rank(s: Stream): nat {
    match s case High => 0 case Normal => 1 case Low => 2
  }

  datatype Message = Message(event: EventId, priority: int, attempt: int)

  /** Last-delivered positions of the consumer group: every id of the stream below its cursor has been delivered. */
  datatype Cursors = Cursors(high: nat, normal: nat, low: nat) {
    function Of(s: Stream): nat {
      match s case High => high case Normal => normal case Low => low
    }

    function With(s: Stream, n: nat): (c: Cursors)
      ensures c.Of(s) == n && forall t | t != s :: c.Of(t) == Of(t)
    {
      match s
      case High => this.(high := n)
      case Normal => this.(normal := n)
      case Low => this.(low := n)
    }
  }

  /** A message id is its position in `log`. */
  datatype Broker = Broker(log: seq<Message>, cursors: Cursors, pending: set<nat>) {
    predicate Valid() {
      && (forall s: Stream :: cursors.Of(s) <= |log|)
      && (forall i | i in pending :: i < |log| && IsDelivered(i))
    }

    predicate IsDelivered(i: nat)
      requires i < |log|
    {
      i < cursors.Of(StreamOf(log[i].priority))
    }

    predicate Acked(i: nat)
      requires i < |log|
    {
      IsDelivered(i) && i !in pending
    }

    /** The id a read of stream `s` would return, or `|log|` when the stream has nothing new. */
    function Next(s: Stream): nat {
      if cursors.Of(s) <= |log| then NextFrom(log, s, cursors.Of(s)) else |log|
    }

    function Add(m: Message): Broker {
      this.(log := log + [m])
    }

    function Deliver(s: Stream): Broker {
      if Next(s) == |log| then this
      else Broker(log, cursors.With(s, Next(s) + 1), pending + {Next(s)})
    }

    function Ack(i: nat): Broker {
      this.(pending := pending - {i})
    }
  }

  function NextFrom(log: seq<Message>, s: Stream, from: nat): (i: nat)
    requires from <= |log|
    ensures from <= i <= |log|
    ensures i < |log| ==> StreamOf(log[i].priority) == s
    ensures forall j | from <= j < i :: StreamOf(log[j].priority) != s
    decreases |log| - from
  {
    if from == |log| || StreamOf(log[from].priority) == s then from else NextFrom(log, s, from + 1)
  }

  /** The ids of stream `s` among the first `n` entries of the log, in order. */
  function Ids(log: seq<Message>, s: Stream, n: nat): seq<nat>
    requires n <= |log|
  {
    if n == 0 then []
    else Ids(log, s, n - 1) + if StreamOf(log[n - 1].priority) == s then [n - 1] else []
  }

  lemma {:induction false} IdsSound(log: seq<Message>, s: Stream, n: nat)
    requires n <= |log|
    ensures forall k | 0 <= k < |Ids(log, s, n)| ::
              Ids(log, s, n)[k] < n && StreamOf(log[Ids(log, s, n)[k]].priority) == s
    ensures forall j, k | 0 <= j < k < |Ids(log, s, n)| :: Ids(log, s, n)[j] < Ids(log, s, n)[k]
    ensures forall i | 0 <= i < n && StreamOf(log[i].priority) == s :: i in Ids(log, s, n)
  {
    if n > 0 {
      IdsSound(log, s, n - 1);
    }
  }

  lemma {:induction false} IdsStable(log: seq<Message>, more: seq<Message>, s: Stream, n: nat)
    requires n <= |log|
    ensures Ids(log + more, s, n) == Ids(log, s, n)
  {
    if n > 0 {
      IdsStable(log, more, s, n - 1);
    }
  }

  /** Skipping ids of other streams adds nothing. */
  lemma {:induction false} IdsSkip(log: seq<Message>, s: Stream, m: nat, n: nat)
    requires m <= n <= |log| && forall j | m <= j < n :: StreamOf(log[j].priority) != s
    ensures Ids(log, s, n) == Ids(log, s, m)
  {
    if m < n {
      IdsSkip(log, s, m, n - 1);
    }
  }

  /** The first entry of a stream at or past the cursor is the next one to deliver. */
  lemma NextIsFirst(log: seq<Message>, s: Stream, from: nat, k: nat)
    requires from <= |log| && k <= |Ids(log, s, |log|)|
    requires forall j | 0 <= j < k :: Ids(log, s, |log|)[j] < from
    requires k < |Ids(log, s, |log|)| ==> from <= Ids(log, s, |log|)[k]
    ensures NextFrom(log, s, from) == if k == |Ids(log, s, |log|)| then |log| else Ids(log, s, |log|)[k]
  {
    var ids, i := Ids(log, s, |log|), NextFrom(log, s, from);
    IdsSound(log, s, |log|);
    if i < |log| {
      assert i in ids;
      var j :| 0 <= j < |ids| && ids[j] == i;
      assert k <= j;
    }
    if k < |ids| {
      assert StreamOf(log[ids[k]].priority) == s;
      assert i <= ids[k];
    }
  }

  lemma DeliverKeepsValid(b: Broker, s: Stream)
    requires b.Valid()
    ensures b.Deliver(s).Valid()
    ensures forall i | 0 <= i < |b.log| :: b.IsDelivered(i) ==> b.Deliver(s).IsDelivered(i)
  {
  }

  datatype Entry = Entry(id: nat, msg: Message)

  /** The entries of stream `s`. */
  function Entries(log: seq<Message>, s: Stream): (es: seq<Entry>)
    ensures |es| == |Ids(log, s, |log|)|
    ensures forall k | 0 <= k < |es| :: es[k].id == Ids(log, s, |log|)[k] < |log| && es[k].msg == log[es[k].id]
  {
    IdsSound(log, s, |log|);
    var ids := Ids(log, s, |log|);
    seq(|ids|, k requires 0 <= k < |ids| => Entry(ids[k], log[ids[k]]))
  }

  /** `es` holds exactly the entries of the log with class `s`, in order. */
  ghost predicate HoldsStream(es: seq<Entry>, log: seq<Message>, s: Stream) {
    && |es| == |Ids(log, s, |log|)|
    && forall k | 0 <= k < |es| :: es[k].id == Ids(log, s, |log|)[k] < |log| && es[k].msg == log[es[k].id]
  }

  lemma StreamTakesEntry(es: seq<Entry>, log: seq<Message>, s: Stream, m: Message)
    requires HoldsStream(es, log, s)
    ensures HoldsStream(if StreamOf(m.priority) == s then es + [Entry(|log|, m)] else es, log + [m], s)
  {
    IdsStable(log, [m], s, |log|);
    var ids := Ids(log, s, |log|);
    var last := if StreamOf(m.priority) == s then [|log|] else [];
    assert (log + [m])[|log|] == m;
    assert Ids(log + [m], s, |log| + 1) == ids + last;
    hide Ids;
  }

  /** A scan that stopped at `k` has found the entry the cursor designates. */
  lemma ScanFindsNext(es: seq<Entry>, log: seq<Message>, s: Stream, from: nat, k: nat)
    requires HoldsStream(es, log, s) && from <= |log| && k <= |es|
    requires forall j | 0 <= j < k :: es[j].id < from
    requires k < |es| ==> from <= es[k].id
    ensures k == |es| ==> NextFrom(log, s, from) == |log|
    ensures k < |es| ==> var i := NextFrom(log, s, from); i < |log| && es[k] == Entry(i, log[i])
  {
    hide Ids, NextFrom;
    var ids := Ids(log, s, |log|);
    forall j | 0 <= j < k ensures ids[j] < from {
      assert es[j].id == ids[j];
    }
    NextIsFirst(log, s, from, k);
  }

  /** `k` is the position of the first entry from `from` on, or the end. */
  predicate IsFirstNew(es: seq<Entry>, from: nat, k: nat) {
    && k <= |es| && (forall j | 0 <= j < k :: es[j].id < from)
    && (k < |es| ==> es[k].id >= from)
  }

  class RedisQueue {
    var streams: map<Stream, seq<Entry>>
    var clock: nat
    var cursors: Cursors
    var pending: set<nat>
    var log: seq<Message>  // all additions in the order the server made them

    ghost predicate Valid()
      reads this
    {
      && Server().Valid() && clock == |log|
      && forall s: Stream :: s in streams && HoldsStream(streams[s], log, s)
    }

    function Server(): Broker
      reads this
    {
      Broker(log, cursors, pending)
    }

    constructor ()
      ensures Valid() && Server() == Broker([], Cursors(0, 0, 0), {})
    {
      streams := map[High := [], Normal := [], Low := []];
      clock, cursors, pending, log := 0, Cursors(0, 0, 0), {}, [];
      new;
      forall s: Stream ensures s in streams && streams[s] == [] {
        match s { case High => case Normal => case Low => }
      }
    }

    /** The state the commands of other clients have left the server in. */
    method Load(b: Broker)
      requires b.Valid()
      modifies this
      ensures Valid() && Server() == b
    {
      streams := map[High := Entries(b.log, High), Normal := Entries(b.log, Normal), Low := Entries(b.log, Low)];
      clock, cursors, pending, log := |b.log|, b.cursors, b.pending, b.log;
      forall s: Stream ensures s in streams && streams[s] == Entries(log, s) {
        match s { case High => case Normal => case Low => }
      }
    }

    /** XADD. The reply says whether the command ran and whether its answer arrived. */
    method Publish(m: Message, reply: Reply) returns (ok: bool)
      requires Valid()
      modifies this
      ensures Valid() && ok == reply.Delivered?
      ensures Server() == if reply.Refused? then old(Server()) else old(Server()).Add(m)
      ensures var s := if m.priority == 10 then High else if m.priority == 5 then Normal else Low;
              streams == if reply.Refused? then old(streams)
                         else old(streams)[s := old(streams[s]) + [Entry(|old(log)|, m)]]
      ensures log == (if reply.Refused? then old(log) else old(log) + [m])
              && cursors == old(cursors) && pending == old(pending)
    {
      if reply.Refused? {
        return false;
      }
      var stream := StreamOf(m.priority);
      ghost var before := log;
      hide Ids, HoldsStream;
      streams := streams[stream := streams[stream] + [Entry(clock, m)]];
      log := log + [m];
      clock := clock + 1;
      forall s: Stream ensures s in streams && HoldsStream(streams[s], log, s) {
        StreamTakesEntry(old(streams)[s], before, s, m);
      }
      return reply.Delivered?;
    }

    /** The position in stream `s` of the first entry past the group's cursor. */
    method FirstNew(s: Stream) returns (k: nat)
      requires Valid()
      ensures s in streams && IsFirstNew(streams[s], cursors.Of(s), k)
      ensures k == |streams[s]| ==> Server().Next(s) == |log|
      ensures k < |streams[s]| ==>
          Server().Next(s) < |log| && streams[s][k] == Entry(Server().Next(s), log[Server().Next(s)])
    {
      hide Ids, HoldsStream, NextFrom;
      assert HoldsStream(streams[s], log, s) && cursors.Of(s) <= |log|;
      k := 0;
      while k < |streams[s]| && streams[s][k].id < cursors.Of(s)
        invariant 0 <= k <= |streams[s]|
        invariant forall j | 0 <= j < k :: streams[s][j].id < cursors.Of(s)
      {
        k := k + 1;
      }
      ScanFindsNext(streams[s], log, s, cursors.Of(s), k);
    }

    /** XREADGROUP of at most one new entry from one stream. */
    method ReadGroup(s: Stream, reply: Reply) returns (r: Option<Entry>)
      requires Valid()
      modifies this`cursors, this`pending
      ensures Valid()
      ensures Server() == if reply.Refused? then old(Server()) else old(Server()).Deliver(s)
      ensures var i := old(Server().Next(s));
              r == if reply.Delivered? && i < |log| then Some(Entry(i, log[i])) else None
      ensures streams == old(streams) && log == old(log) && s in streams
      ensures exists k: nat | IsFirstNew(streams[s], old(cursors.Of(s)), k) ::
             if reply.Refused? || k == |streams[s]| then cursors == old(cursors) && pending == old(pending) && r.None?
             else var x := streams[s][k];
                  && r == (if reply.Delivered? then Some(x) else None)
                  && pending == old(pending) + {x.id} && cursors.Of(s) == x.id + 1
                  && forall t: Stream | t != s :: cursors.Of(t) == old(cursors.Of(t))
    {
      var k := FirstNew(s);
      if reply.Refused? || k == |streams[s]| {
        return None;
      }
      var e := streams[s][k];
      DeliverKeepsValid(Server(), s);
      cursors := cursors.With(s, e.id + 1);
      pending := pending + {e.id};
      assert Server() == old(Server()).Deliver(s);
      return if reply.Delivered? then Some(e) else None;
    }

    /** XACK. */
    method Ack(id: nat, reply: Reply) returns (ok: bool)
      requires Valid()
      modifies this
      ensures Valid() && ok == reply.Delivered?
      ensures Server() == if reply.Refused? then old(Server()) else old(Server()).Ack(id)
      ensures pending == if reply.Refused? then old(pending) else old(pending) - {id}
      ensures log == old(log) && cursors == old(cursors)
    {
      if reply.Refused? {
        return false;
      }
      pending := pending - {id};
      return reply.Delivered?;
    }
  }
}
