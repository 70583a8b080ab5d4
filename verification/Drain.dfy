/**
 Delivery order. Each stream is delivered once and in publish order in every run, and a backlog that
 nobody adds to is handed out as its stable sort by priority class, however the workers' probes interleave.
 */
module Drain {
  import opened Events
  import opened EventStore
  import opened Streams
  import opened Protocol
  import opened ProtocolInvariant
  import opened ProtocolSteps
  import opened Continuations

  // ---- The reference order ----

  function ClassRank(log: seq<Message>, i: nat): nat {
    if i < |log| then Rank(StreamOf(log[i].priority)) else 3
  }

  /** Puts `x` in front of the first id whose class is not higher. */
  function Insert(log: seq<Message>, x: nat, ids: seq<nat>): seq<nat> {
    if ids == [] || ClassRank(log, x) <= ClassRank(log, ids[0]) then [x] + ids
    else [ids[0]] + Insert(log, x, ids[1..])
  }

  /** Stable sort of message ids by descending priority class. */
  function StableSort(log: seq<Message>, ids: seq<nat>): seq<nat> {
    if ids == [] then [] else Insert(log, ids[0], StableSort(log, ids[1..]))
  }

  /** A higher class, or the same class and published earlier. */
  predicate GoesBefore(log: seq<Message>, i: nat, j: nat) {
    ClassRank(log, i) < ClassRank(log, j) || (ClassRank(log, i) == ClassRank(log, j) && i < j)
  }

  predicate Sorted(log: seq<Message>, ids: seq<nat>) {
    forall j, k | 0 <= j < k < |ids| :: GoesBefore(log, ids[j], ids[k])
  }

  lemma SortedWithHead(log: seq<Message>, x: nat, ids: seq<nat>)
    requires Sorted(log, ids) && forall k | 0 <= k < |ids| :: GoesBefore(log, x, ids[k])
    ensures Sorted(log, [x] + ids) && multiset([x] + ids) == multiset{x} + multiset(ids)
  {
    hide GoesBefore;
  }

  lemma {:induction false} InsertKeepsSorted(log: seq<Message>, x: nat, ids: seq<nat>)
    requires Sorted(log, ids) && forall k | 0 <= k < |ids| :: x < ids[k]
    ensures Sorted(log, Insert(log, x, ids)) && multiset(Insert(log, x, ids)) == multiset{x} + multiset(ids)
  {
    hide ClassRank;
    if ids == [] || ClassRank(log, x) <= ClassRank(log, ids[0]) {
      assert forall k | 0 < k < |ids| :: GoesBefore(log, ids[0], ids[k]);
      SortedWithHead(log, x, ids);
    } else {
      var rest := Insert(log, x, ids[1..]);
      InsertKeepsSorted(log, x, ids[1..]);
      assert ids == [ids[0]] + ids[1..];
      forall k | 0 <= k < |rest| ensures GoesBefore(log, ids[0], rest[k]) {
        assert rest[k] in multiset(rest);
        assert rest[k] == x || rest[k] in ids[1..];
      }
      SortedWithHead(log, ids[0], rest);
    }
  }

  /** The reference order is a stable sort: it rearranges the ids, and only across classes. */
  lemma {:induction false} StableSortSorts(log: seq<Message>, ids: seq<nat>)
    requires forall j, k | 0 <= j < k < |ids| :: ids[j] < ids[k]
    ensures Sorted(log, StableSort(log, ids)) && multiset(StableSort(log, ids)) == multiset(ids)
  {
    if ids != [] {
      var sorted := StableSort(log, ids[1..]);
      StableSortSorts(log, ids[1..]);
      assert ids == [ids[0]] + ids[1..];
      forall k | 0 <= k < |sorted| ensures ids[0] < sorted[k] {
        assert sorted[k] in multiset(sorted);
        assert sorted[k] in ids[1..];
      }
      InsertKeepsSorted(log, ids[0], sorted);
    }
  }

  /** Ids from `c` on that the group has not been handed yet, in publish order. */
  function Undelivered(b: Broker, c: nat): seq<nat>
    requires c <= |b.log|
    decreases |b.log| - c
  {
    if c == |b.log| then []
    else (if b.IsDelivered(c) then [] else [c]) + Undelivered(b, c + 1)
  }

  /** Every undelivered id from `c` on, in publish order and without repeats. */
  lemma {:induction false} UndeliveredInOrder(b: Broker, c: nat)
    requires c <= |b.log|
    ensures forall i | c <= i < |b.log| :: i in Undelivered(b, c) <==> !b.IsDelivered(i)
    ensures forall k | 0 <= k < |Undelivered(b, c)| :: c <= Undelivered(b, c)[k] < |b.log|
    ensures forall j, k | 0 <= j < k < |Undelivered(b, c)| :: Undelivered(b, c)[j] < Undelivered(b, c)[k]
    decreases |b.log| - c
  {
    if c < |b.log| {
      UndeliveredInOrder(b, c + 1);
    }
  }

  // ---- The order in which probes hand messages out ----

  /** Ids of stream `s` from `c` on. */
  function IdsFrom(log: seq<Message>, s: Stream, c: nat): seq<nat>
    requires c <= |log|
    decreases |log| - c
  {
    if c == |log| then []
    else (if StreamOf(log[c].priority) == s then [c] else []) + IdsFrom(log, s, c + 1)
  }

  function Max(a: nat, b: nat): nat { if a < b then b else a }

  function Left(b: Broker, s: Stream, c: nat): seq<nat>
    requires b.Valid() && c <= |b.log|
  {
    IdsFrom(b.log, s, Max(c, b.cursors.Of(s)))
  }

  /** High, then normal, then low, each in publish order. */
  function Backlog(b: Broker, c: nat): seq<nat>
    requires b.Valid() && c <= |b.log|
  {
    Left(b, High, c) + Left(b, Normal, c) + Left(b, Low, c)
  }

  lemma {:induction false} IdsFromAreOfStream(log: seq<Message>, s: Stream, c: nat)
    requires c <= |log|
    ensures forall k | 0 <= k < |IdsFrom(log, s, c)| :: ClassRank(log, IdsFrom(log, s, c)[k]) == Rank(s)
    decreases |log| - c
  {
    if c < |log| {
      IdsFromAreOfStream(log, s, c + 1);
    }
  }

  /** Insertion passes every id of a higher class. */
  lemma {:induction false} InsertPasses(log: seq<Message>, x: nat, before: seq<nat>, after: seq<nat>)
    requires forall k | 0 <= k < |before| :: ClassRank(log, before[k]) < ClassRank(log, x)
    requires after == [] || ClassRank(log, x) <= ClassRank(log, after[0])
    ensures Insert(log, x, before + after) == before + [x] + after
  {
    if before == [] {
      assert before + after == after;
    } else {
      InsertPasses(log, x, before[1..], after);
      assert (before + after)[1..] == before[1..] + after;
      assert before == [before[0]] + before[1..];
    }
  }

  ghost predicate AllOfRank(log: seq<Message>, ids: seq<nat>, r: nat) {
    forall k | 0 <= k < |ids| :: ClassRank(log, ids[k]) == r
  }

  /** `x` goes in front of its own class: behind what is higher, before what is lower. */
  lemma InsertAmongClasses(log: seq<Message>, x: nat, higher: seq<nat>, same: seq<nat>, lower: seq<nat>)
    requires forall k | 0 <= k < |higher| :: ClassRank(log, higher[k]) < ClassRank(log, x)
    requires AllOfRank(log, same, ClassRank(log, x))
    requires forall k | 0 <= k < |lower| :: ClassRank(log, lower[k]) > ClassRank(log, x)
    ensures Insert(log, x, higher + (same + lower)) == higher + (([x] + same) + lower)
  {
    hide Insert, ClassRank;
    var after := same + lower;
    assert after == [] || ClassRank(log, x) <= ClassRank(log, after[0]) by {
      assert same != [] ==> after[0] == same[0];
      assert same == [] && lower != [] ==> after[0] == lower[0];
    }
    InsertPasses(log, x, higher, after);
    PushFront(x, higher, same, lower);
  }

  lemma PushFront(x: nat, a: seq<nat>, b: seq<nat>, c: seq<nat>)
    ensures a + [x] + (b + c) == a + (([x] + b) + c)
  {
  }

  lemma InsertIntoBacklog(log: seq<Message>, x: nat, h: seq<nat>, n: seq<nat>, l: seq<nat>)
    requires AllOfRank(log, h, 0) && AllOfRank(log, n, 1) && AllOfRank(log, l, 2)
    ensures ClassRank(log, x) == 0 ==> Insert(log, x, h + n + l) == ([x] + h) + n + l
    ensures ClassRank(log, x) == 1 ==> Insert(log, x, h + n + l) == h + ([x] + n) + l
    ensures ClassRank(log, x) == 2 ==> Insert(log, x, h + n + l) == h + n + ([x] + l)
  {
    hide Insert;
    if ClassRank(log, x) == 0 {
      InsertAmongClasses(log, x, [], h, n + l);
      Regroup([], h, n, l);
      Regroup([], [x] + h, n, l);
    } else if ClassRank(log, x) == 1 {
      InsertAmongClasses(log, x, h, n, l);
      Regroup(h, n, l, []);
      Regroup(h, [x] + n, l, []);
    } else if ClassRank(log, x) == 2 {
      InsertAmongClasses(log, x, h + n, l, []);
      Regroup(h, n, l, []);
      Regroup(h, n, [x] + l, []);
    }
  }

  lemma Regroup(a: seq<nat>, b: seq<nat>, c: seq<nat>, d: seq<nat>)
    ensures a + (b + (c + d)) == a + b + c + d == a + b + (c + d) == a + (b + c) + d
    ensures [] + b == b && c + [] == c && a + (b + c) == a + b + c
  {
  }

  lemma LeftIsOfStream(b: Broker, s: Stream, c: nat)
    requires b.Valid() && c <= |b.log|
    ensures AllOfRank(b.log, Left(b, s, c), Rank(s))
  {
    IdsFromAreOfStream(b.log, s, Max(c, b.cursors.Of(s)));
  }

  /** What strict priority leaves to hand out is the undelivered backlog, stably sorted. */
  lemma {:induction false} BacklogIsStableSort(b: Broker, c: nat)
    requires b.Valid() && c <= |b.log|
    ensures StableSort(b.log, Undelivered(b, c)) == Backlog(b, c)
    decreases |b.log| - c
  {
    hide IdsFrom, Insert;
    if c < |b.log| {
      BacklogIsStableSort(b, c + 1);
      LeftSkips(b, c);
      if b.IsDelivered(c) {
        assert Undelivered(b, c) == Undelivered(b, c + 1);
      } else {
        var rest := Undelivered(b, c + 1);
        assert ([c] + rest)[1..] == rest;
        assert StableSort(b.log, [c] + rest) == Insert(b.log, c, Backlog(b, c + 1));
        LeftIsOfStream(b, High, c + 1);
        LeftIsOfStream(b, Normal, c + 1);
        LeftIsOfStream(b, Low, c + 1);
        InsertIntoBacklog(b.log, c, Left(b, High, c + 1), Left(b, Normal, c + 1), Left(b, Low, c + 1));
      }
    } else {
      NothingLeft(b);
    }
  }

  lemma NothingLeft(b: Broker)
    requires b.Valid()
    ensures Backlog(b, |b.log|) == []
  {
    assert forall s: Stream :: Max(|b.log|, b.cursors.Of(s)) == |b.log|;
  }

  /** Dropping id `c` changes at most its own stream's remainder. */
  lemma LeftSkips(b: Broker, c: nat)
    requires b.Valid() && c < |b.log|
    ensures forall t: Stream | t != StreamOf(b.log[c].priority) || b.IsDelivered(c) ::
              Left(b, t, c) == Left(b, t, c + 1)
    ensures !b.IsDelivered(c) ==>
              Left(b, StreamOf(b.log[c].priority), c) == [c] + Left(b, StreamOf(b.log[c].priority), c + 1)
  {
    forall t: Stream | t != StreamOf(b.log[c].priority) || b.IsDelivered(c)
      ensures Left(b, t, c) == Left(b, t, c + 1)
    {
      if b.cursors.Of(t) <= c {
        assert StreamOf(b.log[c].priority) != t;
        assert IdsFrom(b.log, t, c) == [] + IdsFrom(b.log, t, c + 1);
      }
    }
  }

  // ---- Every run ----

  /** A step either hands out the next message of the stream it probes, or hands out nothing. */
  ghost predicate HandsOut(s: State, s': State, stream: Stream) {
    var i := s.broker.Next(stream);
    i < |s.broker.log| && s'.broker == s.broker.Deliver(stream) && s'.hist.deliveries == s.hist.deliveries + [i]
  }

  ghost predicate HandsOutNothing(s: State, s': State) {
    && s'.hist.deliveries == s.hist.deliveries
    && s'.broker.cursors == s.broker.cursors && s.broker.log <= s'.broker.log
  }

  lemma DeliveryStep(cfg: Config, s: State, m: Move)
    requires Enabled(s, m)
    ensures var s' := Next(cfg, s, m);
            || HandsOutNothing(s, s')
            || (m.Act? && s.procs[m.actor].Polling? && HandsOut(s, s', s.procs[m.actor].stream))
  {
    hide ActPublishing, ActEnqueuing, ActPolling, ActClaiming, ActFinalizing, ActFailing,
      ActClosing, ActWaiting, ActReleasing, ActRequeuing, ActSweeping, ActResetting;
  }

  /** Exactly the ids below the cursors have been handed out, those of one stream in increasing order. */
  ghost predicate InOrder(b: Broker, deliveries: seq<nat>) {
    && (forall k | 0 <= k < |deliveries| :: deliveries[k] < |b.log| && b.IsDelivered(deliveries[k]))
    && (forall i | 0 <= i < |b.log| && b.IsDelivered(i) :: i in deliveries)
    && (forall j, k | 0 <= j < k < |deliveries|
                      && StreamOf(b.log[deliveries[j]].priority) == StreamOf(b.log[deliveries[k]].priority) ::
          deliveries[j] < deliveries[k])
  }

  lemma DeliverKeepsOrder(b: Broker, deliveries: seq<nat>, s: Stream)
    requires b.Valid() && InOrder(b, deliveries) && b.Next(s) < |b.log|
    ensures InOrder(b.Deliver(s), deliveries + [b.Next(s)])
  {
    var i, b' := b.Next(s), b.Deliver(s);
    DeliverKeepsValid(b, s);
    forall x | 0 <= x < |b'.log| && b'.IsDelivered(x) ensures x in deliveries + [i] {
      assert x == i || b.IsDelivered(x);
    }
  }

  lemma IdleKeepsOrder(b: Broker, b': Broker, deliveries: seq<nat>)
    requires b.Valid() && InOrder(b, deliveries) && b'.cursors == b.cursors && b.log <= b'.log
    ensures InOrder(b', deliveries)
  {
    assert forall i | 0 <= i < |b.log| :: b'.log[i] == b.log[i];
    forall i | 0 <= i < |b'.log| && b'.IsDelivered(i) ensures i in deliveries {
      assert i < |b.log| && b.IsDelivered(i);
    }
  }

  /** In every run a message is handed out at most once, and each stream without gaps in publish order. */
  lemma {:induction false} StreamsAreDeliveredInOrder(cfg: Config, moves: seq<Move>)
    requires Legal(cfg, moves)
    ensures InOrder(After(cfg, moves).broker, After(cfg, moves).hist.deliveries)
    ensures forall j, k | 0 <= j < k < |After(cfg, moves).hist.deliveries| ::
              After(cfg, moves).hist.deliveries[j] != After(cfg, moves).hist.deliveries[k]
  {
    hide Next, Inv;
    if moves != [] {
      var before, m := moves[..|moves| - 1], moves[|moves| - 1];
      var s, s' := After(cfg, before), After(cfg, moves);
      StreamsAreDeliveredInOrder(cfg, before);
      RunsKeepInv(cfg, before);
      FactsOf(cfg, s);
      DeliveryStep(cfg, s, m);
      if HandsOutNothing(s, s') {
        IdleKeepsOrder(s.broker, s'.broker, s.hist.deliveries);
      } else {
        DeliverKeepsOrder(s.broker, s.hist.deliveries, s.procs[m.actor].stream);
      }
    }
  }

  // ---- Runs without publications ----

  predicate Empty(b: Broker, s: Stream) {
    b.Next(s) == |b.log|
  }

  /** A worker about to probe `stream` cannot hand out anything ahead of its turn. */
  ghost predicate InTurn(b: Broker, stream: Stream) {
    || (forall t: Stream | Rank(t) < Rank(stream) :: Empty(b, t))
    || (forall t: Stream | Rank(t) >= Rank(stream) :: Empty(b, t))
  }

  ghost predicate PollersInTurn(s: State) {
    forall p | p in s.procs && s.procs[p].Polling? :: InTurn(s.broker, s.procs[p].stream)
  }

  lemma {:induction false} NextMonotone(log: seq<Message>, s: Stream, from: nat, to: nat)
    requires from <= to <= |log| && NextFrom(log, s, from) == |log|
    ensures NextFrom(log, s, to) == |log|
    decreases |log| - from
  {
    if from < to {
      NextMonotone(log, s, from + 1, to);
    }
  }

  /** Streams only get emptier while nothing is published. */
  lemma StaysEmpty(s: State, s': State, stream: Stream, t: Stream)
    requires s.broker.Valid() && s'.broker.log == s.broker.log && Empty(s.broker, t)
    requires HandsOutNothing(s, s') || HandsOut(s, s', stream)
    ensures Empty(s'.broker, t)
  {
    if HandsOut(s, s', stream) {
      DeliverKeepsValid(s.broker, stream);
      NextMonotone(s.broker.log, t, s.broker.cursors.Of(t), s'.broker.cursors.Of(t));
    }
  }

  lemma IdsFromFirst(log: seq<Message>, s: Stream, c: nat)
    requires c < |log|
    ensures IdsFrom(log, s, c)
            == if StreamOf(log[c].priority) == s then [c] + IdsFrom(log, s, c + 1) else IdsFrom(log, s, c + 1)
    ensures NextFrom(log, s, c) == if StreamOf(log[c].priority) == s then c else NextFrom(log, s, c + 1)
  {
    var rest := IdsFrom(log, s, c + 1);
    assert [] + rest == rest;
  }

  lemma {:induction false} IdsFromNext(log: seq<Message>, s: Stream, c: nat)
    requires c <= |log|
    ensures var i := NextFrom(log, s, c);
            IdsFrom(log, s, c) == if i == |log| then [] else [i] + IdsFrom(log, s, i + 1)
    decreases |log| - c
  {
    hide IdsFrom, NextFrom;
    if c < |log| {
      IdsFromFirst(log, s, c);
      IdsFromNext(log, s, c + 1);
    } else {
      IdsFromEnd(log, s);
    }
  }

  lemma IdsFromEnd(log: seq<Message>, s: Stream)
    ensures IdsFrom(log, s, |log|) == [] && NextFrom(log, s, |log|) == |log|
  {
  }

  /** A fair probe hands out the head of the backlog. */
  lemma ProbeTakesTheHead(b: Broker, s: Stream)
    requires b.Valid() && !Empty(b, s) && forall t: Stream | Rank(t) < Rank(s) :: Empty(b, t)
    ensures b.Deliver(s).Valid() && Backlog(b, 0) == [b.Next(s)] + Backlog(b.Deliver(s), 0)
  {
    hide Left, Empty;
    var b' := b.Deliver(s);
    DeliveryShortens(b, s);
    var h, n, l := Left(b', High, 0), Left(b', Normal, 0), Left(b', Low, 0);
    match s {
      case High =>
        Regroup([b.Next(s)], h, n, l);
      case Normal =>
        assert Empty(b, High);
        TakenFromSecond([b.Next(s)], n, l);
      case Low =>
        assert Empty(b, High) && Empty(b, Normal);
        assert h == [] && n == [];
        TakenFromSecond([b.Next(s)], l, []);
    }
  }

  lemma TakenFromSecond(a: seq<nat>, b: seq<nat>, c: seq<nat>)
    ensures [] + (a + b) + c == a + ([] + b + c)
    ensures [] + [] + (a + b) == a + ([] + [] + b)
  {
  }

  /** A delivery takes the next entry off its own stream's part of the backlog and leaves the other parts alone. */
  lemma DeliveryShortens(b: Broker, s: Stream)
    requires b.Valid() && !Empty(b, s)
    ensures var b' := b.Deliver(s);
            && b'.Valid()
            && Left(b, s, 0) == [b.Next(s)] + Left(b', s, 0)
            && (forall t: Stream | t != s :: Left(b, t, 0) == Left(b', t, 0))
            && (forall t: Stream | t != s && Empty(b, t) :: Left(b', t, 0) == [])
  {
    hide IdsFrom, NextFrom;
    DeliverKeepsValid(b, s);
    IdsFromNext(b.log, s, b.cursors.Of(s));
    forall t: Stream | t != s && Empty(b, t) ensures Left(b, t, 0) == [] {
      IdsFromNext(b.log, t, b.cursors.Of(t));
    }
  }

  /** Where a step leaves a process that goes on probing. */
  lemma PollersAfter(cfg: Config, s: State, m: Move, q: ProcId)
    requires Enabled(s, m) && q in Next(cfg, s, m).procs && Next(cfg, s, m).procs[q].Polling?
    ensures var k := Next(cfg, s, m).procs[q].stream;
            || k == High
            || (q in s.procs && s.procs[q] == Polling(k))
            || (q in s.procs && s.procs[q].Polling? && Empty(s.broker, s.procs[q].stream)
                && k == Following(s.procs[q].stream))
  {
    hide ActPublishing, ActEnqueuing, ActPolling, ActClaiming, ActFinalizing, ActFailing,
      ActClosing, ActWaiting, ActReleasing, ActRequeuing, ActSweeping, ActResetting, NextFrom;
  }

  lemma TurnsLast(cfg: Config, s: State, m: Move)
    requires Enabled(s, m) && s.broker.Valid() && PollersInTurn(s)
    requires Next(cfg, s, m).broker.log == s.broker.log
    ensures PollersInTurn(Next(cfg, s, m))
  {
    hide Next, Empty;
    var s' := Next(cfg, s, m);
    DeliveryStep(cfg, s, m);
    forall t: Stream ensures Empty(s.broker, t) ==> Empty(s'.broker, t) {
      if Empty(s.broker, t) {
        StaysEmpty(s, s', if m.Act? && s.procs[m.actor].Polling? then s.procs[m.actor].stream else High, t);
      }
    }
    forall q | q in s'.procs && s'.procs[q].Polling? ensures InTurn(s'.broker, s'.procs[q].stream) {
      PollersAfter(cfg, s, m, q);
      assert q in s.procs && s.procs[q].Polling? ==> InTurn(s.broker, s.procs[q].stream);
    }
  }

  /** One move of such a run without publications hands out the head of the backlog, or leaves it alone. */
  lemma MoveDrains(cfg: Config, s: State, m: Move)
    requires Enabled(s, m) && s.broker.Valid() && PollersInTurn(s)
    requires Next(cfg, s, m).broker.log == s.broker.log && Next(cfg, s, m).broker.Valid()
    ensures var s' := Next(cfg, s, m);
            || (s'.hist.deliveries == s.hist.deliveries && Backlog(s'.broker, 0) == Backlog(s.broker, 0))
            || (exists i ::
                  s'.hist.deliveries == s.hist.deliveries + [i]
                  && Backlog(s.broker, 0) == [i] + Backlog(s'.broker, 0))
  {
    hide Next, NextFrom, IdsFrom;
    DeliveryStep(cfg, s, m);
    if !HandsOutNothing(s, Next(cfg, s, m)) {
      assert InTurn(s.broker, s.procs[m.actor].stream);
      ProbeTakesTheHead(s.broker, s.procs[m.actor].stream);
    }
  }

  lemma {:induction false} DrainsInOrder(cfg: Config, moves: seq<Move>, more: seq<Move>)
    requires Legal(cfg, moves) && Legal(cfg, moves + more) && PollersInTurn(After(cfg, moves))
    requires After(cfg, moves + more).broker.log == After(cfg, moves).broker.log
    ensures var s, s' := After(cfg, moves), After(cfg, moves + more);
            && s.broker.Valid() && s'.broker.Valid() && PollersInTurn(s')
            && s.hist.deliveries <= s'.hist.deliveries
            && Backlog(s.broker, 0) == s'.hist.deliveries[|s.hist.deliveries|..] + Backlog(s'.broker, 0)
  {
    hide Next, Inv, Enabled, Backlog;
    RunsKeepInv(cfg, moves);
    RunsKeepInv(cfg, moves + more);
    FactsOf(cfg, After(cfg, moves));
    FactsOf(cfg, After(cfg, moves + more));
    if more == [] {
      assert moves + more == moves;
    } else {
      var before, m := more[..|more| - 1], more[|more| - 1];
      assert (moves + more)[..|moves + more| - 1] == moves + before;
      var s1 := After(cfg, moves + before);
      LogsGrow(cfg, moves, before);
      DeliveryStep(cfg, s1, m);
      assert s1.broker.log == After(cfg, moves).broker.log;
      DrainsInOrder(cfg, moves, before);
      TurnsLast(cfg, s1, m);
      MoveDrains(cfg, s1, m);
    }
  }

  lemma {:induction false} LogsGrow(cfg: Config, moves: seq<Move>, more: seq<Move>)
    requires Legal(cfg, moves) && Legal(cfg, moves + more)
    ensures After(cfg, moves).broker.log <= After(cfg, moves + more).broker.log
  {
    hide Next, Enabled;
    if more == [] {
      assert moves + more == moves;
    } else {
      var before, m := more[..|more| - 1], more[|more| - 1];
      assert (moves + more)[..|moves + more| - 1] == moves + before;
      LogsGrow(cfg, moves, before);
      DeliveryStep(cfg, After(cfg, moves + before), m);
    }
  }

  /** What was handed out between two moments, followed by what is left, is the stable sort of what there was. */
  ghost predicate DrainsSorted(s: State, s': State) {
    && s.hist.deliveries <= s'.hist.deliveries
    && StableSort(s.broker.log, Undelivered(s.broker, 0))
       == s'.hist.deliveries[|s.hist.deliveries|..] + StableSort(s'.broker.log, Undelivered(s'.broker, 0))
  }

  lemma InTurnDrainsSorted(cfg: Config, moves: seq<Move>, more: seq<Move>)
    requires Legal(cfg, moves) && Legal(cfg, moves + more) && PollersInTurn(After(cfg, moves))
    requires After(cfg, moves + more).broker.log == After(cfg, moves).broker.log
    ensures DrainsSorted(After(cfg, moves), After(cfg, moves + more))
  {
    hide Next, PollersInTurn, Backlog, StableSort, Undelivered;
    DrainsInOrder(cfg, moves, more);
    BacklogIsStableSort(After(cfg, moves).broker, 0);
    BacklogIsStableSort(After(cfg, moves + more).broker, 0);
  }

  /** The backlog starts with the next message of the highest stream that has one. */
  lemma HeadOfBacklog(b: Broker, t: Stream) returns (h: Stream)
    requires b.Valid() && !Empty(b, t)
    ensures Rank(h) <= Rank(t) && !Empty(b, h)
    ensures Backlog(b, 0) != [] && Backlog(b, 0)[0] == b.Next(h) && StreamOf(b.log[b.Next(h)].priority) == h
  {
    hide Backlog;
    h := if !Empty(b, High) then High else if !Empty(b, Normal) then Normal else Low;
    ProbeTakesTheHead(b, h);
  }

  /** A read of a stream with something new, while a higher one has something too, is out of turn. */
  lemma ReadOutOfTurn(cfg: Config, moves: seq<Move>, p: ProcId, t: Stream)
    requires Legal(cfg, moves) && p in After(cfg, moves).procs && After(cfg, moves).procs[p].Polling?
    requires var s := After(cfg, moves);
             !Empty(s.broker, s.procs[p].stream) && !Empty(s.broker, t) && Rank(t) < Rank(s.procs[p].stream)
    ensures Legal(cfg, moves + [Act(p, YES)])
    ensures var s, s' := After(cfg, moves), After(cfg, moves + [Act(p, YES)]);
            && s'.broker.log == s.broker.log
            && s'.hist.deliveries == s.hist.deliveries + [s.broker.Next(s.procs[p].stream)]
    ensures !DrainsSorted(After(cfg, moves), After(cfg, moves + [Act(p, YES)]))
  {
    KnownRows(cfg, moves);
    OneMore(cfg, moves, Act(p, YES));
    hide Legal, After, Next, Backlog, StableSort, Undelivered, ProcInv, Empty;
    var s, s' := After(cfg, moves), After(cfg, moves + [Act(p, YES)]);
    ReadsItsStream(cfg, s, p);
    var h := HeadOfBacklog(s.broker, t);
    BacklogIsStableSort(s.broker, 0);
    assert s'.hist.deliveries[|s.hist.deliveries|..] == [s.broker.Next(s.procs[p].stream)];
  }

  lemma ReadsItsStream(cfg: Config, s: State, p: ProcId)
    requires p in s.procs && s.procs[p].Polling? && s.broker.Valid() && !Empty(s.broker, s.procs[p].stream)
    ensures Enabled(s, Act(p, YES))
    ensures var i, s' := s.broker.Next(s.procs[p].stream), Next(cfg, s, Act(p, YES));
            && s'.broker.log == s.broker.log && s'.hist.deliveries == s.hist.deliveries + [i]
            && i < |s.broker.log| && StreamOf(s.broker.log[i].priority) == s.procs[p].stream
  {
    hide NextFrom;
  }

  /** A worker out of its turn at an empty stream goes on to the next. */
  lemma PassEmptyStream(cfg: Config, moves: seq<Move>, p: ProcId)
    requires Legal(cfg, moves) && p in After(cfg, moves).procs && After(cfg, moves).procs[p].Polling?
    requires Empty(After(cfg, moves).broker, After(cfg, moves).procs[p].stream)
    ensures Legal(cfg, moves + [Act(p, YES)])
    ensures var s, s' := After(cfg, moves), After(cfg, moves + [Act(p, YES)]);
            && s'.broker == s.broker && s'.hist.deliveries == s.hist.deliveries && p in s'.procs
            && s'.procs[p] == Polling(Following(s.procs[p].stream))
  {
    OneMore(cfg, moves, Act(p, YES));
    hide Legal, After, NextFrom;
  }

  lemma OutOfTurnBreaksTheOrder(cfg: Config, moves: seq<Move>) returns (more: seq<Move>)
    requires Legal(cfg, moves) && !PollersInTurn(After(cfg, moves))
    ensures Legal(cfg, moves + more) && After(cfg, moves + more).broker.log == After(cfg, moves).broker.log
    ensures !DrainsSorted(After(cfg, moves), After(cfg, moves + more))
  {
    hide Legal, After, Empty, StableSort, Undelivered;
    var s := After(cfg, moves);
    var p :| p in s.procs && s.procs[p].Polling? && !InTurn(s.broker, s.procs[p].stream);
    var t: Stream :| Rank(t) < Rank(s.procs[p].stream) && !Empty(s.broker, t);
    more := [Act(p, YES)];
    if Empty(s.broker, s.procs[p].stream) {
      PassEmptyStream(cfg, moves, p);
      ReadOutOfTurn(cfg, moves + more, p, t);
      Joined(moves, more, more);
      more := more + more;
    } else {
      ReadOutOfTurn(cfg, moves, p, t);
    }
  }

  /**
   While nothing is published, any number of workers with interleaved probes receive the backlog in its
   stable order by class, if and only if no worker is in mid-round out of its turn: each stands at a stream above
   which all are empty, or from which on all are empty.
   */
  lemma BacklogDrainsAsStableSortExactlyWhen(cfg: Config, moves: seq<Move>)
    requires Legal(cfg, moves)
    ensures PollersInTurn(After(cfg, moves)) <==>
              forall more |
                Legal(cfg, moves + more) && After(cfg, moves + more).broker.log == After(cfg, moves).broker.log ::
                DrainsSorted(After(cfg, moves), After(cfg, moves + more))
  {
    hide Legal, After, PollersInTurn, DrainsSorted;
    if PollersInTurn(After(cfg, moves)) {
      forall more | Legal(cfg, moves + more) && After(cfg, moves + more).broker.log == After(cfg, moves).broker.log
        ensures DrainsSorted(After(cfg, moves), After(cfg, moves + more))
      {
        InTurnDrainsSorted(cfg, moves, more);
      }
    } else {
      var more := OutOfTurnBreaksTheOrder(cfg, moves);
    }
  }

  /** What the classes mean in priorities. */
  lemma LargerPriorityGoesBefore(log: seq<Message>, i: nat, j: nat)
    requires i < |log| && j < |log| && log[i].priority > log[j].priority
    requires log[i].priority in {1, 5, 10} && log[j].priority in {1, 5, 10}
    ensures GoesBefore(log, i, j) && !GoesBefore(log, j, i)
  {
  }

  lemma SortedAt(log: seq<Message>, ids: seq<nat>, b: nat, a: nat)
    requires Sorted(log, ids) && b < a < |ids|
    ensures GoesBefore(log, ids[b], ids[a])
  {
  }

  /** In a sorted list that starts with `given`, whatever goes before an id of `given` stands before it there. */
  lemma SortedGivesFirst(log: seq<Message>, given: seq<nat>, left: seq<nat>, i: nat, b: nat)
    requires Sorted(log, given + left) && i in given + left && b < |given|
    requires !GoesBefore(log, given[b], i) && i != given[b]
    ensures exists a :: 0 <= a < b && given[a] == i
  {
    hide GoesBefore, Sorted;
    var a: nat :| a < |given + left| && (given + left)[a] == i;
    assert (given + left)[b] == given[b];
    if a > b {
      SortedAt(log, given + left, b, a);
      assert false;
    }
    assert given[a] == i;
  }

  /**
   Of two waiting copies with different priorities, workers in turn are given the one with the larger priority first,
   as long as nothing is published.
   */
  lemma LargerPriorityFirst(cfg: Config, moves: seq<Move>, more: seq<Move>, i: nat, j: nat)
    requires Legal(cfg, moves) && Legal(cfg, moves + more) && PollersInTurn(After(cfg, moves))
    requires After(cfg, moves + more).broker.log == After(cfg, moves).broker.log
    requires var b := After(cfg, moves).broker;
             && i < |b.log| && j < |b.log| && !b.IsDelivered(i) && !b.IsDelivered(j)
             && b.log[i].priority in {1, 5, 10} && b.log[j].priority in {1, 5, 10}
             && b.log[i].priority > b.log[j].priority
    requires After(cfg, moves + more).broker.IsDelivered(j)
    ensures var ds := After(cfg, moves + more).hist.deliveries;
            exists a, c :: |After(cfg, moves).hist.deliveries| <= a < c < |ds| && ds[a] == i && ds[c] == j
  {
    hide Legal, After, PollersInTurn, StableSort, Undelivered, Sorted, GoesBefore;
    var s, s' := After(cfg, moves), After(cfg, moves + more);
    var n := |s.hist.deliveries|;
    KnownRows(cfg, moves);
    KnownRows(cfg, moves + more);
    InTurnDrainsSorted(cfg, moves, more);
    StreamsAreDeliveredInOrder(cfg, moves);
    StreamsAreDeliveredInOrder(cfg, moves + more);
    var given, left := s'.hist.deliveries[n..], StableSort(s.broker.log, Undelivered(s'.broker, 0));
    WaitingIsSorted(s.broker, i);
    DeliveredSince(s.broker, s.hist.deliveries, s'.broker, s'.hist.deliveries, j);
    LargerPriorityGoesBefore(s.broker.log, i, j);
    hide InOrder, Broker.Valid, Broker.IsDelivered;
    GivenFirst(s.broker.log, s'.hist.deliveries, n, left, i, j);
  }

  lemma GivenFirst(log: seq<Message>, ds: seq<nat>, n: nat, left: seq<nat>, i: nat, j: nat)
    requires n <= |ds| && Sorted(log, ds[n..] + left) && i in ds[n..] + left
    requires !GoesBefore(log, j, i) && i != j && exists c :: n <= c < |ds| && ds[c] == j
    ensures exists a, c :: n <= a < c < |ds| && ds[a] == i && ds[c] == j
  {
    hide Sorted, GoesBefore;
    var given := ds[n..];
    var c :| n <= c < |ds| && ds[c] == j;
    assert given[c - n] == j;
    SortedGivesFirst(log, given, left, i, c - n);
    var a :| 0 <= a < c - n && given[a] == i;
    assert ds[n + a] == i;
  }

  lemma DeliveredSince(b: Broker, ds: seq<nat>, b': Broker, ds': seq<nat>, j: nat)
    requires InOrder(b, ds) && InOrder(b', ds') && ds <= ds' && b'.log == b.log
    requires j < |b.log| && !b.IsDelivered(j) && b'.IsDelivered(j)
    ensures exists c :: |ds| <= c < |ds'| && ds'[c] == j
  {
    var c :| 0 <= c < |ds'| && ds'[c] == j;
    assert forall x | 0 <= x < |ds| :: ds'[x] == ds[x] != j;
  }

  lemma WaitingIsSorted(b: Broker, i: nat)
    requires b.Valid() && i < |b.log| && !b.IsDelivered(i)
    ensures Sorted(b.log, StableSort(b.log, Undelivered(b, 0))) && i in StableSort(b.log, Undelivered(b, 0))
  {
    hide StableSort, Sorted;
    UndeliveredInOrder(b, 0);
    StableSortSorts(b.log, Undelivered(b, 0));
    assert i in multiset(Undelivered(b, 0));
  }
}
