/**
 Delivery order while copies are being published. A copy can be overtaken by copies of lower classes only through
 workers that had already gone past its stream, and only once through each of them.
 */
module Inversions {
  import opened Events
  import opened EventStore
  import opened Streams
  import opened Protocol
  import opened ProtocolInvariant
  import opened ProtocolSteps
  import opened Drain

  /** The processes in mid-round below class `r`. */
  ghost function Below(s: State, r: nat): set<ProcId> {
    set p | p in s.procs && s.procs[p].Polling? && Rank(s.procs[p].stream) > r
  }

  /** How many of the ids are of a class lower than `r`. */
  function LowerCount(log: seq<Message>, ids: seq<nat>, r: nat): nat {
    if ids == [] then 0
    else LowerCount(log, ids[..|ids| - 1], r) + One(ClassRank(log, ids[|ids| - 1]) > r)
  }

  lemma {:induction false} LowerCountIsStable(log: seq<Message>, log': seq<Message>, ids: seq<nat>, r: nat)
    requires log <= log' && forall k | 0 <= k < |ids| :: ids[k] < |log|
    ensures LowerCount(log', ids, r) == LowerCount(log, ids, r)
  {
    if ids != [] {
      LowerCountIsStable(log, log', ids[..|ids| - 1], r);
    }
  }

  lemma LowerCountOfOneMore(log: seq<Message>, ids: seq<nat>, x: nat, r: nat)
    ensures LowerCount(log, ids + [x], r) == LowerCount(log, ids, r) + One(ClassRank(log, x) > r)
  {
    assert (ids + [x])[..|ids|] == ids;
  }

  lemma UndeliveredIsNext(b: Broker, i: nat)
    requires b.Valid() && i < |b.log| && !b.IsDelivered(i)
    ensures !Empty(b, StreamOf(b.log[i].priority))
  {
  }

  /** A worker that has been handed a message, or lost it, is no longer in mid-round. */
  lemma ReaderStartsOver(cfg: Config, s: State, p: ProcId, c: Choice)
    requires Enabled(s, Act(p, c)) && s.procs[p].Polling? && !Empty(s.broker, s.procs[p].stream)
    ensures var s' := Next(cfg, s, Act(p, c));
            p in s'.procs && (s'.procs[p].Polling? ==> s'.procs[p].stream == High)
  {
    hide ActPolling, NextFrom;
  }

  /** Nobody gets past a stream that has something new. */
  lemma NobodyPasses(cfg: Config, s: State, m: Move, i: nat)
    requires Enabled(s, m) && s.broker.Valid() && i < |s.broker.log| && !s.broker.IsDelivered(i)
    ensures var r := ClassRank(s.broker.log, i); Below(Next(cfg, s, m), r) <= Below(s, r)
  {
    hide Next, Empty;
    var t := StreamOf(s.broker.log[i].priority);
    UndeliveredIsNext(s.broker, i);
    forall q | q in Below(Next(cfg, s, m), Rank(t)) ensures q in Below(s, Rank(t)) {
      PollersAfter(cfg, s, m, q);
    }
  }

  /** What one move hands out of lower classes, it takes from those who had gone past. */
  lemma LowerDeliveryUsesAWorker(cfg: Config, s: State, m: Move, i: nat)
    requires Enabled(s, m) && s.broker.Valid() && i < |s.broker.log| && !s.broker.IsDelivered(i)
    ensures var s', r := Next(cfg, s, m), ClassRank(s.broker.log, i);
            || (s'.hist.deliveries == s.hist.deliveries && |Below(s', r)| <= |Below(s, r)|)
            || (exists x: nat :: x < |s.broker.log| && s'.hist.deliveries == s.hist.deliveries + [x]
                  && One(ClassRank(s.broker.log, x) > r) + |Below(s', r)| <= |Below(s, r)|)
  {
    hide Next, Empty;
    var s', r := Next(cfg, s, m), ClassRank(s.broker.log, i);
    DeliveryStep(cfg, s, m);
    NobodyPasses(cfg, s, m, i);
    SmallerSet(Below(s', r), Below(s, r));
    if !HandsOutNothing(s, s') {
      var p := m.actor;
      var x := s.broker.Next(s.procs[p].stream);
      assert s'.hist.deliveries == s.hist.deliveries + [x];
      if ClassRank(s.broker.log, x) > r {
        ReaderStartsOver(cfg, s, p, m.choice) by { SomethingNew(s.broker, s.procs[p].stream); }
        assert p in Below(s, r) && p !in Below(s', r);
        SmallerSet(Below(s', r), Below(s, r) - {p});
      }
    }
  }

  lemma SomethingNew(b: Broker, t: Stream)
    requires b.Next(t) < |b.log|
    ensures !Empty(b, t)
  {
  }

  lemma {:induction false} SmallerSet<T>(a: set<T>, b: set<T>)
    requires a <= b
    ensures |a| <= |b|
    decreases a
  {
    if a != {} {
      var x :| x in a;
      SmallerSet(a - {x}, b - {x});
    }
  }

  lemma DeliveredStays(cfg: Config, s: State, m: Move, i: nat)
    requires Enabled(s, m) && s.broker.Valid() && i < |s.broker.log| && s.broker.IsDelivered(i)
    ensures var b' := Next(cfg, s, m).broker; i < |b'.log| && b'.log[i] == s.broker.log[i] && b'.IsDelivered(i)
  {
    hide Next, NextFrom;
    DeliveryStep(cfg, s, m);
    if !HandsOutNothing(s, Next(cfg, s, m)) {
      DeliverKeepsValid(s.broker, s.procs[m.actor].stream);
    }
  }

  /**
   In every run, whatever is published meanwhile: while copy `i` stays undelivered, the copies of lower classes that
   are handed out are at most as many as the workers that stood below its stream, less those that still do.
   */
  lemma {:induction false} InversionsAreBounded(cfg: Config, moves: seq<Move>, more: seq<Move>, i: nat)
    requires Legal(cfg, moves) && Legal(cfg, moves + more)
    requires i < |After(cfg, moves).broker.log| && i < |After(cfg, moves + more).broker.log|
    requires !After(cfg, moves + more).broker.IsDelivered(i)
    ensures var s, s' := After(cfg, moves), After(cfg, moves + more);
            var r := ClassRank(s.broker.log, i);
            && s.hist.deliveries <= s'.hist.deliveries && s.broker.log <= s'.broker.log
            && LowerCount(s'.broker.log, s'.hist.deliveries[|s.hist.deliveries|..], r) + |Below(s', r)| <= |Below(s, r)|
  {
    hide Next, Enabled, Inv, Below, ClassRank;
    if more == [] {
      assert moves + more == moves;
    } else {
      var before, m := more[..|more| - 1], more[|more| - 1];
      assert (moves + more)[..|moves + more| - 1] == moves + before;
      var s, s1, s' := After(cfg, moves), After(cfg, moves + before), After(cfg, moves + more);
      assert s' == Next(cfg, s1, m);
      LogsGrow(cfg, moves, before);
      RunsKeepInv(cfg, moves + before);
      FactsOf(cfg, s1);
      if s1.broker.IsDelivered(i) {
        DeliveredStays(cfg, s1, m, i);
        assert false;
      }
      InversionsAreBounded(cfg, moves, before, i);
      OneMoreCounts(cfg, moves + before, m, s.hist.deliveries, i);
      SameClass(s.broker.log, s1.broker.log, i);
    }
  }

  lemma SameClass(log: seq<Message>, log': seq<Message>, i: nat)
    requires log <= log' && i < |log|
    ensures ClassRank(log', i) == ClassRank(log, i)
  {
  }

  lemma OneMoreCounts(cfg: Config, moves: seq<Move>, m: Move, first: seq<nat>, i: nat)
    requires Legal(cfg, moves) && Enabled(After(cfg, moves), m) && first <= After(cfg, moves).hist.deliveries
    requires i < |After(cfg, moves).broker.log| && !After(cfg, moves).broker.IsDelivered(i)
    ensures var s, s' := After(cfg, moves), Next(cfg, After(cfg, moves), m);
            var r, n := ClassRank(s.broker.log, i), |first|;
            && first <= s'.hist.deliveries && s.broker.log <= s'.broker.log
            && LowerCount(s'.broker.log, s'.hist.deliveries[n..], r) + |Below(s', r)|
               <= LowerCount(s.broker.log, s.hist.deliveries[n..], r) + |Below(s, r)|
  {
    hide Next, Enabled, Inv, Below, Legal, After, LowerCount, ClassRank;
    var s, s' := After(cfg, moves), Next(cfg, After(cfg, moves), m);
    var r, old_ := ClassRank(s.broker.log, i), s.hist.deliveries[|first|..];
    RunsKeepInv(cfg, moves);
    FactsOf(cfg, s);
    StreamsAreDeliveredInOrder(cfg, moves);
    DeliveryStep(cfg, s, m);
    LowerDeliveryUsesAWorker(cfg, s, m, i);
    LowerCountIsStable(s.broker.log, s'.broker.log, old_, r);
    if s'.hist.deliveries != s.hist.deliveries {
      var x: nat :| x < |s.broker.log| && s'.hist.deliveries == s.hist.deliveries + [x]
               && One(ClassRank(s.broker.log, x) > r) + |Below(s', r)| <= |Below(s, r)|;
      assert s'.hist.deliveries[|first|..] == old_ + [x];
      LowerCountOfOneMore(s.broker.log, old_, x, r);
      LowerCountIsStable(s.broker.log, s'.broker.log, old_ + [x], r);
    }
  }
}
