/** The event life cycle: the transition table and the in-memory event that obeys it. */
module Events {

  datatype Option<+T> = None | Some(value: T)

  datatype Status = Received | Queued | Processing | Completed | Retrying | Failed

  predicate Terminal(s: Status) {
    s.Completed? || s.Failed?
  }

  /** The row of the transition table for one status. */
  function Successors(from: Status): set<Status> {
    match from
    case Received => {Queued}
    case Queued => {Processing}
    case Processing => {Completed, Retrying, Failed, Queued}
    case Retrying => {Queued}
    case Completed => {}
    case Failed => {}
  }

  predicate IsValidTransition(from: Status, to: Status) {
    to in Successors(from)
  }

  /** A condition as a count. */
  function One(b: bool): nat { if b then 1 else 0 }

  /** The status-bearing part of an in-memory event. */
  class Event {
    var status: Status
    var updatedAt: nat
    var completedAt: Option<nat>

    constructor (now: nat)
      ensures status == Received && updatedAt == now && completedAt == None
    {
      status, updatedAt, completedAt := Received, now, None;
    }

    /** `completedAt` is stamped for COMPLETED only: unlike the store, a FAILED event stays unstamped here. */
    method TransitionTo(to: Status, now: nat) returns (ok: bool)
      modifies this
      ensures ok <==> IsValidTransition(old(status), to)
      ensures ok <==> match old(status)
                      case Received => to.Queued?
                      case Queued => to.Processing?
                      case Processing => to.Completed? || to.Retrying? || to.Failed? || to.Queued?
                      case Retrying => to.Queued?
                      case Completed => false
                      case Failed => false
      ensures ok ==> status == to && updatedAt == now
      ensures ok && to.Completed? ==> completedAt == Some(now)
      ensures ok && !to.Completed? ==> completedAt == old(completedAt)
      ensures !ok ==> unchanged(this)
      ensures Terminal(old(status)) ==> !ok
    {
      if !IsValidTransition(status, to) {
        return false;
      }
      status := to;
      updatedAt := now;
      if to.Completed? {
        completedAt := Some(now);
      }
      return true;
    }
  }
}

/** Histories of committed status writes, and what every path through the transition table conserves. */
module Trails {
  import opened Events

  /** One committed status write, and the process that made it. */
  datatype Write<P> = Write(who: P, from: Status, to: Status)

  /** `ws` is a path of valid transitions from RECEIVED to `last`. */
  predicate IsPath<P>(ws: seq<Write<P>>, last: Status) {
    if ws == [] then last == Received
    else
      var w := ws[|ws| - 1];
      w.to == last && IsValidTransition(w.from, last) && IsPath(ws[..|ws| - 1], w.from)
  }

  function Count<P>(ws: seq<Write<P>>, from: Status, to: Status): nat {
    if ws == [] then 0
    else
      var w := ws[|ws| - 1];
      Count(ws[..|ws| - 1], from, to) + if w.from == from && w.to == to then 1 else 0
  }

  function Claims<P>(ws: seq<Write<P>>): nat { Count(ws, Queued, Processing) }
  function Completions<P>(ws: seq<Write<P>>): nat { Count(ws, Processing, Completed) }
  function SoftFailures<P>(ws: seq<Write<P>>): nat { Count(ws, Processing, Retrying) }
  function HardFailures<P>(ws: seq<Write<P>>): nat { Count(ws, Processing, Failed) }
  function Failures<P>(ws: seq<Write<P>>): nat { SoftFailures(ws) + HardFailures(ws) }
  function Recoveries<P>(ws: seq<Write<P>>): nat { Count(ws, Processing, Queued) }

  /** How far into one attempt a row of status `s` is, in status writes. */
  function Offset(s: Status): nat {
    match s
    case Received => 0
    case Queued => 1
    case Processing => 2
    case Completed => 3
    case Retrying => 0
    case Failed => 0
  }

  lemma Extend<P>(ws: seq<Write<P>>, w: Write<P>)
    ensures forall f, t :: Count(ws + [w], f, t) == Count(ws, f, t) + One(w.from == f && w.to == t)
    ensures IsPath(ws, w.from) && IsValidTransition(w.from, w.to) ==> IsPath(ws + [w], w.to)
  {
    assert (ws + [w])[..|ws|] == ws;
  }

  /** Flow conservation: what enters a status leaves it again, unless the path ends there. */
  lemma {:induction false} FlowConserved<P>(ws: seq<Write<P>>, last: Status)
    requires IsPath(ws, last)
    ensures Claims(ws) == Completions(ws) + Failures(ws) + Recoveries(ws) + One(last.Processing?)
    ensures Count(ws, Received, Queued) + Count(ws, Retrying, Queued) + Recoveries(ws) == Claims(ws) + One(last.Queued?)
    ensures SoftFailures(ws) == Count(ws, Retrying, Queued) + One(last.Retrying?)
    ensures Completions(ws) == One(last.Completed?) && HardFailures(ws) == One(last.Failed?)
    ensures |ws| == 3 * Failures(ws) + 2 * Recoveries(ws) + Offset(last)
  {
    hide Count, Claims, Completions, SoftFailures, HardFailures, Recoveries;
    if ws == [] {
      NothingCounted<P>();
    } else {
      var before, w := ws[..|ws| - 1], ws[|ws| - 1];
      FlowConserved(before, w.from);
      assert ws == before + [w];
      LastWriteCounts(before, w);
    }
  }

  /** One valid write changes one of the counts that take part in the flow. */
  lemma LastWriteCounts<P>(ws: seq<Write<P>>, w: Write<P>)
    requires IsValidTransition(w.from, w.to)
    ensures var ws' := ws + [w];
            && Claims(ws') == Claims(ws) + One(w.to.Processing?)
            && Completions(ws') == Completions(ws) + One(w.to.Completed?)
            && SoftFailures(ws') == SoftFailures(ws) + One(w.to.Retrying?)
            && HardFailures(ws') == HardFailures(ws) + One(w.to.Failed?)
            && Recoveries(ws') == Recoveries(ws) + One(w.from.Processing? && w.to.Queued?)
            && Count(ws', Received, Queued) == Count(ws, Received, Queued) + One(w.from.Received?)
            && Count(ws', Retrying, Queued) == Count(ws, Retrying, Queued) + One(w.from.Retrying?)
  {
    hide Count;
    Extend(ws, w);
  }

  lemma NothingCounted<P>()
    ensures Count<P>([], Received, Queued) == Count<P>([], Retrying, Queued) == 0
    ensures Claims<P>([]) == Completions<P>([]) == Recoveries<P>([]) == 0
    ensures SoftFailures<P>([]) == HardFailures<P>([]) == 0
  {
  }

  /** Every prefix of a path is a path, so at most one claim is ever open. */
  lemma {:induction false} ClaimsNeverOverlap<P>(ws: seq<Write<P>>, last: Status, n: nat)
    requires IsPath(ws, last) && n <= |ws|
    ensures var closed := Completions(ws[..n]) + Failures(ws[..n]) + Recoveries(ws[..n]);
            closed <= Claims(ws[..n]) <= closed + 1
  {
    if n == |ws| {
      assert ws[..n] == ws;
      FlowConserved(ws, last);
    } else {
      ClaimsNeverOverlap(ws[..|ws| - 1], ws[|ws| - 1].from, n);
      assert ws[..|ws| - 1][..n] == ws[..n];
    }
  }
}
