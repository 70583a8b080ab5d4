/**
 The dashboard's message handler, and what its state says about the messages handled. Parsing a line is a parameter;
 a line that parses to `null` has no type to look at, so reading it throws and the rest of its frame is lost.
 */
module Dashboards {
  import opened Events
  import opened Frames

  datatype Message =
    | EventReceived(event: string)
    | EventProcessing(event: string, worker: string)
    | EventCompleted(event: string)
    | EventFailed(event: string)
    | WorkerOnline(worker: string)
    | WorkerOffline(worker: string)
    | Unknown

  datatype Parsed = Malformed | Null | Parsed(msg: Message)

  datatype RecentEvent = RecentEvent(id: nat, event: string, status: Status)

  const MAX_RECENT_EVENTS: nat := 100

  datatype View = View(
    active: set<string>,
    completed: nat,
    failed: nat,
    recent: seq<RecentEvent>,
    ids: nat)

  const BLANK: View := View({}, 0, 0, [], 0)

  /** The status a message puts into the feed, if it does. */
  function Shown(m: Message): Option<Status> {
    match m
    case EventReceived(_) => Some(Received)
    case EventProcessing(_, _) => Some(Processing)
    case EventCompleted(_) => Some(Completed)
    case EventFailed(_) => Some(Failed)
    case _ => None
  }

  function EventOf(m: Message): string
    requires Shown(m).Some?
  {
    match m
    case EventReceived(e) => e
    case EventProcessing(e, _) => e
    case EventCompleted(e) => e
    case EventFailed(e) => e
  }

  function Newest(recent: seq<RecentEvent>): seq<RecentEvent> {
    if |recent| <= MAX_RECENT_EVENTS then recent else recent[..MAX_RECENT_EVENTS]
  }

  function Apply(v: View, m: Message): View {
    var v1 := match m
              case EventCompleted(_) => v.(completed := v.completed + 1)
              case EventFailed(_) => v.(failed := v.failed + 1)
              case WorkerOnline(w) => v.(active := v.active + {w})
              case WorkerOffline(w) => v.(active := v.active - {w})
              case _ => v;
    if Shown(m).None? then v1
    else
      v1.(recent := Newest([RecentEvent(v.ids + 1, EventOf(m), Shown(m).value)] + v.recent), ids := v.ids + 1)
  }

  /** One frame's lines, up to one that throws. */
  function Handle(v: View, parse: string -> Parsed, lines: seq<string>): View
    decreases |lines|
  {
    if lines == [] then v
    else
      match parse(lines[0])
      case Malformed => Handle(v, parse, lines[1..])
      case Null => v
      case Parsed(m) => Handle(Apply(v, m), parse, lines[1..])
  }

  /** Frames one after another. */
  function HandleFrames(v: View, parse: string -> Parsed, frames: seq<string>): View {
    if frames == [] then v
    else Handle(HandleFrames(v, parse, frames[..|frames| - 1]), parse, Lines(frames[|frames| - 1]))
  }

  class Dashboard {
    const parse: string -> Parsed
    var activeWorkers: set<string>
    var completedCount: nat
    var failedCount: nat
    var recentEvents: seq<RecentEvent>
    var idCounter: nat

    constructor (parse: string -> Parsed)
      ensures this.parse == parse && Shows() == BLANK
    {
      this.parse := parse;
      activeWorkers, completedCount, failedCount, recentEvents, idCounter := {}, 0, 0, [], 0;
    }

    function Shows(): View
      reads this
    {
      View(activeWorkers, completedCount, failedCount, recentEvents, idCounter)
    }

    method Remember(event: string, status: Status)
      modifies this`recentEvents, this`idCounter
      ensures idCounter == old(idCounter) + 1
      ensures recentEvents == Newest([RecentEvent(idCounter, event, status)] + old(recentEvents))
    {
      idCounter := idCounter + 1;
      recentEvents := [RecentEvent(idCounter, event, status)] + recentEvents;
      if |recentEvents| > MAX_RECENT_EVENTS {
        recentEvents := recentEvents[..MAX_RECENT_EVENTS];
      }
    }

    method Dispatch(m: Message)
      modifies this
      ensures Shows() == Apply(old(Shows()), m)
      ensures completedCount == old(completedCount) + (if m.EventCompleted? then 1 else 0)
      ensures failedCount == old(failedCount) + (if m.EventFailed? then 1 else 0)
      ensures activeWorkers == match m
                               case WorkerOnline(w) => old(activeWorkers) + {w}
                               case WorkerOffline(w) => old(activeWorkers) - {w}
                               case _ => old(activeWorkers)
      ensures var id := old(idCounter) + 1;
              var entry := match m
                           case EventReceived(e) => [RecentEvent(id, e, Received)]
                           case EventProcessing(e, _) => [RecentEvent(id, e, Processing)]
                           case EventCompleted(e) => [RecentEvent(id, e, Completed)]
                           case EventFailed(e) => [RecentEvent(id, e, Failed)]
                           case _ => [];
              && idCounter == (if entry == [] then old(idCounter) else id)
              && (if entry == [] then recentEvents == old(recentEvents)
                  else var all := entry + old(recentEvents);
                       recentEvents == if |all| <= 100 then all else all[..100])
    {
      match m
      case EventReceived(e) =>
        Remember(e, Received);
      case EventProcessing(e, _) =>
        Remember(e, Processing);
      case EventCompleted(e) =>
        completedCount := completedCount + 1;
        Remember(e, Completed);
      case EventFailed(e) =>
        failedCount := failedCount + 1;
        Remember(e, Failed);
      case WorkerOnline(w) =>
        activeWorkers := activeWorkers + {w};
      case WorkerOffline(w) =>
        activeWorkers := activeWorkers - {w};
      case Unknown =>
    }

    /** `thrown` is true when a line parsed to `null`. */
    method HandleMessage(raw: string) returns (thrown: bool)
      modifies this
      ensures Shows() == Handle(old(Shows()), parse, Lines(raw))
      ensures thrown <==> exists line :: line in Lines(raw) && parse(line).Null?
    {
      hide Apply, Lines;
      var segments := Split(raw);
      assert Lines(raw) == NonBlank(segments) by { LinesAreNonBlank(raw); }
      var i := 0;
      assert segments[0..] == segments;
      while i < |segments|
        invariant 0 <= i <= |segments|
        invariant Handle(old(Shows()), parse, NonBlank(segments)) == Handle(Shows(), parse, NonBlank(segments[i..]))
        invariant forall line | line in NonBlank(segments) :: line in NonBlank(segments[i..]) || !parse(line).Null?
        invariant forall line | line in NonBlank(segments[i..]) :: line in NonBlank(segments)
      {
        var trimmed := Trim(segments[i]);
        assert segments[i..][0] == segments[i] && segments[i..][1..] == segments[i + 1..];
        i := i + 1;
        if trimmed == "" {
          assert NonBlank(segments[i - 1..]) == NonBlank(segments[i..]);
          continue;
        }
        ghost var left := NonBlank(segments[i - 1..]);
        assert left == [trimmed] + NonBlank(segments[i..]);
        assert left[0] == trimmed && left[1..] == NonBlank(segments[i..]);
        match parse(trimmed) {
          case Malformed =>
          case Null =>
            assert trimmed in left;
            return true;
          case Parsed(m) =>
            Dispatch(m);
        }
      }
      return false;
    }
  }

  lemma LinesAreNonBlank(raw: string)
    ensures Lines(raw) == NonBlank(Split(raw))
  {
  }

  // ---- Batching ----

  ghost predicate NoneThrows(parse: string -> Parsed, lines: seq<string>) {
    forall line | line in lines :: !parse(line).Null?
  }

  lemma {:induction false} HandleBoth(v: View, parse: string -> Parsed, a: seq<string>, b: seq<string>)
    requires NoneThrows(parse, a)
    ensures Handle(v, parse, a + b) == Handle(Handle(v, parse, a), parse, b)
    decreases |a|
  {
    hide Apply;
    if a == [] {
      assert a + b == b;
    } else {
      assert (a + b)[0] == a[0] && (a + b)[1..] == a[1..] + b;
      HandleBoth(if parse(a[0]).Parsed? then Apply(v, parse(a[0]).msg) else v, parse, a[1..], b);
    }
  }

  /** However messages were batched into frames, the dashboard ends up where the lines one by one would have put it. */
  lemma {:induction false} FramingIsInvisible(v: View, parse: string -> Parsed, frames: seq<string>)
    requires NoneThrows(parse, Flat(frames))
    ensures HandleFrames(v, parse, frames) == Handle(v, parse, Flat(frames))
  {
    hide Lines;
    if frames != [] {
      var before, last := frames[..|frames| - 1], frames[|frames| - 1];
      assert Flat(frames) == Flat(before) + Lines(last);
      FramingIsInvisible(v, parse, before);
      HandleBoth(v, parse, Flat(before), Lines(last));
    }
  }

  // ---- What the state says ----

  function Messages(parse: string -> Parsed, lines: seq<string>): seq<Message> {
    if lines == [] then []
    else
      var p := parse(lines[0]);
      (if p.Parsed? then [p.msg] else []) + Messages(parse, lines[1..])
  }

  function ApplyAll(v: View, ms: seq<Message>): View
    decreases |ms|
  {
    if ms == [] then v else ApplyAll(Apply(v, ms[0]), ms[1..])
  }

  function Total(ms: seq<Message>, of: Message -> bool): nat {
    if ms == [] then 0 else (if of(ms[0]) then 1 else 0) + Total(ms[1..], of)
  }

  /** The last thing said about a worker. */
  function LastWord(ms: seq<Message>, w: string): Option<bool> {
    if ms == [] then None
    else
      var m := ms[|ms| - 1];
      if m == WorkerOnline(w) then Some(true)
      else if m == WorkerOffline(w) then Some(false)
      else LastWord(ms[..|ms| - 1], w)
  }

  /** The feed entries of some messages, newest first, when `ids` entries have been numbered before. */
  function Entries(ms: seq<Message>, ids: nat): seq<RecentEvent> {
    if ms == [] then []
    else if Shown(ms[0]).None? then Entries(ms[1..], ids)
    else Entries(ms[1..], ids + 1) + [RecentEvent(ids + 1, EventOf(ms[0]), Shown(ms[0]).value)]
  }

  /** What is read of a frame's lines: those before the first that parses to `null`. */
  function UpToNull(parse: string -> Parsed, lines: seq<string>): seq<string> {
    if lines == [] || parse(lines[0]).Null? then [] else [lines[0]] + UpToNull(parse, lines[1..])
  }

  /** The messages read of some frames. */
  function Read(parse: string -> Parsed, frames: seq<string>): seq<Message> {
    if frames == [] then []
    else Read(parse, frames[..|frames| - 1]) + Messages(parse, UpToNull(parse, Lines(frames[|frames| - 1])))
  }

  /** No line that parses to a message comes after one that parses to `null`. */
  ghost predicate NothingBehindANull(parse: string -> Parsed, lines: seq<string>) {
    forall i, j | 0 <= i < j < |lines| && parse(lines[i]).Null? :: !parse(lines[j]).Parsed?
  }

  lemma {:induction false} HandleApplies(v: View, parse: string -> Parsed, lines: seq<string>)
    ensures Handle(v, parse, lines) == ApplyAll(v, Messages(parse, UpToNull(parse, lines)))
    decreases |lines|
  {
    hide Apply;
    if lines != [] && !parse(lines[0]).Null? {
      var p, rest := parse(lines[0]), UpToNull(parse, lines[1..]);
      assert ([lines[0]] + rest)[1..] == rest;
      HandleApplies(if p.Parsed? then Apply(v, p.msg) else v, parse, lines[1..]);
      if p.Parsed? {
        assert ([p.msg] + Messages(parse, rest))[1..] == Messages(parse, rest);
      } else {
        assert [] + Messages(parse, rest) == Messages(parse, rest);
      }
    }
  }

  lemma {:induction false} ApplyBoth(v: View, a: seq<Message>, b: seq<Message>)
    ensures ApplyAll(v, a + b) == ApplyAll(ApplyAll(v, a), b)
    decreases |a|
  {
    hide Apply;
    if a == [] {
      assert a + b == b;
    } else {
      assert (a + b)[0] == a[0] && (a + b)[1..] == a[1..] + b;
      ApplyBoth(Apply(v, a[0]), a[1..], b);
    }
  }

  /** Any frames leave the dashboard where the messages before the first `null` of each of them put it. */
  lemma {:induction false} FramesAreReadUpToNull(v: View, parse: string -> Parsed, frames: seq<string>)
    ensures HandleFrames(v, parse, frames) == ApplyAll(v, Read(parse, frames))
  {
    hide Lines, Apply;
    if frames != [] {
      var before, last := frames[..|frames| - 1], Lines(frames[|frames| - 1]);
      FramesAreReadUpToNull(v, parse, before);
      HandleApplies(HandleFrames(v, parse, before), parse, last);
      ApplyBoth(v, Read(parse, before), Messages(parse, UpToNull(parse, last)));
    }
  }

  lemma {:induction false} NullKeepsOut(parse: string -> Parsed, lines: seq<string>)
    ensures |Messages(parse, UpToNull(parse, lines))| <= |Messages(parse, lines)|
    ensures Messages(parse, UpToNull(parse, lines)) == Messages(parse, lines) <==> NothingBehindANull(parse, lines)
  {
    hide NothingBehindANull;
    if lines == [] {
      NothingBehindNone(parse);
    } else if parse(lines[0]).Null? {
      NoMessages(parse, lines[1..]);
      BehindANull(parse, lines);
    } else {
      NullKeepsOut(parse, lines[1..]);
      FirstIsRead(parse, lines);
      BehindTheFirst(parse, lines);
      var head := if parse(lines[0]).Parsed? then [parse(lines[0]).msg] else [];
      var some, all := Messages(parse, UpToNull(parse, lines[1..])), Messages(parse, lines[1..]);
      assert (head + some)[|head|..] == some && (head + all)[|head|..] == all;
    }
  }

  lemma FirstIsRead(parse: string -> Parsed, lines: seq<string>)
    requires lines != [] && !parse(lines[0]).Null?
    ensures var p := parse(lines[0]);
            var head := if p.Parsed? then [p.msg] else [];
            && Messages(parse, lines) == head + Messages(parse, lines[1..])
            && Messages(parse, UpToNull(parse, lines)) == head + Messages(parse, UpToNull(parse, lines[1..]))
  {
    var rest := UpToNull(parse, lines[1..]);
    assert ([lines[0]] + rest)[1..] == rest;
  }

  lemma NothingBehindNone(parse: string -> Parsed)
    ensures NothingBehindANull(parse, [])
  {
  }

  lemma BehindANull(parse: string -> Parsed, lines: seq<string>)
    requires lines != [] && parse(lines[0]).Null?
    ensures NothingBehindANull(parse, lines)
            <==> forall j | 0 <= j < |lines| - 1 :: !parse(lines[1..][j]).Parsed?
  {
    if NothingBehindANull(parse, lines) {
      forall j | 0 <= j < |lines| - 1 ensures !parse(lines[1..][j]).Parsed? {
        assert lines[1..][j] == lines[j + 1];
      }
    }
    if forall j | 0 <= j < |lines| - 1 :: !parse(lines[1..][j]).Parsed? {
      forall i, j | 0 <= i < j < |lines| && parse(lines[i]).Null? ensures !parse(lines[j]).Parsed? {
        assert lines[j] == lines[1..][j - 1];
      }
    }
  }

  lemma {:induction false} NoMessages(parse: string -> Parsed, lines: seq<string>)
    ensures Messages(parse, lines) == [] <==> forall j | 0 <= j < |lines| :: !parse(lines[j]).Parsed?
  {
    if lines != [] {
      NoMessages(parse, lines[1..]);
      assert forall j | 0 <= j < |lines| - 1 :: lines[1..][j] == lines[j + 1];
      if Messages(parse, lines) == [] {
        forall j | 0 <= j < |lines| ensures !parse(lines[j]).Parsed? {
          assert j > 0 ==> lines[j] == lines[1..][j - 1];
        }
      }
    }
  }

  lemma BehindTheFirst(parse: string -> Parsed, lines: seq<string>)
    requires lines != [] && !parse(lines[0]).Null?
    ensures NothingBehindANull(parse, lines) <==> NothingBehindANull(parse, lines[1..])
  {
    if NothingBehindANull(parse, lines[1..]) {
      forall i, j | 0 <= i < j < |lines| && parse(lines[i]).Null? ensures !parse(lines[j]).Parsed? {
        assert lines[i] == lines[1..][i - 1] && lines[j] == lines[1..][j - 1];
      }
    }
    if NothingBehindANull(parse, lines) {
      forall i, j | 0 <= i < j < |lines| - 1 && parse(lines[1..][i]).Null? ensures !parse(lines[1..][j]).Parsed? {
        assert lines[1..][i] == lines[i + 1] && lines[1..][j] == lines[j + 1];
      }
    }
  }

  lemma {:induction false} MessagesOfBoth(parse: string -> Parsed, a: seq<string>, b: seq<string>)
    ensures Messages(parse, a + b) == Messages(parse, a) + Messages(parse, b)
    decreases |a|
  {
    if a == [] {
      assert a + b == b;
    } else {
      var p := parse(a[0]);
      var head, more := if p.Parsed? then [p.msg] else [], Messages(parse, a[1..]);
      MessagesOfBoth(parse, a[1..], b);
      assert (a + b)[0] == a[0] && (a + b)[1..] == a[1..] + b;
      assert Messages(parse, a + b) == head + Messages(parse, a[1..] + b);
      assert head + (more + Messages(parse, b)) == (head + more) + Messages(parse, b);
    }
  }

  lemma {:induction false} AtMostTheMessagesAreRead(parse: string -> Parsed, frames: seq<string>)
    ensures |Read(parse, frames)| <= |Messages(parse, Flat(frames))|
  {
    hide Lines;
    if frames != [] {
      var before, last := frames[..|frames| - 1], Lines(frames[|frames| - 1]);
      AtMostTheMessagesAreRead(parse, before);
      NullKeepsOut(parse, last);
      MessagesOfBoth(parse, Flat(before), last);
    }
  }

  /**
   No message of any frames is lost exactly when in none of the frames one comes after a line that parses to `null`;
   then, and only then, how lines were batched does not matter to what is read.
   */
  lemma {:induction false} EveryMessageIsReadExactlyWhen(parse: string -> Parsed, frames: seq<string>)
    ensures Read(parse, frames) == Messages(parse, Flat(frames))
            <==> forall k | 0 <= k < |frames| :: NothingBehindANull(parse, Lines(frames[k]))
  {
    hide Lines, NothingBehindANull, Messages, UpToNull;
    if frames != [] {
      var n := |frames| - 1;
      var before, last := frames[..n], Lines(frames[n]);
      EveryMessageIsReadExactlyWhen(parse, before);
      AtMostTheMessagesAreRead(parse, before);
      NullKeepsOut(parse, last);
      LastFrame(parse, frames);
      hide Read, Flat;
      BothOrNeither(Read(parse, before), Messages(parse, Flat(before)),
                    Messages(parse, UpToNull(parse, last)), Messages(parse, last));
      assert forall k | 0 <= k < n :: before[k] == frames[k];
    } else {
      NoFramesNoMessages(parse);
    }
  }

  lemma NoFramesNoMessages(parse: string -> Parsed)
    ensures Read(parse, []) == Messages(parse, Flat([])) == []
  {
  }

  lemma LastFrame(parse: string -> Parsed, frames: seq<string>)
    requires frames != []
    ensures var before, last := frames[..|frames| - 1], Lines(frames[|frames| - 1]);
            && Read(parse, frames) == Read(parse, before) + Messages(parse, UpToNull(parse, last))
            && Messages(parse, Flat(frames)) == Messages(parse, Flat(before)) + Messages(parse, last)
  {
    hide Lines, Messages, UpToNull;
    MessagesOfBoth(parse, Flat(frames[..|frames| - 1]), Lines(frames[|frames| - 1]));
  }

  lemma BothOrNeither<T>(a: seq<T>, a': seq<T>, b: seq<T>, b': seq<T>)
    requires |a| <= |a'| && |b| <= |b'|
    ensures a + b == a' + b' <==> a == a' && b == b'
  {
    if a + b == a' + b' {
      assert |a| == |a'|;
      assert a == (a + b)[..|a|] == (a' + b')[..|a|] == a';
      assert b == (a + b)[|a|..] == (a' + b')[|a|..] == b';
    }
  }

  lemma {:induction false} NoNullIsReached(parse: string -> Parsed, lines: seq<string>)
    requires NoneThrows(parse, lines)
    ensures UpToNull(parse, lines) == lines
  {
    if lines != [] {
      NoNullIsReached(parse, lines[1..]);
    }
  }

  /** The counters are the numbers of COMPLETED and FAILED messages. */
  lemma {:induction false} CountersAreTotals(v: View, ms: seq<Message>)
    ensures ApplyAll(v, ms).completed == v.completed + Total(ms, (m: Message) => m.EventCompleted?)
    ensures ApplyAll(v, ms).failed == v.failed + Total(ms, (m: Message) => m.EventFailed?)
    decreases |ms|
  {
    if ms != [] {
      CountersAreTotals(Apply(v, ms[0]), ms[1..]);
    }
  }

  lemma {:induction false} ApplyLast(v: View, ms: seq<Message>)
    requires ms != []
    ensures ApplyAll(v, ms) == Apply(ApplyAll(v, ms[..|ms| - 1]), ms[|ms| - 1])
    decreases |ms|
  {
    hide Apply;
    if |ms| > 1 {
      ApplyLast(Apply(v, ms[0]), ms[1..]);
      assert ms[1..][..|ms| - 2] == ms[..|ms| - 1][1..];
    }
  }

  /** A worker is shown as active exactly when the last thing said about it was that it is online. */
  lemma {:induction false} ActiveIsTheLastWord(v: View, ms: seq<Message>, w: string)
    ensures w in ApplyAll(v, ms).active <==>
            match LastWord(ms, w) case Some(online) => online case None => w in v.active
    decreases |ms|
  {
    if ms != [] {
      ActiveIsTheLastWord(v, ms[..|ms| - 1], w);
      ApplyLast(v, ms);
    }
  }

  lemma NewestOfNewest(a: seq<RecentEvent>, b: seq<RecentEvent>)
    ensures Newest(a + Newest(b)) == Newest(a + b)
  {
  }

  lemma OneMessageFeeds(v: View, m: Message)
    ensures var v' := Apply(v, m);
            if Shown(m).None? then v'.recent == v.recent && v'.ids == v.ids
            else v'.ids == v.ids + 1
                 && v'.recent == Newest([RecentEvent(v.ids + 1, EventOf(m), Shown(m).value)] + v.recent)
    ensures |v.recent| <= MAX_RECENT_EVENTS ==> |Apply(v, m).recent| <= MAX_RECENT_EVENTS
  {
  }

  lemma NewestOfFew(recent: seq<RecentEvent>)
    requires |recent| <= MAX_RECENT_EVENTS
    ensures Newest(recent) == recent
  {
  }

  lemma FirstMessage(v: View, ms: seq<Message>)
    requires ms != []
    ensures ApplyAll(v, ms) == ApplyAll(Apply(v, ms[0]), ms[1..])
    ensures Entries(ms, v.ids)
            == if Shown(ms[0]).None? then Entries(ms[1..], v.ids)
               else Entries(ms[1..], v.ids + 1) + [RecentEvent(v.ids + 1, EventOf(ms[0]), Shown(ms[0]).value)]
  {
    hide Apply;
  }

  /** Cutting the older entries off first makes no difference. */
  lemma NewestOfThree(later: seq<RecentEvent>, entry: seq<RecentEvent>, older: seq<RecentEvent>)
    ensures Newest(later + Newest(entry + older)) == Newest((later + entry) + older)
  {
    NewestOfNewest(later, entry + older);
    assert later + (entry + older) == (later + entry) + older;
  }

  /** The feed shows the newest hundred entries, newest first. */
  lemma {:induction false} FeedIsNewestFirst(v: View, ms: seq<Message>)
    requires |v.recent| <= MAX_RECENT_EVENTS
    ensures ApplyAll(v, ms).recent == Newest(Entries(ms, v.ids) + v.recent)
    decreases |ms|
  {
    if ms != [] {
      var m := ms[0];
      FirstMessage(v, ms);
      OneMessageFeeds(v, m);
      hide Apply, ApplyAll, Entries, Newest;
      FeedIsNewestFirst(Apply(v, m), ms[1..]);
      if Shown(m).Some? {
        NewestOfThree(Entries(ms[1..], v.ids + 1), [RecentEvent(v.ids + 1, EventOf(m), Shown(m).value)], v.recent);
      }
    } else {
      NewestOfFew(v.recent);
      assert [] + v.recent == v.recent;
    }
  }

  /** Ids run downwards from the counter without gaps, so no two entries share one. */
  predicate FeedOk(v: View) {
    && |v.recent| == (if v.ids < MAX_RECENT_EVENTS then v.ids else MAX_RECENT_EVENTS)
    && forall k | 0 <= k < |v.recent| :: v.recent[k].id == v.ids - k
  }

  lemma {:induction false} FeedStaysOk(v: View, ms: seq<Message>)
    requires FeedOk(v)
    ensures FeedOk(ApplyAll(v, ms))
    decreases |ms|
  {
    if ms != [] {
      FeedStaysOk(Apply(v, ms[0]), ms[1..]);
    }
  }
}

/** From the hub's broadcasts to the dashboard's state. */
module EndToEnd {
  import opened Frames
  import opened Fanout
  import opened Dashboards

  /** The broadcasts made since a client was registered. */
  function Since(s: State, id: Id): seq<string>
    requires id in s.conns
  {
    if s.conns[id].from <= |s.history| then s.history[s.conns[id].from..] else []
  }

  lemma ReceivedCounts(history: seq<string>, c: Conn)
    requires c.from <= c.until <= |history| && Stream(c) == Flat(history[c.from..c.until])
    requires AllClean(history[c.from..])
    ensures var n := |Flat(c.received)|;
            c.from + n <= c.until && Flat(c.received) == history[c.from..c.from + n]
  {
    hide Flat, Clean;
    var sent, n := history[c.from..c.until], |Flat(c.received)|;
    assert sent == history[c.from..][..c.until - c.from];
    CleanArriveAsSent(sent);
    assert Flat(c.received) == Stream(c)[..n] == sent[..n];
    assert sent[..n] == history[c.from..c.from + n];
  }

  /**
   In every run, whatever the batching: a dashboard shows exactly what applying the first broadcasts since its
   registration, one by one, would show. How many is the number of messages it has received.
   */
  lemma DashboardShowsTheBroadcasts(moves: seq<Move>, id: Id, parse: string -> Parsed)
    requires Legal(moves) && id in After(moves).conns
    requires AllClean(Since(After(moves), id)) && NoneThrows(parse, Since(After(moves), id))
    ensures var s := After(moves);
            var c := s.conns[id];
            var n := |Flat(c.received)|;
            && c.from + n <= c.until <= |s.history|
            && HandleFrames(BLANK, parse, c.received)
               == ApplyAll(BLANK, Messages(parse, s.history[c.from..c.from + n]))
  {
    hide After, Legal, Flat, Clean, Handle, ApplyAll, Messages, Stream, UpToNull;
    var s := After(moves);
    var c := s.conns[id];
    StreamFidelity(moves, id);
    ReceivedCounts(s.history, c);
    FramingIsInvisible(BLANK, parse, c.received);
    NoNullIsReached(parse, Flat(c.received));
    HandleApplies(BLANK, parse, Flat(c.received));
  }
}
