/**
 The WebSocket hub, the connections it feeds and the dashboards at their far ends. The hub handles one request
 at a time; connections take messages from their channels, batch them and hand them on whenever they are scheduled,
 also while the hub is going over its clients.
 */
module Fanout {
  import opened Frames

  type Id = nat

  const CAPACITY: nat := 256

  datatype Reader = Registering | Reading | Leaving | Left

  datatype Writer = Unborn | Waiting | Opened(frame: string) | Batching(frame: string, left: nat) | Ended

  /** A client: its channel, its two pumps, and what its peer has received. */
  datatype Conn = Conn(
    reader: Reader,
    writer: Writer,
    buffer: seq<string>,
    open: bool,
    closes: nat,
    wire: seq<string>,     // frames written and not yet received
    lost: seq<string>,     // what the writer had taken when a write failed
    received: seq<string>, // frames the dashboard has handled
    from: nat,             // broadcasts made before registration
    until: nat)            // broadcasts made before the last one accepted, or missed

  const NEW_CONN: Conn := Conn(Registering, Unborn, [], true, 0, [], [], [], 0, 0)

  datatype HubPc = Selecting | Sending(msg: string, todo: set<Id>) | Closing(todo: set<Id>) | Stopped

  datatype State = State(
    conns: map<Id, Conn>,
    clients: set<Id>,
    pc: HubPc,
    history: seq<string>,
    panicked: bool)  // a closed channel was closed again or sent to

  const START: State := State(map[], {}, Selecting, [], false)

  /** What a connection's own goroutines and its peer can do. */
  datatype Deed = ReadFails | Take(ok: bool) | Count | Drain | Flush(ok: bool) | Hangup | PingFails | Receive

  datatype Move =
    | Open(id: Id)
    | Register(id: Id)
    | Unregister(id: Id)
    | Broadcast(msg: string)
    | Offer(id: Id)
    | Shutdown
    | CloseNext(id: Id)
    | Of(id: Id, deed: Deed)

  predicate CanDo(c: Conn, deed: Deed) {
    match deed
    case ReadFails => c.reader.Reading?
    case Take(_) => c.writer.Waiting? && c.buffer != []
    case Count => c.writer.Opened?
    case Drain => c.writer.Batching? && c.writer.left > 0 && (c.buffer != [] || !c.open)
    case Flush(_) => c.writer.Batching? && c.writer.left == 0
    case Hangup => c.writer.Waiting? && c.buffer == [] && !c.open
    case PingFails => c.writer.Waiting?
    case Receive => c.wire != []
  }

  function Do(c: Conn, deed: Deed): Conn
    requires CanDo(c, deed)
  {
    match deed
    case ReadFails => c.(reader := Leaving)
    case Take(ok) =>
      if ok then c.(writer := Opened(c.buffer[0]), buffer := c.buffer[1..])
      else c.(writer := Ended, lost := [c.buffer[0]], buffer := c.buffer[1..])
    case Count => c.(writer := Batching(c.writer.frame, |c.buffer|))
    case Drain =>
      // A receive from a closed and empty channel yields the zero value.
      if c.buffer == [] then c.(writer := Batching(c.writer.frame + "\n", c.writer.left - 1))
      else c.(writer := Batching(c.writer.frame + "\n" + c.buffer[0], c.writer.left - 1), buffer := c.buffer[1..])
    case Flush(ok) =>
      if ok then c.(writer := Waiting, wire := c.wire + [c.writer.frame])
      else c.(writer := Ended, lost := [c.writer.frame])
    case Hangup => c.(writer := Ended)
    case PingFails => c.(writer := Ended)
    case Receive => c.(wire := c.wire[1..], received := c.received + [c.wire[0]])
  }

  predicate Enabled(s: State, m: Move) {
    match m
    case Open(id) => id !in s.conns
    case Register(id) => s.pc.Selecting? && id in s.conns && s.conns[id].reader.Registering?
    case Unregister(id) => s.pc.Selecting? && id in s.conns && s.conns[id].reader.Leaving?
    case Broadcast(_) => s.pc.Selecting?
    case Offer(id) => s.pc.Sending? && id in s.pc.todo && id in s.conns
    case Shutdown => s.pc.Selecting?
    case CloseNext(id) => s.pc.Closing? && id in s.pc.todo && id in s.conns
    case Of(id, deed) => id in s.conns && CanDo(s.conns[id], deed)
  }

  function CloseChannel(c: Conn): Conn {
    c.(open := false, closes := c.closes + 1)
  }

  /** Deletes the client and closes its channel. */
  function Drop(s: State, id: Id): State
    requires id in s.conns
  {
    s.(conns := s.conns[id := CloseChannel(s.conns[id])],
       clients := s.clients - {id},
       panicked := s.panicked || !s.conns[id].open)
  }

  /** A send that does not block: a full channel gets its client dropped. */
  function Push(s: State, id: Id, msg: string): State
    requires id in s.conns
  {
    var c := s.conns[id];
    if c.open && |c.buffer| >= CAPACITY then Drop(s, id)
    else
      s.(conns := s.conns[id := c.(buffer := c.buffer + [msg], until := c.until + 1)],
         panicked := s.panicked || !c.open)
  }

  function SendingTo(msg: string, todo: set<Id>): HubPc {
    if todo == {} then Selecting else Sending(msg, todo)
  }

  function ClosingOf(todo: set<Id>): HubPc {
    if todo == {} then Stopped else Closing(todo)
  }

  function Next(s: State, m: Move): State
    requires Enabled(s, m)
  {
    match m
    case Open(id) => s.(conns := s.conns[id := NEW_CONN])
    case Register(id) =>
      var n := |s.history|;
      s.(conns := s.conns[id := s.conns[id].(reader := Reading, writer := Waiting, from := n, until := n)],
         clients := s.clients + {id})
    case Unregister(id) =>
      var s1 := s.(conns := s.conns[id := s.conns[id].(reader := Left)]);
      if id in s.clients then Drop(s1, id) else s1
    case Broadcast(msg) => s.(history := s.history + [msg], pc := SendingTo(msg, s.clients))
    case Offer(id) => Push(s, id, s.pc.msg).(pc := SendingTo(s.pc.msg, s.pc.todo - {id}))
    case Shutdown => s.(pc := ClosingOf(s.clients))
    case CloseNext(id) => Drop(s, id).(pc := ClosingOf(s.pc.todo - {id}))
    case Of(id, deed) => s.(conns := s.conns[id := Do(s.conns[id], deed)])
  }

  predicate Legal(moves: seq<Move>)
    decreases |moves|, 0
  {
    moves == [] ||
    var before := moves[..|moves| - 1];
    Legal(before) && Enabled(After(before), moves[|moves| - 1])
  }

  function After(moves: seq<Move>): State
    requires Legal(moves)
    decreases |moves|, 1
  {
    if moves == [] then START else Next(After(moves[..|moves| - 1]), moves[|moves| - 1])
  }

  // ---- What every run keeps ----

  function FrameLines(w: Writer): seq<string> {
    match w
    case Opened(frame) => Lines(frame)
    case Batching(frame, _) => Lines(frame)
    case _ => []
  }

  /** Every line on its way to the dashboard, oldest first. */
  function Stream(c: Conn): seq<string> {
    Flat(c.received) + Flat(c.wire) + FrameLines(c.writer) + Flat(c.lost) + Flat(c.buffer)
  }

  /** The pumps never overrun the channel, and nothing is lost but by a writer that has ended. */
  predicate PumpsOk(c: Conn) {
    && |c.buffer| <= CAPACITY
    && (c.writer.Batching? ==> c.writer.left <= |c.buffer|)
    && (c.lost != [] ==> c.writer.Ended?)
    && (c.writer.Unborn? <==> c.reader.Registering?)
  }

  predicate ConnOk(history: seq<string>, c: Conn, member: bool, waiting: bool) {
    && PumpsOk(c)
    && c.closes == (if c.open then 0 else 1)
    && c.from <= c.until <= |history| && |c.buffer| <= c.until - c.from
    && Stream(c) == Flat(history[c.from..c.until])
    && (if c.reader.Registering? then c == NEW_CONN && !member else member == c.open)
    && (member ==> c.until == if waiting then |history| - 1 else |history|)
    && (c.reader.Left? ==> !c.open)
  }

  predicate Awaiting(pc: HubPc, id: Id) {
    pc.Sending? && id in pc.todo
  }

  predicate HubOk(s: State) {
    && !s.panicked && s.clients <= s.conns.Keys
    && (s.pc.Sending? ==> s.pc.todo <= s.clients && s.history != [] && s.history[|s.history| - 1] == s.pc.msg)
    && (s.pc.Closing? ==> s.pc.todo == s.clients)
    && (s.pc.Stopped? ==> s.clients == {})
    && forall id | id in s.conns :: ConnOk(s.history, s.conns[id], id in s.clients, Awaiting(s.pc, id))
  }

  lemma FlatOfHead(messages: seq<string>)
    requires messages != []
    ensures Flat(messages) == Lines(messages[0]) + Flat(messages[1..])
  {
    hide Lines;
    FlatOfOne(messages[0]);
    FlatOfBoth([messages[0]], messages[1..]);
    assert [messages[0]] + messages[1..] == messages;
  }

  lemma TakeKeepsStream(c: Conn, ok: bool)
    requires PumpsOk(c) && CanDo(c, Take(ok))
    ensures PumpsOk(Do(c, Take(ok))) && Stream(Do(c, Take(ok))) == Stream(c)
  {
    hide Lines, Flat;
    NoFrames();
    FlatOfHead(c.buffer);
    FlatOfOne(c.buffer[0]);
  }

  lemma DrainKeepsStream(c: Conn)
    requires PumpsOk(c) && CanDo(c, Drain)
    ensures PumpsOk(Do(c, Drain)) && Stream(Do(c, Drain)) == Stream(c)
  {
    hide Lines, Flat;
    NoFrames();
    LinesOfBoth(c.writer.frame, c.buffer[0]);
    FlatOfHead(c.buffer);
  }

  lemma FlushKeepsStream(c: Conn, ok: bool)
    requires PumpsOk(c) && CanDo(c, Flush(ok))
    ensures PumpsOk(Do(c, Flush(ok))) && Stream(Do(c, Flush(ok))) == Stream(c)
  {
    hide Lines, Flat;
    NoFrames();
    FlatOfOne(c.writer.frame);
    FlatOfBoth(c.wire, [c.writer.frame]);
  }

  lemma ReceiveKeepsStream(c: Conn)
    requires PumpsOk(c) && CanDo(c, Receive)
    ensures PumpsOk(Do(c, Receive)) && Stream(Do(c, Receive)) == Stream(c)
  {
    hide Lines, Flat;
    FlatOfOne(c.wire[0]);
    FlatOfBoth(c.received, [c.wire[0]]);
    FlatOfHead(c.wire);
  }

  /** No deed of a connection adds, drops or reorders a line. */
  lemma DeedKeepsStream(c: Conn, deed: Deed)
    requires PumpsOk(c) && CanDo(c, deed)
    ensures PumpsOk(Do(c, deed)) && Stream(Do(c, deed)) == Stream(c)
  {
    hide Lines, Flat;
    match deed {
      case Take(ok) => TakeKeepsStream(c, ok);
      case Drain => DrainKeepsStream(c);
      case Flush(ok) => FlushKeepsStream(c, ok);
      case Receive => ReceiveKeepsStream(c);
      case ReadFails =>
      case Count =>
      case Hangup =>
      case PingFails =>
    }
  }

  lemma NoFrames()
    ensures Flat([]) == []
  {
  }

  lemma DeedKeepsConn(history: seq<string>, c: Conn, deed: Deed, member: bool, waiting: bool)
    requires ConnOk(history, c, member, waiting) && CanDo(c, deed)
    ensures ConnOk(history, Do(c, deed), member, waiting)
  {
    hide Stream;
    DeedKeepsStream(c, deed);
  }

  lemma BroadcastKeepsConn(history: seq<string>, c: Conn, msg: string, member: bool)
    requires ConnOk(history, c, member, false)
    ensures ConnOk(history + [msg], c, member, member)
  {
    hide Stream;
    assert (history + [msg])[c.from..c.until] == history[c.from..c.until];
  }

  /** The channel takes the message the hub is sending. */
  lemma AcceptKeepsConn(history: seq<string>, c: Conn, msg: string)
    requires ConnOk(history, c, true, true) && history != [] && history[|history| - 1] == msg && |c.buffer| < CAPACITY
    ensures ConnOk(history, c.(buffer := c.buffer + [msg], until := c.until + 1), true, false)
  {
    hide Flat, Lines;
    FlatOfOne(msg);
    FlatOfBoth(c.buffer, [msg]);
    FlatOfBoth(history[c.from..c.until], [msg]);
    assert history[c.from..c.until + 1] == history[c.from..c.until] + [msg];
  }

  lemma CloseKeepsConn(history: seq<string>, c: Conn, waiting: bool)
    requires ConnOk(history, c, true, waiting)
    ensures ConnOk(history, CloseChannel(c), false, false)
    ensures ConnOk(history, CloseChannel(c).(reader := Left), false, false)
  {
  }

  lemma RegisterKeepsConn(history: seq<string>, c: Conn)
    requires ConnOk(history, c, false, false) && c.reader.Registering?
    ensures var n := |history|;
            ConnOk(history, c.(reader := Reading, writer := Waiting, from := n, until := n), true, false)
  {
    NoFrames();
    assert history[|history|..|history|] == [];
  }

  lemma FreshConnOk(history: seq<string>)
    ensures ConnOk(history, NEW_CONN, false, false)
  {
    NoFrames();
    assert history[0..0] == [];
  }

  lemma OfferKeepsHub(s: State, id: Id)
    requires HubOk(s) && Enabled(s, Offer(id))
    ensures HubOk(Next(s, Offer(id)))
  {
    hide ConnOk;
    var c, s' := s.conns[id], Next(s, Offer(id));
    forall x | x in s'.conns ensures ConnOk(s'.history, s'.conns[x], x in s'.clients, Awaiting(s'.pc, x)) {
      assert ConnOk(s.history, s.conns[x], x in s.clients, Awaiting(s.pc, x));
      MembersAreOpen(s, id);
      if x == id && |c.buffer| < CAPACITY {
        AcceptKeepsConn(s.history, c, s.pc.msg);
      } else if x == id {
        CloseKeepsConn(s.history, c, true);
      }
    }
    MembersAreOpen(s, id);
  }

  lemma MembersAreOpen(s: State, id: Id)
    requires HubOk(s) && id in s.clients
    ensures id in s.conns && s.conns[id].open && |s.conns[id].buffer| <= CAPACITY
    ensures ConnOk(s.history, s.conns[id], true, Awaiting(s.pc, id))
    ensures s.conns[id].until == if Awaiting(s.pc, id) then |s.history| - 1 else |s.history|
  {
    hide Stream;
    assert ConnOk(s.history, s.conns[id], id in s.clients, Awaiting(s.pc, id));
  }

  lemma CloseKeepsHub(s: State, id: Id)
    requires HubOk(s) && Enabled(s, CloseNext(id))
    ensures HubOk(Next(s, CloseNext(id)))
  {
    hide ConnOk;
    var s' := Next(s, CloseNext(id));
    MembersAreOpen(s, id);
    CloseKeepsConn(s.history, s.conns[id], false);
    forall x | x in s'.conns ensures ConnOk(s'.history, s'.conns[x], x in s'.clients, Awaiting(s'.pc, x)) {
      assert ConnOk(s.history, s.conns[x], x in s.clients, Awaiting(s.pc, x));
    }
  }

  lemma UnregisterKeepsHub(s: State, id: Id)
    requires HubOk(s) && Enabled(s, Unregister(id))
    ensures HubOk(Next(s, Unregister(id)))
  {
    hide ConnOk;
    var s' := Next(s, Unregister(id));
    if id in s.clients {
      MembersAreOpen(s, id);
      CloseKeepsConn(s.history, s.conns[id], false);
    } else {
      LeaveKeepsConn(s.history, s.conns[id]);
    }
    forall x | x in s'.conns ensures ConnOk(s'.history, s'.conns[x], x in s'.clients, Awaiting(s'.pc, x)) {
      assert ConnOk(s.history, s.conns[x], x in s.clients, Awaiting(s.pc, x));
    }
  }

  lemma LeaveKeepsConn(history: seq<string>, c: Conn)
    requires c.reader.Leaving?
    ensures ConnOk(history, c, false, false) ==> ConnOk(history, c.(reader := Left), false, false)
  {
  }

  lemma MoveKeepsHub(s: State, m: Move)
    requires HubOk(s) && Enabled(s, m)
    ensures HubOk(Next(s, m))
  {
    hide ConnOk;
    if m.Offer? {
      OfferKeepsHub(s, m.id);
    } else if m.CloseNext? {
      CloseKeepsHub(s, m.id);
    } else if m.Unregister? {
      UnregisterKeepsHub(s, m.id);
    } else {
      var s' := Next(s, m);
      forall x | x in s'.conns ensures ConnOk(s'.history, s'.conns[x], x in s'.clients, Awaiting(s'.pc, x)) {
        FreshConnOk(s.history);
        if x in s.conns {
          var c, member, waiting := s.conns[x], x in s.clients, Awaiting(s.pc, x);
          assert ConnOk(s.history, c, member, waiting);
          if m.Broadcast? {
            BroadcastKeepsConn(s.history, c, m.msg, member);
          } else if m == Register(x) {
            RegistersOnce(s, x);
            RegisterKeepsConn(s.history, c);
          } else if m.Of? && m.id == x {
            DeedKeepsConn(s.history, c, m.deed, member, waiting);
          }
        }
      }
    }
  }

  lemma RegistersOnce(s: State, id: Id)
    requires HubOk(s) && id in s.conns && s.conns[id].reader.Registering?
    ensures id !in s.clients
  {
    assert ConnOk(s.history, s.conns[id], id in s.clients, Awaiting(s.pc, id));
  }

  lemma {:induction false} RunsKeepHub(moves: seq<Move>)
    requires Legal(moves)
    ensures HubOk(After(moves))
  {
    hide Next, Enabled, ConnOk;
    if moves != [] {
      RunsKeepHub(moves[..|moves| - 1]);
      MoveKeepsHub(After(moves[..|moves| - 1]), moves[|moves| - 1]);
    }
  }

  // ---- Channel safety ----

  /**
   No closed channel is ever closed or sent to; a channel never holds more than its capacity, is open exactly while
   its client is registered, and never yields a zero value into a frame. Shutdown closes the channel of every
   registered client.
   */
  lemma ChannelSafety(moves: seq<Move>, id: Id)
    requires Legal(moves) && id in After(moves).conns
    ensures var s := After(moves);
            var c := s.conns[id];
            && !s.panicked && c.closes <= 1 && |c.buffer| <= CAPACITY
            && (if c.reader.Registering? then id !in s.clients && c.open else c.open == (id in s.clients))
            && (c.writer.Batching? && c.writer.left > 0 ==> c.buffer != [])
            && (s.pc.Stopped? && !c.reader.Registering? ==> !c.open && c.closes == 1)
  {
    hide After, Legal, Stream;
    RunsKeepHub(moves);
    var s := After(moves);
    assert ConnOk(s.history, s.conns[id], id in s.clients, Awaiting(s.pc, id));
  }

  // ---- Stream fidelity ----

  predicate AllClean(messages: seq<string>) {
    forall m | m in messages :: Clean(m)
  }

  /**
   What the dashboard has handled, then what is on the wire, in the writer's hands and in the channel, is the lines
   of a contiguous run of broadcasts that starts at registration and, for a registered client, ends with the last
   one offered to it. Clean messages are those lines themselves.
   */
  lemma StreamFidelity(moves: seq<Move>, id: Id)
    requires Legal(moves) && id in After(moves).conns
    ensures var s := After(moves);
            var c := s.conns[id];
            && c.from <= c.until <= |s.history| && Stream(c) == Flat(s.history[c.from..c.until])
            && (id in s.clients ==> c.until == |s.history| - if Awaiting(s.pc, id) then 1 else 0)
            && (AllClean(s.history[c.from..c.until]) ==> Stream(c) == s.history[c.from..c.until])
            && (c.lost != [] ==> c.writer.Ended?)
  {
    hide After, Legal, Stream;
    RunsKeepHub(moves);
    var s := After(moves);
    var c := s.conns[id];
    assert ConnOk(s.history, c, id in s.clients, Awaiting(s.pc, id));
    if AllClean(s.history[c.from..c.until]) {
      CleanArriveAsSent(s.history[c.from..c.until]);
    }
  }

  /** The dashboard is never ahead of the broadcasts, and never sees them out of order. */
  lemma ReceivedIsAPrefix(moves: seq<Move>, id: Id)
    requires Legal(moves) && id in After(moves).conns
    ensures var s := After(moves);
            var c := s.conns[id];
            c.from <= |s.history| && Flat(c.received) <= Flat(s.history[c.from..])
  {
    hide After, Legal, Flat, Lines;
    StreamFidelity(moves, id);
    var s := After(moves);
    var c := s.conns[id];
    FlatOfBoth(s.history[c.from..c.until], s.history[c.until..]);
    assert s.history[c.from..] == s.history[c.from..c.until] + s.history[c.until..];
  }

  /** A client is dropped for slowness only with a full channel, and misses exactly the broadcast that found it so. */
  lemma DroppedWhenFull(moves: seq<Move>, id: Id)
    requires Legal(moves) && Enabled(After(moves), Offer(id))
    ensures var s, s' := After(moves), Next(After(moves), Offer(id));
            && s.conns[id].open
            && (!s'.conns[id].open <==> |s.conns[id].buffer| == CAPACITY)
            && (!s'.conns[id].open ==>
                  s'.conns[id].until == |s'.history| - 1 && s'.history[|s'.history| - 1] == s.pc.msg)
  {
    hide After, Legal, ConnOk;
    RunsKeepHub(moves);
    MembersAreOpen(After(moves), id);
  }

  lemma RegisteringIsOpen(s: State, id: Id)
    requires HubOk(s) && id in s.conns && s.conns[id].reader.Registering?
    ensures s.conns[id].open && s.conns[id].until == 0
  {
    hide Stream;
    assert ConnOk(s.history, s.conns[id], id in s.clients, Awaiting(s.pc, id));
  }

  /** The run of broadcasts meant for a client starts where it registered, and stops for good where it was closed. */
  lemma RunsAreFixed(s: State, m: Move, id: Id)
    requires HubOk(s) && Enabled(s, m) && id in s.conns
    ensures var c := s.conns[id];
            && id in Next(s, m).conns
            && var c' := Next(s, m).conns[id];
            && (m == Register(id) ==> c'.from == c'.until == |s.history|)
            && (m != Register(id) ==> c'.from == c.from && c.until <= c'.until)
            && (!c.open ==> !c'.open && c'.until == c.until && m != Register(id))
  {
    hide ConnOk;
    if m == Register(id) {
      RegisteringIsOpen(s, id);
    }
    if m == Offer(id) {
      MembersAreOpen(s, id);
    }
  }

  lemma {:induction false} ClosedForGood(moves: seq<Move>, more: seq<Move>, id: Id)
    requires Legal(moves) && Legal(moves + more) && id in After(moves).conns && !After(moves).conns[id].open
    ensures id in After(moves + more).conns
    ensures var c, c' := After(moves).conns[id], After(moves + more).conns[id];
            !c'.open && c'.from == c.from && c'.until == c.until
  {
    hide Next, Enabled, HubOk;
    if more == [] {
      assert moves + more == moves;
    } else {
      var before, m := more[..|more| - 1], more[|more| - 1];
      assert (moves + more)[..|moves + more| - 1] == moves + before;
      ClosedForGood(moves, before, id);
      RunsKeepHub(moves + before);
      RunsAreFixed(After(moves + before), m, id);
    }
  }
}
