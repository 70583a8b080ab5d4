/**
 The hub and client objects. The hub's loop and a client's write pump are proved to make the moves of the
 fan-out machine, whatever the other goroutines do between any two of their steps.
 */
module Hubs {
  import opened Fanout
  import opened Frames

  class Client {
    var reader: Reader
    var writer: Writer
    var buffer: seq<string>
    var open: bool
    var closes: nat
    var wire: seq<string>
    var lost: seq<string>
    var received: seq<string>
    var from: nat
    var until: nat

    constructor ()
      ensures View() == NEW_CONN
    {
      reader, writer, buffer, open, closes := Registering, Unborn, [], true, 0;
      wire, lost, received, from, until := [], [], [], 0, 0;
    }

    function View(): Conn
      reads this
    {
      Conn(reader, writer, buffer, open, closes, wire, lost, received, from, until)
    }

    /** The hub has the client: its pumps start. */
    method Begin(broadcasts: nat)
      modifies this
      ensures View() == old(View()).(reader := Reading, writer := Waiting, from := broadcasts, until := broadcasts)
    {
      reader, writer, from, until := Reading, Waiting, broadcasts, broadcasts;
    }

    /** A send that does not block. */
    method TrySend(message: string) returns (full: bool)
      modifies this
      ensures full <==> |old(buffer)| >= CAPACITY
      ensures View() == if full then old(View())
                        else old(View()).(buffer := old(buffer) + [message], until := old(until) + 1)
    {
      full := |buffer| >= CAPACITY;
      if !full {
        buffer, until := buffer + [message], until + 1;
      }
    }

    /** Frames written to the connection. */
    function Written(): nat
      reads this
    {
      |received| + |wire|
    }

    method Quit()
      modifies this`reader
      ensures View() == old(View()).(reader := Left)
    {
      reader := Left;
    }

    method Close()
      modifies this`open, this`closes
      ensures View() == CloseChannel(old(View()))
    {
      open, closes := false, closes + 1;
    }

    /** Takes the oldest message and opens a frame for it. */
    method Take(ok: bool)
      requires CanDo(View(), Deed.Take(ok))
      modifies this
      ensures View() == Do(old(View()), Deed.Take(ok))
    {
      var message := buffer[0];
      buffer := buffer[1..];
      if ok {
        writer := Opened(message);
      } else {
        writer, lost := Ended, [message];
      }
    }

    /** Adds a queued message to the frame. */
    method Drain()
      requires CanDo(View(), Deed.Drain)
      modifies this
      ensures View() == Do(old(View()), Deed.Drain)
    {
      var message := "";
      if buffer != [] {
        message := buffer[0];
        buffer := buffer[1..];
      }
      writer := Batching(writer.frame + "\n" + message, writer.left - 1);
      assert old(writer.frame) + "\n" + "" == old(writer.frame) + "\n";
    }

    method Flush(ok: bool)
      requires CanDo(View(), Deed.Flush(ok))
      modifies this
      ensures View() == Do(old(View()), Deed.Flush(ok))
    {
      if ok {
        wire := wire + [writer.frame];
        writer := Waiting;
      } else {
        lost := [writer.frame];
        writer := Ended;
      }
    }

    method Run(deed: Deed)
      requires CanDo(View(), deed)
      modifies this
      ensures View() == Do(old(View()), deed)
    {
      match deed
      case ReadFails => reader := Leaving;
      case Take(ok) => Take(ok);
      case Count => writer := Batching(writer.frame, |buffer|);
      case Drain => Drain();
      case Flush(ok) => Flush(ok);
      case Hangup => writer := Ended;
      case PingFails => writer := Ended;
      case Receive => wire, received := wire[1..], received + [wire[0]];
    }
  }

  class Hub {
    const conns: seq<Client>   // every client that will ever be made
    var clients: set<Id>
    var script: seq<seq<Move>>
    var pc: HubPc
    var history: seq<string>
    ghost var moves: seq<Move>

    ghost predicate Valid()
      reads this, conns
    {
      && (forall i, j | 0 <= i < j < |conns| :: conns[i] != conns[j])
      && Legal(moves) && View() == After(moves)
    }

    ghost function View(): State
      reads this, conns
    {
      State(Views(conns), clients, pc, history, false)
    }

    constructor (n: nat, script: seq<seq<Move>>)
      ensures Valid() && fresh(conns) && |conns| == n && clients == {} && pc.Selecting? && history == []
    {
      var cs: seq<Client>;
      ghost var ms: seq<Move>;
      cs, ms := MakeClients(n);
      conns, this.script := cs, script;
      clients, pc, history, moves := {}, Selecting, [], ms;
    }

    /** Enters a move that has just been made. */
    ghost method Enter(before: State, m: Move)
      requires forall i, j | 0 <= i < j < |conns| :: conns[i] != conns[j]
      requires Legal(moves) && before == After(moves) && Enabled(before, m) && View() == Next(before, m)
      modifies this`moves
      ensures Valid() && moves == old(moves) + [m]
    {
      hide Legal, After, Next, Enabled;
      Extended(moves, m);
      moves := moves + [m];
    }

    // ---- The cases of the hub's select ----

    method Register(id: Id)
      requires Valid() && pc.Selecting? && id < |conns| && conns[id].reader.Registering?
      modifies this`clients, this`moves, conns[id]
      ensures Valid() && moves == old(moves) + [Move.Register(id)] && clients == old(clients) + {id}
      ensures Enabled(old(View()), Move.Register(id)) && View() == Next(old(View()), Move.Register(id))
      ensures conns[id].reader.Reading? && conns[id].from == |history| && conns[id].writer.Waiting?
    {
      hide Legal, After;
      ghost var before := View();
      clients := clients + {id};
      conns[id].Begin(|history|);
      OneChanged(before.conns, conns, id);
      Enter(before, Move.Register(id));
    }

    method QuitAndDrop(id: Id)
      requires id < |conns|
      modifies this`clients, conns[id]
      ensures clients == old(clients) - {id}
      ensures var c := old(conns[id].View()).(reader := Left);
              conns[id].View() == if id in old(clients) then CloseChannel(c) else c
    {
      conns[id].Quit();
      if id in clients {
        Drop(id);
      }
    }

    /** Deletes the client and closes its channel, unless that has been done already. */
    method Unregister(id: Id)
      requires Valid() && pc.Selecting? && id < |conns| && conns[id].reader.Leaving?
      modifies this`clients, this`moves, conns[id]
      ensures Valid() && moves == old(moves) + [Move.Unregister(id)] && clients == old(clients) - {id}
      ensures Enabled(old(View()), Move.Unregister(id)) && View() == Next(old(View()), Move.Unregister(id))
      ensures conns[id].reader.Left? && !conns[id].open
    {
      hide Legal, After, HubOk;
      ghost var before := View();
      LeaverIsOpen(this, id);
      QuitAndDrop(id);
      OneChanged(before.conns, conns, id);
      Enter(before, Move.Unregister(id));
    }

    method Drop(id: Id)
      requires id < |conns|
      modifies this`clients, conns[id]
      ensures clients == old(clients) - {id} && conns[id].View() == CloseChannel(old(conns[id].View()))
    {
      clients := clients - {id};
      conns[id].Close();
    }

    method SendOrDrop(id: Id, msg: string) returns (dropped: bool)
      requires id < |conns|
      modifies this`clients, conns[id]
      ensures dropped <==> |old(conns[id].buffer)| >= CAPACITY
      ensures clients == if dropped then old(clients) - {id} else old(clients)
      ensures var c := old(conns[id].View());
              conns[id].View()
              == if dropped then CloseChannel(c) else c.(buffer := c.buffer + [msg], until := c.until + 1)
    {
      dropped := conns[id].TrySend(msg);
      if dropped {
        Drop(id);
      }
    }

    /** Offers the message to one client; a client whose channel is full is dropped. */
    method Offer(id: Id, msg: string, todo: set<Id>) returns (dropped: bool)
      requires Valid() && pc == Sending(msg, todo) && id in todo && id in clients && id < |conns|
      modifies this`clients, this`moves, this`pc, conns[id]
      ensures Valid() && moves == old(moves) + [Move.Offer(id)] && pc == SendingTo(msg, todo - {id})
      ensures Enabled(old(View()), Move.Offer(id)) && View() == Next(old(View()), Move.Offer(id))
      ensures dropped <==> |old(conns[id].buffer)| == 256
      ensures clients == if dropped then old(clients) - {id} else old(clients)
      ensures conns[id].buffer == if dropped then old(conns[id].buffer) else old(conns[id].buffer) + [msg]
    {
      hide Legal, After, HubOk, Next;
      ghost var before := View();
      ClientIsOpen(this, id);
      assert Enabled(before, Move.Offer(id)) && before.conns[id] == conns[id].View();
      hide Enabled;
      dropped := SendOrDrop(id, msg);
      pc := SendingTo(msg, todo - {id});
      OneChanged(before.conns, conns, id);
      OfferOutcome(before, View(), id);
      Enter(before, Move.Offer(id));
    }

    method CloseNext(id: Id, todo: set<Id>)
      requires Valid() && pc == Closing(todo) && id in todo && id in clients && id < |conns|
      modifies this`clients, this`moves, this`pc, conns[id]
      ensures Valid() && moves == old(moves) + [Move.CloseNext(id)] && pc == ClosingOf(todo - {id})
      ensures Enabled(old(View()), Move.CloseNext(id)) && View() == Next(old(View()), Move.CloseNext(id))
      ensures clients == old(clients) - {id} && !conns[id].open
    {
      hide Legal, After, HubOk;
      ghost var before := View();
      ClientIsOpen(this, id);
      Drop(id);
      pc := ClosingOf(todo - {id});
      OneChanged(before.conns, conns, id);
      Enter(before, Move.CloseNext(id));
    }

    /** A connection's own goroutine, or its peer, does something. */
    method Run(id: Id, deed: Deed)
      requires Valid() && id < |conns| && CanDo(conns[id].View(), deed)
      modifies this`moves, conns[id]
      ensures Valid() && moves == old(moves) + [Of(id, deed)]
      ensures Enabled(old(View()), Of(id, deed)) && View() == Next(old(View()), Of(id, deed))
      ensures conns[id].View() == Do(old(conns[id].View()), deed)
    {
      hide Legal, After, Do, CanDo;
      ghost var before := View();
      conns[id].Run(deed);
      OneChanged(before.conns, conns, id);
      Enter(before, Of(id, deed));
    }

    /** The deed is done if its connection can do it now. */
    method Attempt(id: Id, deed: Deed)
      requires Valid()
      modifies this`moves, conns
      ensures Valid() && old(moves) <= moves && Steady(old(View()), View(), {})
    {
      hide Valid, Legal, After, Next, Enabled, CanDo, Do, Steady, HubOk;
      SteadyRefl(View());
      if id < |conns| {
        var c := conns[id].View();
        if CanDo(c, deed) {
          ValidIsOk(this);
          Run(id, deed);
          MoveIsSteady(old(View()), Of(id, deed));
        }
      }
    }

    /** Connections run for a while. */
    method Yield()
      requires Valid()
      modifies this`moves, this`script, conns
      ensures Valid() && old(moves) <= moves && Steady(old(View()), View(), {})
    {
      hide Legal, After, Steady;
      var batch: seq<Move> := [];
      if script != [] {
        batch := script[0];
        script := script[1..];
      }
      AttemptAll(batch);
    }

    method AttemptAll(batch: seq<Move>)
      requires Valid()
      modifies this`moves, conns
      ensures Valid() && old(moves) <= moves && Steady(old(View()), View(), {})
    {
      hide Valid, Steady;
      SteadyRefl(View());
      for k := 0 to |batch|
        invariant Valid() && old(moves) <= moves && Steady(old(View()), View(), {})
      {
        if batch[k].Of? {
          ghost var before := View();
          Attempt(batch[k].id, batch[k].deed);
          SteadyOn(old(View()), before, View(), {});
        }
      }
    }

    /** One broadcast: every client is offered the message, in whatever order the map yields them. */
    method Broadcast(msg: string)
      requires Valid() && pc.Selecting?
      modifies this`clients, this`script, this`moves, this`pc, this`history, conns
      ensures Valid() && pc.Selecting? && old(moves) <= moves && history == old(history) + [msg]
      ensures clients <= old(clients) && Steady(old(View()), View(), {})
      ensures forall id | id in clients :: id < |conns| && conns[id].until == |history|
    {
      hide Valid, Legal, After, Next, Enabled, Steady, HubOk;
      var todo := clients;
      ValidIsOk(this);
      BeginBroadcast(msg);
      MoveIsSteady(old(View()), Move.Broadcast(msg));
      while todo != {}
        invariant Valid() && old(moves) <= moves && pc == SendingTo(msg, todo) && history == old(history) + [msg]
        invariant todo <= clients <= old(clients) && Steady(old(View()), View(), {})
        decreases |todo|
      {
        ghost var before := View();
        var id := OfferNext(msg, todo);
        SteadyOn(old(View()), before, View(), {});
        todo := todo - {id};
      }
      ClientsAreServed(this);
    }

    method OfferNext(msg: string, todo: set<Id>) returns (id: Id)
      requires Valid() && pc == Sending(msg, todo) && todo != {} && todo <= clients
      modifies this`clients, this`script, this`moves, this`pc, conns
      ensures Valid() && old(moves) <= moves && id in todo && pc == SendingTo(msg, todo - {id})
      ensures todo - {id} <= clients <= old(clients) && Steady(old(View()), View(), {})
    {
      hide Valid, Legal, After, Next, Enabled, Steady, HubOk;
      Yield();
      ghost var before := View();
      id :| id in todo;
      ClientsExist(this);
      ValidIsOk(this);
      var dropped := Offer(id, msg, todo);
      MoveIsSteady(before, Move.Offer(id));
      SteadyOn(old(View()), before, View(), {});
    }

    method BeginBroadcast(msg: string)
      requires Valid() && pc.Selecting?
      modifies this`moves, this`pc, this`history
      ensures Valid() && pc == SendingTo(msg, clients) && history == old(history) + [msg]
      ensures moves == old(moves) + [Move.Broadcast(msg)]
      ensures Enabled(old(View()), Move.Broadcast(msg)) && View() == Next(old(View()), Move.Broadcast(msg))
    {
      hide Legal, After;
      ghost var before := View();
      history := history + [msg];
      pc := SendingTo(msg, clients);
      Enter(before, Move.Broadcast(msg));
    }

    method BeginShutdown()
      requires Valid() && pc.Selecting?
      modifies this`moves, this`pc
      ensures Valid() && pc == ClosingOf(clients) && moves == old(moves) + [Move.Shutdown]
      ensures Enabled(old(View()), Move.Shutdown) && View() == Next(old(View()), Move.Shutdown)
    {
      hide Legal, After;
      ghost var before := View();
      pc := ClosingOf(clients);
      Enter(before, Move.Shutdown);
    }

    method Shutdown()
      requires Valid() && pc.Selecting?
      modifies this`clients, this`script, this`moves, this`pc, conns
      ensures Valid() && pc.Stopped? && old(moves) <= moves && clients == {}
      ensures history == old(history) && Steady(old(View()), View(), UpTo(|conns|))
    {
      hide Valid, Legal, After, Next, Enabled, Steady, HubOk;
      ValidIsOk(this);
      BeginShutdown();
      MoveIsSteady(old(View()), Move.Shutdown);
      SteadyMore(old(View()), View(), {}, UpTo(|conns|));
      while clients != {}
        invariant Valid() && old(moves) <= moves && pc == ClosingOf(clients) && history == old(history)
        invariant Steady(old(View()), View(), UpTo(|conns|))
        decreases |clients|
      {
        ghost var before := View();
        CloseOne();
        SteadyOn(old(View()), before, View(), UpTo(|conns|));
      }
    }

    method CloseOne()
      requires Valid() && pc == ClosingOf(clients) && clients != {}
      modifies this`clients, this`script, this`moves, this`pc, conns
      ensures Valid() && old(moves) <= moves && pc == ClosingOf(clients) && |clients| < |old(clients)|
      ensures Steady(old(View()), View(), UpTo(|conns|))
    {
      hide Valid, Legal, After, Next, Enabled, Steady, HubOk;
      Yield();
      SteadyMore(old(View()), View(), {}, UpTo(|conns|));
      ghost var before := View();
      var id :| id in clients;
      ClientsExist(this);
      ValidIsOk(this);
      CloseNext(id, clients);
      CloseIsSteady(before, id);
      SteadyMore(before, View(), {id}, UpTo(|conns|));
      SteadyOn(old(View()), before, View(), UpTo(|conns|));
    }

    /** One request other than the shutdown; one that does not fit its client's state has no sender. */
    method Handle(r: Move)
      requires Valid() && pc.Selecting? && !r.Shutdown?
      modifies this`clients, this`script, this`moves, this`pc, this`history, conns
      ensures Valid() && pc.Selecting? && old(moves) <= moves
      ensures history == old(history) + if r.Broadcast? then [r.msg] else []
      ensures Served(old(View()), View(), r)
    {
      hide Valid, Legal, After, Next, Enabled, Served, Steady, HubOk;
      ValidIsOk(this);
      if r.Register? && r.id < |conns| && conns[r.id].reader.Registering? {
        Register(r.id);
        RegisterServes(old(View()), r.id);
      } else if r.Unregister? && r.id < |conns| && conns[r.id].reader.Leaving? {
        Unregister(r.id);
        UnregisterServes(old(View()), r.id);
      } else if r.Broadcast? {
        Broadcast(r.msg);
        BroadcastServes(old(View()), View(), r.msg);
      } else {
        NothingServed(View(), r);
      }
    }

    /**
     The hub's loop: requests are served one at a time until the context is cancelled. A client whose registration is
     served gets the broadcasts from then on, and stays until it unregisters or the hub shuts down, or it is dropped,
     which takes more broadcasts since it registered than a channel holds.
     */
    method Serve(requests: seq<Move>) returns (cancelled: bool)
      requires Valid() && pc.Selecting?
      modifies this, conns
      ensures Valid() && old(moves) <= moves && history == old(history) + Broadcasts(requests)
      ensures if cancelled then clients == {} && pc.Stopped? else pc.Selecting?
      ensures cancelled <==> Move.Shutdown in requests
      ensures cancelled ==> forall id | 0 <= id < |conns| && !conns[id].reader.Registering? :: !conns[id].open
      ensures forall id | id in old(View()).conns ::
          id in View().conns && Outcome(old(View()), View(), requests, cancelled, id)
    {
      hide Valid, Legal, After, Next, Enabled, HubOk, Steady, Served, ServedSoFar, Outcome;
      ValidIsOk(this);
      StartServing(View(), requests);
      for i := 0 to |requests|
        invariant Valid() && old(moves) <= moves && pc.Selecting? && Move.Shutdown !in requests[..i]
        invariant ServedSoFar(old(View()), View(), requests, i, false)
      {
        ghost var before := View();
        Yield();
        SteadyServes(old(View()), before, View(), requests, i);
        before := View();
        var r := requests[i];
        if r.Shutdown? {
          Shutdown();
          StoppedMeansClosed(this);
          ShutdownServes(old(View()), before, View(), requests, i, UpTo(|conns|));
          ValidIsOk(this);
          AllServed(old(View()), View(), requests, i, true);
          return true;
        }
        Handle(r);
        RequestServes(old(View()), before, View(), requests, i);
      }
      ValidIsOk(this);
      AllServed(old(View()), View(), requests, |requests|, false);
      return false;
    }

    // ---- A client's write pump ----

    /** Any move but `Open`; the caller has checked that it can be made. */
    method Perform(m: Move)
      requires Valid() && !m.Open? && Enabled(View(), m)
      modifies this, conns
      ensures Valid() && moves == old(moves) + [m] && View() == Next(old(View()), m)
    {
      hide Legal, After, Next, Do, CanDo, HubOk;
      ClientsExist(this);
      TodoAreClients(this);
      match m
      case Register(id) => Register(id);
      case Unregister(id) => Unregister(id);
      case Broadcast(msg) => BeginBroadcast(msg);
      case Offer(id) => var _ := Offer(id, pc.msg, pc.todo);
      case Shutdown => BeginShutdown();
      case CloseNext(id) => CloseNext(id, pc.todo);
      case Of(id, deed) => Run(id, deed);
    }

    predicate CanMake(m: Move)
      reads this, conns
    {
      match m
      case Open(_) => false
      case Register(id) => pc.Selecting? && id < |conns| && conns[id].reader.Registering?
      case Unregister(id) => pc.Selecting? && id < |conns| && conns[id].reader.Leaving?
      case Broadcast(_) => pc.Selecting?
      case Offer(id) => pc.Sending? && id in pc.todo && id < |conns|
      case Shutdown => pc.Selecting?
      case CloseNext(id) => pc.Closing? && id in pc.todo && id < |conns|
      case Of(id, deed) => id < |conns| && CanDo(conns[id].View(), deed)
    }

    /** Everything but client `id`'s own writer runs for a while. */
    method Elsewhere(id: Id)
      requires Valid() && id < |conns| && !conns[id].writer.Unborn?
      modifies this, conns
      ensures Valid() && old(moves) <= moves
      ensures conns[id].writer == old(conns[id].writer) && |old(conns[id].buffer)| <= |conns[id].buffer|
      ensures !old(conns[id].open) ==> !conns[id].open && conns[id].buffer == old(conns[id].buffer)
      ensures conns[id].Written() == old(conns[id].Written())
    {
      hide Legal, After, Next, Enabled, Do, CanDo;
      if script != [] {
        var batch := script[0];
        script := script[1..];
        for k := 0 to |batch|
          invariant Valid() && old(moves) <= moves
          invariant conns[id].writer == old(conns[id].writer) && |old(conns[id].buffer)| <= |conns[id].buffer|
          invariant !old(conns[id].open) ==> !conns[id].open && conns[id].buffer == old(conns[id].buffer)
          invariant conns[id].Written() == old(conns[id].Written())
        {
          var m := batch[k];
          if CanMake(m) && !WritersOwn(m, id) {
            MakeableIsEnabled(this, m);
            OthersLeaveTheWriter(this, m, id);
            Perform(m);
            assert View().conns[id] == conns[id].View();
          }
        }
      }
    }

    /** The rest of the batch, once the frame's first message is in it. */
    method Batch(id: Id, ok: bool) returns (alive: bool)
      requires Valid() && id < |conns| && conns[id].writer.Opened?
      modifies this, conns
      ensures Valid() && old(moves) <= moves
      ensures if alive then conns[id].writer.Waiting? else conns[id].writer.Ended?
      ensures conns[id].Written() == old(conns[id].Written()) + if alive then 1 else 0
      ensures alive <==> ok
      ensures !old(conns[id].open) ==> !conns[id].open && (alive ==> conns[id].buffer == [])
    {
      hide Legal, After;
      Elsewhere(id);
      var n := |conns[id].buffer|;
      Run(id, Count);
      for i := 0 to n
        invariant Valid() && old(moves) <= moves
        invariant conns[id].writer.Batching? && conns[id].writer.left == n - i <= |conns[id].buffer|
        invariant conns[id].Written() == old(conns[id].Written())
        invariant !old(conns[id].open) ==> !conns[id].open && |conns[id].buffer| == n - i
      {
        Elsewhere(id);
        Run(id, Drain);
      }
      Elsewhere(id);
      Run(id, Flush(ok));
      return ok;
    }

    /** One round: a frame of everything queued, the closing handshake, or a ping. */
    method Round(id: Id, ok: bool) returns (alive: bool)
      requires Valid() && id < |conns| && conns[id].writer.Waiting?
      modifies this, conns
      ensures Valid() && old(moves) <= moves
      ensures if alive then conns[id].writer.Waiting? else conns[id].writer.Ended?
      ensures alive ==> ok
      ensures old(conns[id].buffer) != [] ==>
          alive == ok && conns[id].Written() == old(conns[id].Written()) + if ok then 1 else 0
      ensures conns[id].Written() >= old(conns[id].Written())
      ensures old(conns[id].buffer) == [] && !old(conns[id].open) ==> !alive
      ensures !old(conns[id].open) ==> !conns[id].open && (alive ==> conns[id].buffer == [])
    {
      hide Legal, After, Next, Enabled;
      Elsewhere(id);
      if conns[id].buffer != [] {
        Run(id, Take(ok));
        alive := ok;
        if ok {
          Elsewhere(id);
          alive := Batch(id, ok);
        }
      } else if !conns[id].open {
        Run(id, Hangup);
        alive := false;
      } else {
        alive := ok;
        if !ok {
          Run(id, PingFails);
        }
      }
    }

    /**
     The pump: `ticks` says, round by round, whether that round's write or ping succeeds. It ends when one fails, or
     when the closed channel is empty, which takes one round of writing at most; a message that was queued is
     written unless a write fails.
     */
    method WritePump(id: Id, ticks: seq<bool>)
      requires Valid() && id < |conns| && conns[id].writer.Waiting?
      modifies this, conns
      ensures Valid() && old(moves) <= moves
      ensures if conns[id].writer.Waiting? then false !in ticks else conns[id].writer.Ended?
      ensures !old(conns[id].open) && |ticks| > (if old(conns[id].buffer) == [] then 0 else 1) ==>
          conns[id].writer.Ended?
      ensures old(conns[id].buffer) != [] && |ticks| > 0 && ticks[0] ==> conns[id].Written() > old(conns[id].Written())
    {
      hide Legal, After, Next, Enabled;
      for k := 0 to |ticks|
        invariant Valid() && old(moves) <= moves && conns[id].writer.Waiting? && false !in ticks[..k]
        invariant k == 0 ==>
            conns[id].buffer == old(conns[id].buffer) && conns[id].Written() == old(conns[id].Written())
        invariant k > 0 && old(conns[id].buffer) != [] ==> conns[id].Written() > old(conns[id].Written())
        invariant !old(conns[id].open) ==> !conns[id].open
        invariant !old(conns[id].open) && k > 0 ==> conns[id].buffer == [] && old(conns[id].buffer) != [] && k == 1
      {
        var alive := Round(id, ticks[k]);
        if !alive {
          return;
        }
      }
    }
  }

  /**
   What the steps between two states leave of each client: nobody registers, a registered client keeps its starting
   point, one that has left stays so, and, but for those in `gone`, none that was open is closed unless more has been
   broadcast since it registered than a channel holds.
   */
  ghost predicate Steady(s: State, s': State, gone: set<Id>) {
    && s.history <= s'.history && s.conns.Keys == s'.conns.Keys
    && forall id | id in s.conns :: SteadyConn(s.conns[id], s'.conns[id], |s'.history|, id in gone)
  }

  predicate SteadyConn(c: Conn, c': Conn, made: nat, gone: bool) {
    && (c'.reader.Registering? <==> c.reader.Registering?)
    && (!c.reader.Registering? ==> c'.from == c.from)
    && (c.reader.Leaving? && !gone ==> c'.reader.Leaving?) && (c.reader.Left? ==> c'.reader.Left?)
    && (!c.open ==> !c'.open)
    && (c.open && !c'.open && !gone ==> !c.reader.Registering? && made > c.from + CAPACITY)
  }

  lemma SteadyTrans(s: State, s1: State, s2: State, gone: set<Id>, more: set<Id>)
    requires Steady(s, s1, gone) && Steady(s1, s2, more)
    ensures Steady(s, s2, gone + more)
  {
    forall id | id in s.conns ensures SteadyConn(s.conns[id], s2.conns[id], |s2.history|, id in gone + more) {
      assert SteadyConn(s.conns[id], s1.conns[id], |s1.history|, id in gone);
      assert SteadyConn(s1.conns[id], s2.conns[id], |s2.history|, id in more);
    }
  }

  lemma SteadyOn(s: State, s1: State, s2: State, gone: set<Id>)
    requires Steady(s, s1, gone) && Steady(s1, s2, gone)
    ensures Steady(s, s2, gone)
  {
    hide Steady;
    SteadyTrans(s, s1, s2, gone, gone);
    assert gone + gone == gone;
  }

  lemma SteadyRefl(s: State)
    ensures Steady(s, s, {})
  {
  }

  lemma MoveIsSteady(s: State, m: Move)
    requires HubOk(s) && Enabled(s, m) && !m.Open? && !m.Register? && !m.CloseNext?
    ensures Steady(s, Next(s, m), if m.Unregister? then {m.id} else {})
    ensures !m.Unregister? ==> Steady(s, Next(s, m), {})
  {
    hide ConnOk, HubOk, Do, CanDo;
    var s' := Next(s, m);
    var gone := if m.Unregister? then {m.id} else {};
    forall id | id in s.conns ensures SteadyConn(s.conns[id], s'.conns[id], |s'.history|, id in gone) {
      if m == Move.Offer(id) {
        OfferIsSteady(s, id);
      } else if m.Of? && m.id == id {
        DeedIsSteady(s, id, m.deed);
      }
    }
  }

  lemma OfferIsSteady(s: State, id: Id)
    requires HubOk(s) && Enabled(s, Move.Offer(id))
    ensures SteadyConn(s.conns[id], Next(s, Move.Offer(id)).conns[id], |s.history|, false)
  {
    hide Stream;
    assert ConnOk(s.history, s.conns[id], id in s.clients, Awaiting(s.pc, id));
    MembersAreOpen(s, id);
  }

  lemma DeedIsSteady(s: State, id: Id, deed: Deed)
    requires HubOk(s) && id in s.conns && CanDo(s.conns[id], deed)
    ensures SteadyConn(s.conns[id], Do(s.conns[id], deed), |s.history|, false)
  {
    hide Stream;
    assert ConnOk(s.history, s.conns[id], id in s.clients, Awaiting(s.pc, id));
  }

  lemma SteadyMore(s: State, s': State, gone: set<Id>, more: set<Id>)
    requires Steady(s, s', gone) && gone <= more
    ensures Steady(s, s', more)
  {
    forall id | id in s.conns ensures SteadyConn(s.conns[id], s'.conns[id], |s'.history|, id in more) {
      assert SteadyConn(s.conns[id], s'.conns[id], |s'.history|, id in gone);
    }
  }

  lemma CloseIsSteady(s: State, id: Id)
    requires HubOk(s) && Enabled(s, Move.CloseNext(id))
    ensures Steady(s, Next(s, Move.CloseNext(id)), {id})
  {
    hide ConnOk, HubOk;
  }

  function UpTo(n: nat): (ids: set<Id>)
    ensures forall id: Id :: id in ids <==> id < n
  {
    if n == 0 then {} else UpTo(n - 1) + {n - 1}
  }

  // ---- What a request does ----

  ghost predicate ServedConn(c: Conn, c': Conn, before: nat, made: nat, r: Move, id: Id) {
    if r == Move.Register(id) && c.reader.Registering? then c'.reader.Reading? && c'.from == before && c'.open
    else
      && SteadyConn(c, c', made, r == Move.Unregister(id))
      && (r == Move.Unregister(id) && c.reader.Leaving? ==> c'.reader.Left? && !c'.open)
  }

  ghost predicate Served(s: State, s': State, r: Move) {
    && s.conns.Keys == s'.conns.Keys && s'.history == s.history + (if r.Broadcast? then [r.msg] else [])
    && forall id | id in s.conns :: ServedConn(s.conns[id], s'.conns[id], |s.history|, |s'.history|, r, id)
  }

  lemma RegisterServes(s: State, id: Id)
    requires HubOk(s) && Enabled(s, Move.Register(id))
    ensures Served(s, Next(s, Move.Register(id)), Move.Register(id))
  {
    hide ConnOk;
    RegisteringIsOpen(s, id);
  }

  lemma UnregisterServes(s: State, id: Id)
    requires HubOk(s) && Enabled(s, Move.Unregister(id))
    ensures Served(s, Next(s, Move.Unregister(id)), Move.Unregister(id))
  {
    hide Stream;
    assert ConnOk(s.history, s.conns[id], id in s.clients, Awaiting(s.pc, id));
    hide ConnOk;
  }

  lemma BroadcastServes(s: State, s': State, msg: string)
    requires Steady(s, s', {}) && s'.history == s.history + [msg]
    ensures Served(s, s', Move.Broadcast(msg))
  {
    hide SteadyConn;
    forall id | id in s.conns
      ensures ServedConn(s.conns[id], s'.conns[id], |s.history|, |s'.history|, Move.Broadcast(msg), id)
    {
      var none: set<Id> := {};
      assert SteadyConn(s.conns[id], s'.conns[id], |s'.history|, id in none);
    }
  }

  lemma NothingServed(s: State, r: Move)
    requires !r.Broadcast?
    requires r.Register? && r.id in s.conns ==> !s.conns[r.id].reader.Registering?
    requires r.Unregister? && r.id in s.conns ==> !s.conns[r.id].reader.Leaving?
    ensures Served(s, s, r)
  {
  }

  // ---- What a list of requests does ----

  /** The first place of a request in a list. */
  predicate IsFirst(requests: seq<Move>, m: Move, k: nat) {
    k < |requests| && requests[k] == m && m !in requests[..k]
  }

  /** A registered client is still one, unless it unregistered or could have fallen a whole channel behind. */
  predicate StillServed(s: State, requests: seq<Move>, id: Id)
    requires id in s.conns
  {
    id in s.clients || Move.Unregister(id) in requests || |s.history| > s.conns[id].from + CAPACITY
  }

  /**
   What serving some requests has done to a client: one whose registration came before any shutdown gets the
   broadcasts requested after it, and is still served; one that was registered is still served from where it was;
   one that was leaving and whose request came before any shutdown has left.
   */
  ghost predicate Outcome(s0: State, s: State, requests: seq<Move>, cancelled: bool, id: Id)
    requires id in s0.conns && id in s.conns
  {
    var c0, c := s0.conns[id], s.conns[id];
    && (forall k: nat | IsFirst(requests, Move.Register(id), k) && Move.Shutdown !in requests[..k] ::
          c0.reader.Registering? ==>
            && !c.reader.Registering? && c.from == |s0.history| + |Broadcasts(requests[..k])|
            && (cancelled || StillServed(s, requests, id)))
    && (Move.Register(id) !in requests ==> (c.reader.Registering? <==> c0.reader.Registering?))
    && (id in s0.clients ==> c.from == c0.from && (cancelled || StillServed(s, requests, id)))
    && (forall k: nat | IsFirst(requests, Move.Unregister(id), k) && Move.Shutdown !in requests[..k] ::
          c0.reader.Leaving? ==> c.reader.Left? && !c.open && id !in s.clients)
  }

  /** What the first `i` requests have done to a client. */
  ghost predicate ConnSoFar(c0: Conn, c: Conn, requests: seq<Move>, i: nat, id: Id, base: nat, made: nat, closing: bool)
    requires i <= |requests|
  {
    && (c0.reader.Registering? && Move.Register(id) !in requests[..i] ==> c.reader.Registering?)
    && (forall k: nat | IsFirst(requests, Move.Register(id), k) && k < i && c0.reader.Registering? ::
          !c.reader.Registering? && c.from == base + |Broadcasts(requests[..k])|)
    && (!c0.reader.Registering? ==> !c.reader.Registering? && c.from == c0.from)
    && (c0.reader.Leaving? && Move.Unregister(id) !in requests[..i] ==> closing || c.reader.Leaving?)
    && (c0.reader.Leaving? && Move.Unregister(id) in requests[..i] ==> c.reader.Left? && !c.open)
    && (c0.open && !c.open ==>
          || closing || Move.Unregister(id) in requests[..i]
          || (!c.reader.Registering? && made > c.from + CAPACITY))
  }

  ghost predicate ServedSoFar(s0: State, s: State, requests: seq<Move>, i: nat, closing: bool) {
    && i <= |requests| && s.conns.Keys == s0.conns.Keys && s.history == s0.history + Broadcasts(requests[..i])
    && forall id | id in s0.conns ::
         ConnSoFar(s0.conns[id], s.conns[id], requests, i, id, |s0.history|, |s.history|, closing)
  }

  lemma StartServing(s: State, requests: seq<Move>)
    ensures ServedSoFar(s, s, requests, 0, false)
  {
    assert Broadcasts(requests[..0]) == [];
    hide Broadcasts;
    forall id | id in s.conns
      ensures ConnSoFar(s.conns[id], s.conns[id], requests, 0, id, |s.history|, |s.history|, false)
    {
    }
  }

  lemma SteadyConnServes(c0: Conn, c: Conn, c': Conn, requests: seq<Move>, i: nat, id: Id, base: nat, made: nat,
      made': nat, closing: bool)
    requires i <= |requests| && ConnSoFar(c0, c, requests, i, id, base, made, false) && made <= made'
    requires SteadyConn(c, c', made', closing)
    ensures ConnSoFar(c0, c', requests, i, id, base, made', closing)
  {
    hide IsFirst, Broadcasts;
  }

  lemma SteadyServes(s0: State, s: State, s': State, requests: seq<Move>, i: nat)
    requires ServedSoFar(s0, s, requests, i, false) && Steady(s, s', {}) && s'.history == s.history
    ensures ServedSoFar(s0, s', requests, i, false)
  {
    hide ConnSoFar, SteadyConn, Broadcasts;
    var none: set<Id> := {};
    forall id | id in s0.conns
      ensures ConnSoFar(s0.conns[id], s'.conns[id], requests, i, id, |s0.history|, |s'.history|, false)
    {
      assert SteadyConn(s.conns[id], s'.conns[id], |s'.history|, id in none);
      SteadyConnServes(s0.conns[id], s.conns[id], s'.conns[id], requests, i, id, |s0.history|, |s.history|,
          |s'.history|, false);
    }
  }

  lemma ShutdownServes(s0: State, s: State, s': State, requests: seq<Move>, i: nat, all: set<Id>)
    requires ServedSoFar(s0, s, requests, i, false) && Steady(s, s', all) && s'.history == s.history
    requires s0.conns.Keys <= all
    ensures ServedSoFar(s0, s', requests, i, true)
  {
    hide ConnSoFar, SteadyConn, Broadcasts;
    forall id | id in s0.conns
      ensures ConnSoFar(s0.conns[id], s'.conns[id], requests, i, id, |s0.history|, |s'.history|, true)
    {
      assert SteadyConn(s.conns[id], s'.conns[id], |s'.history|, id in all);
      SteadyConnServes(s0.conns[id], s.conns[id], s'.conns[id], requests, i, id, |s0.history|, |s.history|,
          |s'.history|, true);
    }
  }

  lemma OneMoreRequest(requests: seq<Move>, i: nat, m: Move)
    requires i < |requests|
    ensures m in requests[..i + 1] <==> m in requests[..i] || m == requests[i]
    ensures forall k: nat | IsFirst(requests, m, k) && k < i + 1 ::
              k < i || (k == i && m == requests[i] && m !in requests[..i])
  {
    assert requests[..i + 1] == requests[..i] + [requests[i]];
  }

  lemma RequestConnServes(c0: Conn, c: Conn, c': Conn, requests: seq<Move>, i: nat, id: Id, base: nat, made: nat,
      made': nat)
    requires i < |requests| && ConnSoFar(c0, c, requests, i, id, base, made, false) && made <= made'
    requires ServedConn(c, c', made, made', requests[i], id) && made == base + |Broadcasts(requests[..i])|
    ensures ConnSoFar(c0, c', requests, i + 1, id, base, made', false)
  {
    OneMoreRequest(requests, i, Move.Register(id));
    OneMoreRequest(requests, i, Move.Unregister(id));
    hide IsFirst, Broadcasts;
  }

  lemma RequestServes(s0: State, s: State, s': State, requests: seq<Move>, i: nat)
    requires ServedSoFar(s0, s, requests, i, false) && i < |requests| && Served(s, s', requests[i])
    requires Move.Shutdown !in requests[..i] && !requests[i].Shutdown?
    ensures ServedSoFar(s0, s', requests, i + 1, false) && Move.Shutdown !in requests[..i + 1]
  {
    hide ConnSoFar, ServedConn, Broadcasts;
    OneMoreRequest(requests, i, Move.Shutdown);
    assert requests[..i + 1] == requests[..i] + [requests[i]];
    BroadcastsOfOneMore(requests[..i], requests[i]);
    forall id | id in s0.conns
      ensures ConnSoFar(s0.conns[id], s'.conns[id], requests, i + 1, id, |s0.history|, |s'.history|, false)
    {
      RequestConnServes(s0.conns[id], s.conns[id], s'.conns[id], requests, i, id, |s0.history|, |s.history|,
          |s'.history|);
    }
  }

  lemma {:induction false} BroadcastsOfOneMore(requests: seq<Move>, r: Move)
    requires Move.Shutdown !in requests
    ensures Broadcasts(requests + [r]) == Broadcasts(requests) + if r.Broadcast? then [r.msg] else []
  {
    if requests != [] {
      assert (requests + [r])[0] == requests[0] && (requests + [r])[1..] == requests[1..] + [r];
      BroadcastsOfOneMore(requests[1..], r);
    }
  }

  lemma {:induction false} BroadcastsStop(requests: seq<Move>, i: nat)
    requires i < |requests| && requests[i].Shutdown? && Move.Shutdown !in requests[..i]
    ensures Broadcasts(requests) == Broadcasts(requests[..i])
  {
    if i > 0 {
      assert requests[..i][1..] == requests[1..][..i - 1];
      BroadcastsStop(requests[1..], i - 1);
    }
  }

  lemma FirstWasServed(requests: seq<Move>, i: nat, cancelled: bool, m: Move, k: nat)
    requires if cancelled then i < |requests| && requests[i].Shutdown? else i == |requests|
    requires IsFirst(requests, m, k) && Move.Shutdown !in requests[..k] && !m.Shutdown?
    ensures k < i && m in requests[..i]
  {
    if i < k {
      ComesBefore(requests, i, k);
      assert false;
    }
    assert requests[..i][k] == m;
  }

  lemma ComesBefore(requests: seq<Move>, i: nat, k: nat)
    requires i < k <= |requests|
    ensures requests[i] in requests[..k]
  {
    assert requests[..k][i] == requests[i];
  }

  lemma ServedIsRequested(requests: seq<Move>, i: nat, m: Move)
    requires i <= |requests| && m in requests[..i]
    ensures m in requests
  {
  }

  lemma OpenMeansMember(s: State, id: Id)
    requires HubOk(s) && id in s.conns
    ensures !s.conns[id].reader.Registering? ==> (s.conns[id].open <==> id in s.clients)
    ensures s.conns[id].reader.Registering? ==> s.conns[id].open && id !in s.clients
  {
    hide Stream;
    assert ConnOk(s.history, s.conns[id], id in s.clients, Awaiting(s.pc, id));
  }

  /** What has been done to a client when the loop ends, after the first `i` requests. */
  lemma OutcomeOf(s0: State, s: State, requests: seq<Move>, i: nat, cancelled: bool, id: Id)
    requires HubOk(s0) && HubOk(s) && id in s0.conns && id in s.conns
    requires if cancelled then i < |requests| && requests[i].Shutdown? else i == |requests|
    requires ConnSoFar(s0.conns[id], s.conns[id], requests, i, id, |s0.history|, |s.history|, cancelled)
    ensures Outcome(s0, s, requests, cancelled, id)
  {
    OpenMeansMember(s0, id);
    OpenMeansMember(s, id);
    hide HubOk, Broadcasts, IsFirst;
    forall k: nat | IsFirst(requests, Move.Register(id), k) && Move.Shutdown !in requests[..k]
      ensures k < i && Move.Register(id) in requests[..i]
    {
      FirstWasServed(requests, i, cancelled, Move.Register(id), k);
    }
    forall k: nat | IsFirst(requests, Move.Unregister(id), k) && Move.Shutdown !in requests[..k]
      ensures Move.Unregister(id) in requests[..i]
    {
      FirstWasServed(requests, i, cancelled, Move.Unregister(id), k);
    }
    if Move.Unregister(id) in requests[..i] {
      ServedIsRequested(requests, i, Move.Unregister(id));
    }
    if Move.Register(id) in requests[..i] {
      ServedIsRequested(requests, i, Move.Register(id));
    }
  }

  lemma AllServed(s0: State, s: State, requests: seq<Move>, i: nat, cancelled: bool)
    requires HubOk(s0) && HubOk(s) && ServedSoFar(s0, s, requests, i, cancelled) && Move.Shutdown !in requests[..i]
    requires if cancelled then i < |requests| && requests[i].Shutdown? else i == |requests|
    ensures s.history == s0.history + Broadcasts(requests) && (cancelled <==> Move.Shutdown in requests)
    ensures forall id | id in s0.conns :: id in s.conns && Outcome(s0, s, requests, cancelled, id)
  {
    hide HubOk, ConnSoFar, Outcome;
    if cancelled {
      BroadcastsStop(requests, i);
    } else {
      assert requests[..i] == requests;
    }
    hide Broadcasts;
    forall id | id in s0.conns ensures id in s.conns && Outcome(s0, s, requests, cancelled, id) {
      OutcomeOf(s0, s, requests, i, cancelled, id);
    }
  }

  /** What a list of requests has the hub broadcast before it shuts down. */
  function Broadcasts(requests: seq<Move>): seq<string> {
    if requests == [] || requests[0].Shutdown? then []
    else (if requests[0].Broadcast? then [requests[0].msg] else []) + Broadcasts(requests[1..])
  }

  /** A move of client `id`'s own writer. */
  predicate WritersOwn(m: Move, id: Id) {
    m.Of? && m.id == id && !m.deed.ReadFails? && !m.deed.Receive?
  }

  lemma ValidIsOk(h: Hub)
    requires h.Valid()
    ensures HubOk(h.View())
  {
    hide Legal, After;
    RunsKeepHub(h.moves);
  }

  /** Between two broadcasts every registered client has been offered all of them since it registered. */
  lemma ClientsAreServed(h: Hub)
    requires h.Valid() && h.pc.Selecting?
    ensures forall id | id in h.clients :: id < |h.conns| && h.conns[id].until == |h.history|
  {
    hide Legal, After, ConnOk;
    RunsKeepHub(h.moves);
    forall id | id in h.clients ensures id < |h.conns| && h.conns[id].until == |h.history| {
      MembersAreOpen(h.View(), id);
      assert h.View().conns[id] == h.conns[id].View();
    }
  }

  lemma MakeableIsEnabled(h: Hub, m: Move)
    requires h.Valid() && h.CanMake(m)
    ensures Enabled(h.View(), m)
  {
    hide Legal, After, Next, CanDo;
  }

  lemma OthersLeaveTheWriter(h: Hub, m: Move, id: Id)
    requires h.Valid() && Enabled(h.View(), m) && !WritersOwn(m, id) && id < |h.conns| && !h.conns[id].writer.Unborn?
    ensures id in Next(h.View(), m).conns
    ensures var c, c' := h.conns[id].View(), Next(h.View(), m).conns[id];
            && c'.writer == c.writer && |c.buffer| <= |c'.buffer| && (!c.open ==> !c'.open)
            && (!c.open ==> c'.buffer == c.buffer)
            && |c'.received| + |c'.wire| == |c.received| + |c.wire|
  {
    hide Legal, After, HubOk, ConnOk;
    var s := h.View();
    RunsKeepHub(h.moves);
    assert s.conns[id] == h.conns[id].View();
    WriterIsRegistered(s, id);
    TodoAreClients(h);
    if id in s.clients {
      MembersAreOpen(s, id);
    }
  }

  lemma WriterIsRegistered(s: State, id: Id)
    requires HubOk(s) && id in s.conns && !s.conns[id].writer.Unborn?
    ensures !s.conns[id].reader.Registering?
  {
    hide Stream;
    assert ConnOk(s.history, s.conns[id], id in s.clients, Awaiting(s.pc, id));
  }

  lemma TodoAreClients(h: Hub)
    requires h.Valid()
    ensures h.pc.Sending? ==> h.pc.todo <= h.clients
    ensures h.pc.Closing? ==> h.pc.todo <= h.clients
  {
    hide Legal, After;
    RunsKeepHub(h.moves);
  }

  lemma StoppedMeansClosed(h: Hub)
    requires h.Valid() && h.pc.Stopped?
    ensures forall id | 0 <= id < |h.conns| && !h.conns[id].reader.Registering? :: !h.conns[id].open
  {
    hide Legal, After;
    forall id | 0 <= id < |h.conns| && !h.conns[id].reader.Registering? ensures !h.conns[id].open {
      ChannelSafety(h.moves, id);
      assert h.View().conns[id] == h.conns[id].View();
    }
  }

  lemma OfferOutcome(s: State, s': State, id: Id)
    requires Enabled(s, Move.Offer(id)) && s.conns[id].open && !s.panicked
    requires var c, full := s.conns[id], |s.conns[id].buffer| >= CAPACITY;
             var sent := c.(buffer := c.buffer + [s.pc.msg], until := c.until + 1);
             && s'.conns == s.conns[id := if full then CloseChannel(c) else sent]
             && s'.clients == (if full then s.clients - {id} else s.clients)
             && s'.pc == SendingTo(s.pc.msg, s.pc.todo - {id}) && s'.history == s.history && !s'.panicked
    ensures s' == Next(s, Move.Offer(id))
  {
  }

  lemma ClientsExist(h: Hub)
    requires h.Valid()
    ensures forall id | id in h.clients :: id < |h.conns|
  {
    hide Legal, After;
    RunsKeepHub(h.moves);
    assert h.View().clients <= h.View().conns.Keys;
  }

  lemma ClientIsOpen(h: Hub, id: Id)
    requires h.Valid() && id in h.clients && id < |h.conns|
    ensures h.conns[id].open && |h.conns[id].buffer| <= CAPACITY
  {
    hide Legal, After;
    RunsKeepHub(h.moves);
    MembersAreOpen(h.View(), id);
    assert h.View().conns[id] == h.conns[id].View();
  }

  lemma LeaverIsOpen(h: Hub, id: Id)
    requires h.Valid() && id < |h.conns| && h.conns[id].reader.Leaving?
    ensures h.conns[id].open <==> id in h.clients
  {
    hide Legal, After;
    ChannelSafety(h.moves, id);
    assert h.View().conns[id] == h.conns[id].View();
  }

  method MakeClients(n: nat) returns (cs: seq<Client>, ghost ms: seq<Move>)
    ensures |cs| == n && fresh(cs) && forall i, j | 0 <= i < j < n :: cs[i] != cs[j]
    ensures Legal(ms) && After(ms) == State(Views(cs), {}, Selecting, [], false)
  {
    hide Legal, After;
    cs, ms := [], [];
    NoMoves();
    for i := 0 to n
      invariant |cs| == i && fresh(cs)
      invariant forall j, k | 0 <= j < k < i :: cs[j] != cs[k]
      invariant Legal(ms) && After(ms) == State(Views(cs), {}, Selecting, [], false)
    {
      var c := new Client();
      ghost var before := Views(cs);
      cs := cs + [c];
      assert Views(cs) == before[i := NEW_CONN];
      Extended(ms, Open(i));
      ms := ms + [Open(i)];
    }
  }

  ghost function Views(conns: seq<Client>): map<Id, Conn>
    reads conns
  {
    map id: Id | id < |conns| :: conns[id].View()
  }

  lemma OneChanged(before: map<Id, Conn>, conns: seq<Client>, id: Id)
    requires id < |conns| && forall k: Id :: k in before <==> k < |conns|
    requires forall k: Id | k < |conns| && k != id :: before[k] == conns[k].View()
    ensures Views(conns) == before[id := conns[id].View()]
  {
  }

  lemma NoMoves()
    ensures Legal([]) && After([]) == START
  {
  }

  lemma Extended(moves: seq<Move>, m: Move)
    requires Legal(moves) && Enabled(After(moves), m)
    ensures Legal(moves + [m]) && After(moves + [m]) == Next(After(moves), m)
  {
    assert (moves + [m])[..|moves|] == moves;
  }
}
