// The connection around one session and the server loop around the connection.
module Server {
  import opened Bytes
  import opened World
  import opened Model
  import opened Bridge
  import opened Passive

  class XrConnection {
    const env: Env
    const backend: LorahamBackend
    const session: XrSession
    var broken: bool

    ghost predicate Valid()
      reads session.outbox, session.parser, backend`sink, backend`my, backend.parser, session.backend`sink,
            session.backend`my, session.backend.parser
    {
      session.backend == backend && env == backend.env && session.Attached()
    }

    // The state of the running server, as the model has it.
    ghost function Snap(): Node
      reads this, session, session.outbox, session.parser, session.parser.buf,
            backend`my, backend`sink, backend.parser, backend.parser.buf, backend.env, session.backend`sink,
            session.backend`my, session.backend.parser, backend.sink, if backend.sink == null then {} else {backend.sink.outbox}
      requires Valid()
    {
      Node(backend.Snap(), backend.parser.Held(), session.Held(), broken)
    }

    // Attach a new session to the backend and open it.
    constructor (backend: LorahamBackend, now: nat)
      requires backend.Valid() && backend.sink == null
      modifies backend`sink, backend`my, backend.env
      ensures this.backend == backend && Valid() && fresh(session) && fresh(session.outbox)
      ensures fresh(session.parser) && fresh(session.parser.buf)
      ensures Snap() == OpenConnection(Node(old(backend.Snap()), old(backend.parser.Held()), [], false), now)
    {
      env, this.backend, broken := backend.env, backend, false;
      session := new XrSession(backend);
      new;
      session.Attach(now);
    }

    // Offer the queue to the socket and drop what it took.
    method Offer() returns (w: ClientSend)
      requires Valid() && session.outbox.Size() > 0
      modifies session.outbox, env
      ensures Valid()
      ensures var n := old(Snap());
              if n.y.w.script.clientRoom == [] then w == SendAgain && Snap() == n
              else Snap() == Offered(n) && w == Uptake(n)
    {
      var bytes := session.outbox.Peek();
      w := env.SendToClient(bytes);
      if w.Accepted? && w.n > 0 {
        session.outbox.Consume(w.n);
      }
    }

    // One send; true when there may be more to send.
    method SendOnce() returns (again: bool)
      requires Valid() && session.outbox.Size() > 0
      modifies `broken, session.outbox, env
      ensures Valid() && FlushOut(old(Snap())) == if again then FlushOut(Snap()) else Snap()
      ensures again ==> |env.script.clientRoom| < |old(env.script.clientRoom)|
    {
      hide FlushOut;
      FlushStep(Snap());
      var w := Offer();
      again := (w.Accepted? && w.n > 0) || w.SendInterrupted?;
      if !again && !w.SendAgain? {
        broken := true;
      }
    }

    // Send what is queued, as far as the socket takes it.
    method Flush()
      requires Valid()
      modifies `broken, session.outbox, env
      ensures Valid() && Snap() == FlushOut(old(Snap()))
    {
      hide FlushOut;
      while session.outbox.Size() > 0
        invariant Valid() && FlushOut(Snap()) == FlushOut(old(Snap()))
        decreases |env.script.clientRoom|
      {
        var again := SendOnce();
        if !again {
          return;
        }
      }
      FlushStep(Snap());
    }

    method ServiceRead(now: nat)
      requires Valid()
      modifies `broken, session, session.outbox, session.parser, session.parser.buf,
               backend`my, backend.parser, env
      ensures Valid() && Snap() == Model.ServiceRead(old(Snap()), now)
    {
      ReadSocket(now);
      Flush();
    }

    // Input handed to the session; true when the socket may hold more of it.
    method Take(bytes: ClientChunk, now: nat) returns (more: bool)
      requires Valid()
      modifies session, session.outbox, session.parser, session.parser.buf, backend`my, backend.parser, env
      ensures Valid() && env.script.clientIn == old(env.script.clientIn)
      ensures var n := old(Snap());
              var (y, xrHeld) := Model.Feed(n.y, n.xrHeld, bytes, now);
              Snap() == Settle(n.(y := y, xrHeld := xrHeld)) && more == !(IsClosed(y) || |bytes| < 1024)
    {
      hide Model.Feed;
      session.Feed(bytes, now);
      return !session.my.phase.Closed? && |bytes| >= 1024;
    }

    // Read and feed until the socket is drained or the session closes.
    method ReadSocket(now: nat)
      requires Valid()
      modifies `broken, session, session.outbox, session.parser, session.parser.buf,
               backend`my, backend.parser, env
      ensures Valid() && Snap() == ReadClient(old(Snap()), now)
    {
      hide ReadClient, Model.Feed;
      while true
        invariant Valid() && ReadClient(Snap(), now) == ReadClient(old(Snap()), now)
        decreases |env.script.clientIn|
      {
        ReadStep(Snap(), now);
        var r := env.RecvFromClient();
        if r.None? {
          return;
        }
        match r.value
        case FromClient(bytes) =>
          var more := Take(bytes, now);
          if !more {
            return;
          }
        case RecvInterrupted =>
        case _ =>
          broken := true;
          return;
      }
    }

    method IsFinished() returns (done: bool)
      requires Valid()
      ensures done == Finished(Snap())
    {
      if broken {
        return true;
      }
      return session.my.phase.Closed? && session.outbox.Size() == 0;
    }

    method Tick(now: nat)
      requires Valid()
      modifies session, session.outbox, backend`my, backend.parser, env
      ensures Valid() && Snap() == TickNode(old(Snap()), now)
    {
      session.Tick(now);
    }

    // Time, then what it queued.
    method Step(now: nat)
      requires Valid()
      modifies `broken, session, session.outbox, backend`my, backend.parser, env
      ensures Valid() && Snap() == FlushOut(TickNode(old(Snap()), now))
    {
      hide TickNode, FlushOut;
      Tick(now);
      Flush();
    }

    // The destructor: abandon, detach, stop, in this order.
    method Destroy(now: nat)
      requires Valid()
      modifies backend`my, backend`sink, backend.parser, env
      ensures backend.Valid() && backend.sink == null
      ensures Node(backend.Snap(), backend.parser.Held(), [], false) == Teardown(old(Snap()), now)
    {
      backend.AbandonPendingTx(now);
      backend.sink := null;
      backend.Stop();
      env.Note(ConnDrop);
    }
  }

  class XrServer {
    const env: Env
    const backend: LorahamBackend
    var conn: XrConnection?

    ghost function Repr(): set<object>
      reads `conn
    {
      {env, backend, backend.parser, backend.parser.buf} +
      if conn == null then {}
      else {conn, conn.session, conn.session.outbox, conn.session.parser, conn.session.parser.buf}
    }

    ghost predicate Valid()
      reads `conn, Repr()
    {
      && env == backend.env
      && if conn == null then backend.Valid() && backend.sink == null
         else conn.backend == backend && conn.session.backend == backend && conn.Valid()
    }

    ghost function Snap(): Node
      reads `conn, Repr()
      requires Valid()
    {
      if conn == null then Node(backend.Snap(), backend.parser.Held(), [], false) else conn.Snap()
    }

    constructor (setup: Setup)
      ensures Valid() && fresh(Repr()) && env.setup == setup && Snap() == Boot(setup)
    {
      var e := new Env(setup);
      env := e;
      backend := new LorahamBackend(e);
      conn := null;
    }

    method Accept(now: nat)
      requires Valid() && conn == null
      modifies `conn, backend`my, backend`sink, env
      ensures Valid() && conn != null && Snap() == OpenConnection(old(Snap()), now)
      ensures fresh(Repr() - old(Repr()))
    {
      conn := new XrConnection(backend, now);
    }

    // One client at a time: while one is connected every newcomer is closed.
    method TryAccept(arrivals: seq<bool>, now: nat)
      requires Valid()
      modifies `conn, backend`my, backend`sink, env
      ensures Valid() && Snap() == AcceptAll(old(Snap()), arrivals, now)
      ensures fresh(Repr() - old(Repr())) && (old(conn) != null ==> conn == old(conn))
    {
      hide AcceptAll, OpenConnection, Valid, Snap;
      var i := 0;
      while i < |arrivals|
        invariant i <= |arrivals| && Valid() && (old(conn) != null ==> conn == old(conn))
        invariant AcceptAll(Snap(), arrivals[i..], now) == AcceptAll(old(Snap()), arrivals, now)
        invariant fresh(Repr() - old(Repr()))
      {
        AcceptStep(Snap(), arrivals[i..], now);
        SnapSink();
        if conn == null && arrivals[i] {
          Accept(now);
        }
        i := i + 1;
      }
      AcceptStep(Snap(), arrivals[i..], now);
    }

    // Socket input and output of the connection.
    method ServiceSocket(t: Turn)
      requires Valid()
      modifies Repr()
      ensures Valid() && conn == old(conn) && Snap() == Service(old(Snap()), t)
    {
      hide Model.ServiceRead, FlushOut;
      if conn == null {
        return;
      }
      if t.readable {
        conn.ServiceRead(t.tRead);
      }
      if t.writable {
        conn.Flush();
      }
    }

    method PumpBackend(now: nat)
      requires Valid()
      modifies Repr()
      ensures Valid() && conn == old(conn) && Snap() == PollNode(old(Snap()), now)
    {
      hide Poll;
      PollPassive(backend.Snap(), backend.parser.Held(), now);
      backend.Poll(now);
    }

    // Time, output, and the end of a finished connection.
    method FinishTurn(t: Turn)
      requires Valid() && conn != null
      modifies `conn, Repr()
      ensures Valid() && (conn == old(conn) || conn == null) && Snap() == Finish(old(Snap()), t)
    {
      hide TickNode, FlushOut, Teardown;
      conn.Step(t.tTick);
      var done := conn.IsFinished();
      if done {
        conn.Destroy(t.tDrop);
        conn := null;
      }
    }

    // New connections, and the sockets of the one there was before.
    method Intake(t: Turn)
      requires Valid()
      modifies `conn, Repr()
      ensures Valid() && fresh(Repr() - old(Repr()))
      ensures var n := Loaded(old(Snap()), t.script);
              var n1 := AcceptAll(n, t.arrivals, t.tRead);
              Snap() == if n.y.sink.Some? then Service(n1, t) else n1
    {
      hide AcceptAll, Service, Snap;
      Load(t.script);
      SnapSink();
      var connected := conn != null;
      TryAccept(t.arrivals, t.tRead);
      if connected {
        ServiceSocket(t);
      }
    }

    // The backend, then time.
    method Progress(t: Turn)
      requires Valid()
      modifies `conn, Repr()
      ensures Valid() && Repr() <= old(Repr())
      ensures var n := PollNode(old(Snap()), t.tPoll);
              Snap() == if n.y.sink.None? then n else Finish(n, t)
    {
      hide PollNode, Finish;
      PumpBackend(t.tPoll);
      SnapSink();
      if conn != null {
        FinishTurn(t);
      }
    }

    method PollOnce(t: Turn)
      requires Valid()
      modifies `conn, Repr()
      ensures Valid() && fresh(Repr() - old(Repr())) && Snap() == Model.PollOnce(old(Snap()), t)
    {
      hide AcceptAll, Service, PollNode, Finish, Valid, Snap, Repr;
      if !t.pollOk {
        Load(t.script);
        return;
      }
      Intake(t);
      Progress(t);
    }

    // What the environment will answer during the turn.
    method Load(answers: Script)
      requires Valid()
      modifies Repr()
      ensures Valid() && conn == old(conn) && Repr() == old(Repr()) && Snap() == Loaded(old(Snap()), answers)
    {
      env.Load(answers);
    }

    // The loop, over any sequence of turns, from a new server.
    method Serve(turns: seq<Turn>)
      requires Valid() && Snap() == Boot(env.setup)
      modifies `conn, Repr()
      ensures Valid() && Snap() == Run(env.setup, turns)
    {
      hide Model.PollOnce, Run, Boot, Valid, Snap;
      RunStart(env.setup);
      var i := 0;
      while i < |turns|
        invariant i <= |turns| && Valid() && fresh(Repr() - old(Repr()))
        invariant Snap() == Run(env.setup, turns[..i])
      {
        RunStep(env.setup, turns[..i], turns[i]);
        assert turns[..i] + [turns[i]] == turns[..i + 1];
        PollOnce(turns[i]);
        i := i + 1;
      }
      assert turns[..i] == turns;
    }

    method NextTimeout(now: nat) returns (timeout: int)
      requires Valid()
      ensures timeout == ComputeTimeout(Snap(), now)
    {
      var next := backend.NextDeadline();
      if conn != null {
        var s := conn.session.NextDeadline();
        next := Earlier(next, s);
      }
      if next.None? {
        return 100;
      }
      if next.value <= now {
        return 0;
      }
      return Min(next.value - now, 100);
    }

    lemma SnapSink()
      requires Valid()
      ensures Snap().y.sink.None? <==> conn == null
    {
    }
  }

  ghost function Loaded(n: Node, answers: Script): Node {
    n.(y := n.y.(w := n.y.w.(script := answers)))
  }

  lemma AcceptStep(n: Node, arrivals: seq<bool>, now: nat)
    ensures AcceptAll(n, arrivals, now) ==
            if arrivals == [] then n
            else AcceptAll(if n.y.sink.None? && arrivals[0] then OpenConnection(n, now) else n, arrivals[1..], now)
  {
  }

  // What the socket takes of the queue, and the node after that.
  ghost function Uptake(n: Node): ClientSend
    requires n.y.sink.Some? && n.y.w.script.clientRoom != []
  {
    var r := n.y.w.script.clientRoom[0];
    if r.Accepted? then Accepted(Min(r.n, |n.y.sink.value.outbox|)) else r
  }

  ghost function Offered(n: Node): Node
    requires n.y.sink.Some? && n.y.w.script.clientRoom != []
  {
    var s, rooms := n.y.sink.value, n.y.w.script.clientRoom;
    var y1 := n.y.(w := n.y.w.(script := n.y.w.script.(clientRoom := rooms[1..])));
    var r := Uptake(n);
    if r.Accepted? && r.n > 0 then
      n.(y := Note(y1.(sink := Some(s.(outbox := s.outbox[r.n..]))), XrSent(s.outbox[..r.n])))
    else n.(y := y1)
  }

  lemma FlushStep(n: Node)
    requires n.y.sink.Some?
    ensures if n.y.sink.value.outbox == [] || n.y.w.script.clientRoom == [] then FlushOut(n) == n
            else
              var z, r := Offered(n), Uptake(n);
              FlushOut(n) ==
                if (r.Accepted? && r.n > 0) || r.SendInterrupted? then FlushOut(z)
                else if r.SendAgain? then z
                else z.(broken := true)
  {
  }

  lemma ReadStep(n: Node, now: nat)
    requires n.y.sink.Some?
    ensures var input := n.y.w.script.clientIn;
            if input == [] then ReadClient(n, now) == n
            else
              var y1 := n.y.(w := n.y.w.(script := n.y.w.script.(clientIn := input[1..])));
              ReadClient(n, now) ==
                match input[0]
                case FromClient(bytes) =>
                  var (y2, xrHeld) := Model.Feed(y1, n.xrHeld, bytes, now);
                  var n2 := Settle(n.(y := y2, xrHeld := xrHeld));
                  if IsClosed(y2) || |bytes| < 1024 then n2 else ReadClient(n2, now)
                case PeerClosed => n.(y := y1, broken := true)
                case RecvInterrupted => ReadClient(n.(y := y1), now)
                case RecvError => n.(y := y1, broken := true)
  {
    hide Model.Feed;
  }
}
