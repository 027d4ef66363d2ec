/** The connection bookkeeping of the chat server: the tables `clients`,
    `names` and `colors`, the connections closed so far, and the log of every
    write issued to a connection. Each step of a connection's handler, and the
    shutdown loop, is one atomic method of `Registry`. `Accept`, `Line` and
    `Shutdown` are one locked region each; `HandshakeOk` and `Cleanup` each
    merge two consecutive locked regions; `Prompt` and `HandshakeFail` model
    code that takes no lock. */
module Server {
  import opened Colours
  import opened Messages

  /** A connection, identified abstractly. */
  type ConnId = nat

  /** One write issued on a connection: the recipient and the text. */
  datatype Write = Write(to: ConnId, text: string)

  /** The texts written to connection c, in the order they were written. */
  function Inbox(log: seq<Write>, c: ConnId): seq<string>
  {
    if log == [] then []
    else
      var last := log[|log| - 1];
      Inbox(log[..|log| - 1], c) + if last.to == c then [last.text] else []
  }

  /** What one broadcast of msg to the connections `to` adds to c's inbox. */
  function Sent(to: set<ConnId>, c: ConnId, msg: string): seq<string>
  {
    if c in to then [msg] else []
  }

  /** w writes msg exactly once to every connection in `to`, and nothing else
      to anyone. */
  ghost predicate Broadcasts(w: seq<Write>, to: set<ConnId>, msg: string)
  {
    forall c :: Inbox(w, c) == Sent(to, c, msg)
  }

  lemma {:induction false} InboxAppend(a: seq<Write>, b: seq<Write>, c: ConnId)
    ensures Inbox(a + b, c) == Inbox(a, c) + Inbox(b, c)
    decreases |b|
  {
    if b == [] {
      assert a + b == a;
    } else {
      var b0 := b[..|b| - 1];
      assert (a + b)[..|a + b| - 1] == a + b0;
      InboxAppend(a, b0, c);
    }
  }

  /** Appending a broadcast to a log adds its message to the inbox of each
      recipient, after everything they had received, and to no other inbox. */
  lemma InboxAfterBroadcast(log: seq<Write>, w: seq<Write>, to: set<ConnId>, msg: string)
    requires Broadcasts(w, to, msg)
    ensures forall c :: Inbox(log + w, c) == Inbox(log, c) + Sent(to, c, msg)
  {
    forall c ensures Inbox(log + w, c) == Inbox(log, c) + Sent(to, c, msg) {
      InboxAppend(log, w, c);
    }
  }

  /** The broadcast loop over the registered connections: one write of msg
      to each, in whatever order the set happens to be walked. */
  method Fanout(to: set<ConnId>, msg: string) returns (w: seq<Write>)
    ensures Broadcasts(w, to, msg)
  {
    w := [];
    var rest := to;
    while rest != {}
      invariant rest <= to
      invariant Broadcasts(w, to - rest, msg)
      decreases |rest|
    {
      var c :| c in rest;
      forall d ensures Inbox(w + [Write(c, msg)], d) == Sent(to - (rest - {c}), d, msg) {
        InboxAppend(w, [Write(c, msg)], d);
        assert Inbox([Write(c, msg)], d) == Inbox([], d) + Sent({c}, d, msg);
      }
      w := w + [Write(c, msg)];
      rest := rest - {c};
    }
  }

  /** A Go map read: the stored value, or the empty string when the key is
      absent. */
  function Lookup(m: map<ConnId, string>, k: ConnId): string
  {
    if k in m then m[k] else ""
  }

  /** The registry's tables together with the lifecycle sets of the
      connections' handlers. */
  datatype Tables = Tables(
    clients: set<ConnId>, names: map<ConnId, string>, colors: map<ConnId, string>, closed: set<ConnId>,
    waiting: set<ConnId>, failed: set<ConnId>, departed: set<ConnId>, joined: set<ConnId>)

  /** The registry invariant: exactly the connections that completed their
      handshake have a name and a colour, and the colour is a palette code;
      `clients` holds every connection not yet cleaned up, named or not;
      failed and cleaned-up connections are closed, and only accepted ones
      ever are; a join was announced for exactly the connections that are
      chatting or cleaned up, so never for one still handshaking or failed. */
  ghost predicate Consistent(t: Tables)
  {
    && t.names.Keys == t.colors.Keys
    && (forall c :: c in t.colors ==> IsColour(t.colors[c]))
    && t.clients == t.waiting + t.failed + t.names.Keys
    && t.waiting !! t.failed && t.waiting !! t.names.Keys && t.failed !! t.names.Keys
    && t.departed !! t.clients
    && t.failed + t.departed <= t.closed
    && t.closed <= t.clients + t.departed
    && t.joined == t.names.Keys + t.departed
    && t.joined !! t.waiting + t.failed
  }

  lemma AcceptKeeps(t: Tables, conn: ConnId)
    requires Consistent(t) && conn !in t.clients + t.departed
    ensures Consistent(t.(clients := t.clients + {conn}, waiting := t.waiting + {conn}))
  {
  }

  lemma FailKeeps(t: Tables, conn: ConnId)
    requires Consistent(t) && conn in t.waiting
    ensures Consistent(t.(closed := t.closed + {conn}, waiting := t.waiting - {conn}, failed := t.failed + {conn}))
  {
  }

  lemma RecordKeeps(t: Tables, conn: ConnId, name: string, colour: string)
    requires Consistent(t) && conn in t.waiting && IsColour(colour)
    ensures Consistent(t.(names := t.names[conn := name], colors := t.colors[conn := colour],
                          waiting := t.waiting - {conn}, joined := t.joined + {conn}))
  {
  }

  /** What cleanup does to the tables: drop the connection from `clients`,
      `names` and `colors`, and close it. */
  function Remove(t: Tables, conn: ConnId): (r: Tables)
    ensures conn !in r.clients && conn !in r.names && conn !in r.colors
    ensures conn in r.closed && conn in r.departed && r.joined == t.joined
    ensures forall c :: c != conn ==>
      (c in r.clients <==> c in t.clients) && Lookup(r.names, c) == Lookup(t.names, c)
      && Lookup(r.colors, c) == Lookup(t.colors, c)
  {
    t.(clients := t.clients - {conn}, names := t.names - {conn}, colors := t.colors - {conn},
       closed := t.closed + {conn}, departed := t.departed + {conn})
  }

  lemma RemoveKeeps(t: Tables, conn: ConnId)
    requires Consistent(t) && (conn in t.names || conn in t.departed)
    ensures Consistent(Remove(t, conn))
  {
  }

  /** Cleaning up a connection that was already cleaned up leaves the tables
      as they are: deleting an absent key is a no-op and closing is
      idempotent. */
  lemma RemoveAgainIsNoop(t: Tables, conn: ConnId)
    requires Consistent(t) && conn in t.departed
    ensures Remove(t, conn) == t
  {
  }

  lemma CloseAllKeeps(t: Tables)
    requires Consistent(t)
    ensures Consistent(t.(closed := t.closed + t.clients))
  {
  }

  class Registry {
    /** Every accepted connection that has not been cleaned up. */
    var clients: set<ConnId>
    /** Display name of each connection that completed its handshake. */
    var names: map<ConnId, string>
    /** Colour code of each connection that completed its handshake. */
    var colors: map<ConnId, string>
    /** Connections that have been closed. */
    var closed: set<ConnId>
    /** Every write issued to a connection, in order. */
    var log: seq<Write>
    /** Where each accepted connection's handler is. A connection is waiting
        for its name, gave up before naming itself, is chatting (exactly when
        it has an entry in `names`), or was cleaned up after its chat loop. */
    ghost var waiting: set<ConnId>
    ghost var failed: set<ConnId>
    ghost var departed: set<ConnId>
    /** Connections whose join has been announced. */
    ghost var joined: set<ConnId>

    ghost function Snap(): Tables
      reads this
    {
      Tables(clients, names, colors, closed, waiting, failed, departed, joined)
    }

    ghost predicate Valid()
      reads this
    {
      Consistent(Snap())
    }

    constructor ()
      ensures Valid()
      ensures clients == {} && names == map[] && colors == map[] && closed == {} && log == []
      ensures waiting == {} && failed == {} && departed == {} && joined == {}
    {
      clients, names, colors, closed, log := {}, map[], map[], {}, [];
      waiting, failed, departed, joined := {}, {}, {}, {};
    }

    /** The accept loop registers a new connection before its handler asks
        for a name. */
    method Accept(conn: ConnId)
      requires Valid() && conn !in clients + departed
      modifies this`clients, this`waiting
      ensures Valid()
      ensures clients == old(clients) + {conn}
      ensures names == old(names) && colors == old(colors)
      ensures closed == old(closed) && log == old(log)
      ensures waiting == old(waiting) + {conn} && failed == old(failed) && departed == old(departed)
      ensures joined == old(joined)
    {
      AcceptKeeps(Snap(), conn);
      clients := clients + {conn};
      waiting := waiting + {conn};
    }

    /** The handler's first, unlocked, write: the name prompt. */
    method Prompt(conn: ConnId)
      requires Valid() && conn in waiting
      modifies this`log
      ensures Valid()
      ensures log == old(log) + [Write(conn, PromptText)]
      ensures forall c :: Inbox(log, c) == Inbox(old(log), c) + Sent({conn}, c, PromptText)
    {
      forall c ensures Inbox(log + [Write(conn, PromptText)], c) == Inbox(log, c) + Sent({conn}, c, PromptText) {
        InboxAppend(log, [Write(conn, PromptText)], c);
        assert Inbox([Write(conn, PromptText)], c) == Inbox([], c) + Sent({conn}, c, PromptText);
      }
      log := log + [Write(conn, PromptText)];
    }

    /** The peer went away before sending a name: the handler closes the
        connection and returns. It stays in `clients`, nothing is written and
        no name or colour is recorded. */
    method HandshakeFail(conn: ConnId)
      requires Valid() && conn in waiting
      modifies this`closed, this`waiting, this`failed
      ensures Valid()
      ensures closed == old(closed) + {conn}
      ensures clients == old(clients) && conn in clients
      ensures names == old(names) && colors == old(colors) && log == old(log)
      ensures waiting == old(waiting) - {conn} && failed == old(failed) + {conn} && departed == old(departed)
      ensures joined == old(joined) && conn !in joined
    {
      FailKeeps(Snap(), conn);
      closed := closed + {conn};
      waiting := waiting - {conn};
      failed := failed + {conn};
    }

    /** The peer sent its name: record it with the colour of the drawn slot,
        then announce the join to every registered connection, the joiner and
        connections still handshaking included. */
    method HandshakeOk(conn: ConnId, name: string, slot: nat)
      requires Valid() && conn in waiting
      requires slot < |Palette()|
      modifies this`names, this`colors, this`log, this`waiting, this`joined
      ensures Valid()
      ensures names == old(names)[conn := name]
      ensures colors == old(colors)[conn := Palette()[slot]]
      ensures clients == old(clients) && closed == old(closed)
      ensures waiting == old(waiting) - {conn} && failed == old(failed) && departed == old(departed)
      ensures joined == old(joined) + {conn}
      ensures old(log) <= log
      ensures forall c :: Inbox(log, c) == Inbox(old(log), c) + Sent(clients, c, JoinMessage(Palette()[slot], name))
      ensures Inbox(log, conn) == Inbox(old(log), conn) + [JoinMessage(Palette()[slot], name)]
    {
      var colour := Pick(slot);
      PaletteIff(colour);
      RecordKeeps(Snap(), conn, name, colour);
      names := names[conn := name];
      colors := colors[conn := colour];
      waiting := waiting - {conn};
      joined := joined + {conn};
      var joinMsg := JoinMessage(colour, name);
      var w := Fanout(clients, joinMsg);
      InboxAfterBroadcast(log, w, clients, joinMsg);
      log := log + w;
    }

    /** One line read in the chat loop: sent, prefixed with the sender's
        colour and name, to every registered connection, the sender included.
        The tables do not change. */
    method Line(conn: ConnId, text: string)
      requires Valid() && conn in names
      modifies this`log
      ensures Valid()
      ensures conn in names && conn in colors
      ensures old(log) <= log
      ensures forall c :: Inbox(log, c) == Inbox(old(log), c) + Sent(clients, c, ChatMessage(colors[conn], names[conn], text))
      ensures Inbox(log, conn) == Inbox(old(log), conn) + [ChatMessage(colors[conn], names[conn], text)]
    {
      var msg := ChatMessage(Lookup(colors, conn), Lookup(names, conn), text);
      var w := Fanout(clients, msg);
      InboxAfterBroadcast(log, w, clients, msg);
      log := log + w;
    }

    /** The deferred cleanup once the chat loop ends: read the name and colour,
        drop the connection from all three tables, close it, then announce
        the departure to the connections still registered, which no longer
        include the departing one. */
    method Cleanup(conn: ConnId)
      requires Valid() && (conn in names || conn in departed)
      modifies this`clients, this`names, this`colors, this`closed, this`log, this`departed
      ensures Valid()
      ensures Snap() == Remove(old(Snap()), conn)
      ensures clients == old(clients) - {conn}
      ensures names == old(names) - {conn} && colors == old(colors) - {conn}
      ensures closed == old(closed) + {conn}
      ensures departed == old(departed) + {conn} && waiting == old(waiting) && failed == old(failed)
      ensures conn in old(joined) && joined == old(joined)
      ensures old(conn in departed) ==> Snap() == old(Snap())
      ensures old(log) <= log
      ensures forall c :: Inbox(log, c) == Inbox(old(log), c)
                          + Sent(clients, c, LeaveMessage(Lookup(old(colors), conn), Lookup(old(names), conn)))
      ensures Inbox(log, conn) == Inbox(old(log), conn)
    {
      RemoveKeeps(Snap(), conn);
      if conn in departed {
        RemoveAgainIsNoop(Snap(), conn);
      }
      var leftName := Lookup(names, conn);
      var leftColor := Lookup(colors, conn);
      names := names - {conn};
      colors := colors - {conn};
      clients := clients - {conn};
      departed := departed + {conn};
      closed := closed + {conn};
      var leaveMsg := LeaveMessage(leftColor, leftName);
      var w := Fanout(clients, leaveMsg);
      InboxAfterBroadcast(log, w, clients, leaveMsg);
      log := log + w;
    }

    /** The shutdown path after the listener is closed: close every
        registered connection, writing nothing and leaving the tables as
        they are. */
    method Shutdown()
      requires Valid()
      modifies this`closed
      ensures Valid()
      ensures closed == old(closed) + clients
      ensures clients == old(clients) && names == old(names) && colors == old(colors)
      ensures log == old(log)
    {
      CloseAllKeeps(Snap());
      var rest := clients;
      while rest != {}
        invariant rest <= clients
        invariant closed == old(closed) + (clients - rest)
        decreases rest
      {
        var c :| c in rest;
        closed := closed + {c};
        rest := rest - {c};
      }
    }
  }
}
