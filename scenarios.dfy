/** Sessions run from a fresh registry, stating what each participant's
    connection receives. Colour slots are parameters because the server draws
    them at random. */
module Scenarios {
  import opened Colours
  import opened Messages
  import opened Server

  /** A connection is accepted, prompted, and names itself: the accept loop's
      registration followed by a successful handshake in its handler. */
  method Join(r: Registry, conn: ConnId, name: string, slot: nat)
    requires r.Valid() && conn !in r.clients + r.departed && slot < 12
    modifies r
    ensures r.Valid()
    ensures r.clients == old(r.clients) + {conn}
    ensures r.names == old(r.names)[conn := name] && r.colors == old(r.colors)[conn := Pick(slot)]
    ensures r.closed == old(r.closed) && r.departed == old(r.departed)
    ensures forall c :: Inbox(r.log, c)
                        == Inbox(old(r.log), c) + Sent({conn}, c, PromptText) + Sent(r.clients, c, JoinMessage(Pick(slot), name))
  {
    r.Accept(conn);
    r.Prompt(conn);
    r.HandshakeOk(conn, name, slot);
  }

  /** A connection is accepted and prompted, and its peer goes away without
      sending a name. */
  method Abandon(r: Registry, conn: ConnId)
    requires r.Valid() && conn !in r.clients + r.departed
    modifies r
    ensures r.Valid()
    ensures r.clients == old(r.clients) + {conn} && r.closed == old(r.closed) + {conn}
    ensures r.names == old(r.names) && r.colors == old(r.colors) && r.departed == old(r.departed)
    ensures forall c :: Inbox(r.log, c) == Inbox(old(r.log), c) + Sent({conn}, c, PromptText)
  {
    r.Accept(conn);
    r.Prompt(conn);
    r.HandshakeFail(conn);
  }

  /** Alice (connection 1) and then Bob (connection 2) join a fresh server. */
  method AliceAndBob(aliceSlot: nat, bobSlot: nat) returns (r: Registry)
    requires aliceSlot < 12 && bobSlot < 12
    ensures fresh(r) && r.Valid()
    ensures r.clients == {1, 2} && r.closed == {} && r.departed == {}
    ensures r.names == map[1 := "Alice", 2 := "Bob"]
    ensures r.colors == map[1 := Pick(aliceSlot), 2 := Pick(bobSlot)]
    ensures Inbox(r.log, 1) == [PromptText, JoinMessage(Pick(aliceSlot), "Alice"), JoinMessage(Pick(bobSlot), "Bob")]
    ensures Inbox(r.log, 2) == [PromptText, JoinMessage(Pick(bobSlot), "Bob")]
    ensures forall c :: c !in {1, 2} ==> Inbox(r.log, c) == []
  {
    r := new Registry();
    Join(r, 1, "Alice", aliceSlot);
    assert Inbox(r.log, 1) == [PromptText, JoinMessage(Pick(aliceSlot), "Alice")];
    assert Inbox(r.log, 2) == [];
    Join(r, 2, "Bob", bobSlot);
  }

  /** Alice (connection 1) joins a fresh server; then Bob (connection 2)
      connects and goes away without a name. */
  method AliceThenSilentBob(aliceSlot: nat) returns (r: Registry)
    requires aliceSlot < 12
    ensures fresh(r) && r.Valid()
    ensures r.clients == {1, 2} && r.closed == {2} && r.departed == {}
    ensures Inbox(r.log, 1) == [PromptText, JoinMessage(Pick(aliceSlot), "Alice")]
    ensures Inbox(r.log, 2) == [PromptText]
  {
    r := new Registry();
    Join(r, 1, "Alice", aliceSlot);
    assert Inbox(r.log, 1) == [PromptText, JoinMessage(Pick(aliceSlot), "Alice")];
    assert Inbox(r.log, 2) == [];
    Abandon(r, 2);
  }

  /** Alice joins, Bob joins, Alice says "hi": both joins reach Alice, Bob's
      join reaches both, and Alice's line reaches Bob and Alice herself. */
  method JoinThenChat(aliceSlot: nat, bobSlot: nat) returns (alice: seq<string>, bob: seq<string>)
    requires aliceSlot < 12 && bobSlot < 12
    ensures alice == [PromptText, JoinMessage(Pick(aliceSlot), "Alice"), JoinMessage(Pick(bobSlot), "Bob"),
                      ChatMessage(Pick(aliceSlot), "Alice", "hi")]
    ensures bob == [PromptText, JoinMessage(Pick(bobSlot), "Bob"), ChatMessage(Pick(aliceSlot), "Alice", "hi")]
  {
    var r := AliceAndBob(aliceSlot, bobSlot);
    r.Line(1, "hi");
    alice, bob := Inbox(r.log, 1), Inbox(r.log, 2);
  }

  /** Alice leaves after both joined: Bob gets the leave announcement with
      Alice's name and colour, and Bob's next line no longer reaches Alice. */
  method LeaveThenChat(aliceSlot: nat, bobSlot: nat) returns (alice: seq<string>, bob: seq<string>)
    requires aliceSlot < 12 && bobSlot < 12
    ensures alice == [PromptText, JoinMessage(Pick(aliceSlot), "Alice"), JoinMessage(Pick(bobSlot), "Bob")]
    ensures bob == [PromptText, JoinMessage(Pick(bobSlot), "Bob"), LeaveMessage(Pick(aliceSlot), "Alice"),
                    ChatMessage(Pick(bobSlot), "Bob", "anyone?")]
  {
    var r := AliceAndBob(aliceSlot, bobSlot);
    ghost var a2, b2 := Inbox(r.log, 1), Inbox(r.log, 2);
    r.Cleanup(1);
    assert Inbox(r.log, 1) == a2;
    assert Inbox(r.log, 2) == b2 + [LeaveMessage(Pick(aliceSlot), "Alice")];
    r.Line(2, "anyone?");
    alice, bob := Inbox(r.log, 1), Inbox(r.log, 2);
  }

  /** Alice's cleanup run a second time: the tables stay as the first run
      left them, but Bob gets a second leave announcement with an empty name
      and colour (the values Go reads for missing keys). The server never
      does this, as each handler defers its cleanup exactly once. */
  method RepeatedCleanup(aliceSlot: nat, bobSlot: nat)
    returns (bob: seq<string>, clients: set<ConnId>, names: map<ConnId, string>)
    requires aliceSlot < 12 && bobSlot < 12
    ensures bob == [PromptText, JoinMessage(Pick(bobSlot), "Bob"), LeaveMessage(Pick(aliceSlot), "Alice"),
                    LeaveMessage("", "")]
    ensures clients == {2} && names == map[2 := "Bob"]
  {
    var r := AliceAndBob(aliceSlot, bobSlot);
    r.Cleanup(1);
    ghost var b1 := Inbox(r.log, 2);
    assert b1 == [PromptText, JoinMessage(Pick(bobSlot), "Bob"), LeaveMessage(Pick(aliceSlot), "Alice")];
    r.Cleanup(1);
    bob, clients, names := Inbox(r.log, 2), r.clients, r.names;
  }

  /** Bob connects while Alice is chatting and goes away without a name:
      Alice hears nothing about him. Bob's closed connection stays
      registered, so Carol's later join is still written to it. */
  method AbandonedHandshake(aliceSlot: nat, carolSlot: nat)
    returns (alice: seq<string>, bob: seq<string>, bobClosed: bool, bobRegistered: bool)
    requires aliceSlot < 12 && carolSlot < 12
    ensures alice == [PromptText, JoinMessage(Pick(aliceSlot), "Alice"), JoinMessage(Pick(carolSlot), "Carol")]
    ensures bob == [PromptText, JoinMessage(Pick(carolSlot), "Carol")]
    ensures bobClosed && bobRegistered
  {
    var r := AliceThenSilentBob(aliceSlot);
    Join(r, 3, "Carol", carolSlot);
    assert r.clients == {1, 2, 3};
    alice, bob := Inbox(r.log, 1), Inbox(r.log, 2);
    bobClosed, bobRegistered := 2 in r.closed, 2 in r.clients;
  }

  /** Shutdown with Alice and Bob connected closes both connections and
      writes nothing more to either. */
  method ShutdownClosesAll(aliceSlot: nat, bobSlot: nat)
    returns (closed: set<ConnId>, alice: seq<string>, bob: seq<string>)
    requires aliceSlot < 12 && bobSlot < 12
    ensures closed == {1, 2}
    ensures alice == [PromptText, JoinMessage(Pick(aliceSlot), "Alice"), JoinMessage(Pick(bobSlot), "Bob")]
    ensures bob == [PromptText, JoinMessage(Pick(bobSlot), "Bob")]
  {
    var r := AliceAndBob(aliceSlot, bobSlot);
    r.Shutdown();
    closed, alice, bob := r.closed, Inbox(r.log, 1), Inbox(r.log, 2);
  }
}
