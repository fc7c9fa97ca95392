/** Client walks through both registries, proved from their contracts alone. */
module Scenarios {
  import opened Enumeration
  import opened WearProvider
  import opened WearPlugin

  /** Two nodes appear and both are announced, in the order observed. */
  method SyncTwoNodes() returns (s: WearProviderService)
    ensures fresh(s)
    ensures s.nodes == {"A", "B"} && s.listeners == [] && s.delivered == []
    ensures s.pending == [Notify(Connected("A")), Notify(Connected("B"))]
  {
    TwoNewNodes();
    s := new WearProviderService();
    ghost var removed := s.SyncNodes(["A", "B"]);
    EnumerationSize(removed, {});
    assert DisconnectTasks(removed) == [];
  }

  /** What syncing an empty service against "A", "B" computes. */
  lemma TwoNewNodes()
    ensures Elems(["A", "B"]) == {"A", "B"}
    ensures {} - Elems(["A", "B"]) == {}
    ensures ConnectTasks(Fresh(["A", "B"], {})) == [Notify(Connected("A")), Notify(Connected("B"))]
  {
    assert Fresh(["A", "B"], {}) == ["A", "B"] by {
      assert ["A", "B"][..1] == ["A"];
      assert ["A"][..0] == [];
    }
  }

  method SyncScenario()
  {
    var s := SyncTwoNodes();
    DropScenario(s);
  }

  /** Of two known nodes one goes away: only it is announced as disconnected. */
  method DropScenario(s: WearProviderService)
    requires s.nodes == {"A", "B"}
    modifies s
  {
    assert Fresh(["B"], {"A", "B"}) == [] by {
      assert ["B"][..0] == [];
    }
    ghost var queued := s.pending;
    ghost var removed := s.SyncNodes(["B"]);
    EnumerationSize(removed, {"A"});
    assert removed[0] in Elems(removed);
    assert s.nodes == {"B"};
    assert s.pending == queued + [DisconnectTask("A")];
  }

  /** Syncing twice against the same nodes queues nothing the second time. */
  method ResyncScenario(observed: seq<NodeId>)
  {
    var s := new WearProviderService();
    ghost var removed := s.SyncNodes(observed);
    ghost var queued := s.pending;
    removed := s.SyncNodes(observed);
    ResyncIsQuiet(observed, removed);
    assert s.pending == queued;
  }

  /** A listener registered after two nodes appeared, while their connect
      tasks are still queued, is told about both at once by the replay, and
      then again by each queued task as it runs: node "A" reaches it twice. */
  method ReplayScenario()
  {
    var s := SyncTwoNodes();
    ReplayThenQueue(s);
  }

  method ReplayThenQueue(s: WearProviderService)
    requires s.nodes == {"A", "B"} && s.listeners == [] && s.delivered == []
    requires s.pending == [Notify(Connected("A")), Notify(Connected("B"))]
    modifies s
  {
    var ok, replayed := s.AddListener(7, {});
    EnumerationSize(replayed, {"A", "B"});
    assert ok && |s.delivered| == 2;
    assert "A" in Elems(replayed);
    ghost var i :| 0 <= i < 2 && replayed[i] == "A";
    assert s.delivered[i] == Call(7, Connected("A"));

    SurvivorsAllLive([7], {});
    var ran := s.RunNext({});
    assert ran && s.listeners == [7];
    assert s.delivered[2] == Call(7, Connected("A"));
  }

  /** A failing listener is pruned by the first pass that reaches it and the
      others still receive the event. */
  method PruningScenario()
  {
    var s := new WearProviderService();
    var ok, replayed := s.AddListener(1, {});
    ok, replayed := s.AddListener(2, {});
    ok, replayed := s.AddListener(3, {});
    assert s.listeners == [1, 2, 3] && s.pending == [];
    PruningPass(s);
  }

  method PruningPass(s: WearProviderService)
    requires s.listeners == [1, 2, 3] && s.pending == []
    modifies s
  {
    ghost var before := s.delivered;
    s.MessageReceived("A", "hello");
    var ran := s.RunNext({2});
    assert Survivors([1, 2, 3], {2}) == [1, 3] by {
      assert [1, 2, 3][..2] == [1, 2];
      assert [1, 2][..1] == [1];
      assert [1][..0] == [];
    }
    assert s.listeners == [1, 3];
    assert s.delivered == before + CallsTo([1, 3], DataReceived("A", "hello"));
    assert s.delivered == before + [Call(1, DataReceived("A", "hello")), Call(3, DataReceived("A", "hello"))];
  }

  /** Data for a connection reaches its data callbacks with the handle. */
  method DeliveryScenario()
  {
    var p := new AndroidWearPlugin(false);
    p.ListenerOnConnect("A");
    p.OnDataReceived("A", 10);
    assert p.Table()["A"].data == [10];

    var before := p.outbox;
    p.ListenerOnDataReceived("A", "hello");
    assert p.outbox == before + Notices([10], CreateJsonObject("A", Some("hello")));
  }

  /** A connection that reported an error is gone: its error callbacks hear
      about it, registering on it fails, and data from the same node starts a
      fresh, listener-less connection. */
  method ErrorScenario()
  {
    var p := new AndroidWearPlugin(false);
    p.ListenerOnConnect("A");
    p.OnError("A", 11);
    assert p.Table()["A"].errors == [11];

    var before := p.outbox;
    p.ListenerOnError("A", "gone");
    assert p.outbox == before + Notices([11], CreateJsonObject("A", Some("gone")));
    assert "A" !in p.connections;

    before := p.outbox;
    p.OnDataReceived("A", 12);
    assert p.outbox == before + [Sent(12, Error("Invalid connection handle"))];

    p.ListenerOnDataReceived("A", "again");
    assert p.Table()["A"] == Listeners([], []);
  }

  /** Sending while the service is unbound fails without calling it; an
      unknown action is not handled. */
  method SendScenario()
  {
    var p := new AndroidWearPlugin(false);
    assert ParseAction("sendData") == Some(SendData);
    var r, order := p.Execute("sendData", ["A", "payload"], 13, None);
    assert r == Returned(true);
    assert p.outbox == [Sent(13, Error("Service not present"))];
    assert p.serviceCalls == [];

    r, order := p.Execute("close", [], 14, None);
    assert r == Returned(false);

    r, order := p.Execute("onError", [], 15, None);
    assert r == ThrewJsonException;
  }
}
