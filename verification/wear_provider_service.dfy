/** The wearable-side service: the authoritative set of reachable nodes, the
    list of remote listeners, and the background handler through which every
    notification and every outbound send is deferred.

    Calls into a remote listener can fail (the listener's process is gone);
    which listeners fail during one pass is an oracle, the `dead` parameter.
    The handler's message queue is the `pending` sequence, drained one task at
    a time by `RunNext`.
 */
module WearProvider {
  import opened Enumeration

  type NodeId = string
  type ListenerId = nat

  /** The only message path the service forwards and sends on. */
  const MessagePath: string := "/NewMessage"

  /** The three callbacks of a remote listener. */
  datatype Event =
    | Connected(node: NodeId)
    | Failed(node: NodeId, detail: string)
    | DataReceived(node: NodeId, message: string)

  /** A unit of work posted to the background handler. */
  datatype Task =
    | Notify(event: Event)
    | Transmit(node: NodeId, data: string)

  /** One listener callback that returned normally. */
  datatype Call = Call(listener: ListenerId, event: Event)

  /** One message handed to the wearable transport. */
  datatype Transmission = Transmission(node: NodeId, path: string, payload: string)

  function DisconnectDetail(node: NodeId): string
  {
    "Node disconnected: " + node
  }

  /** The task `removeNode` posts for `node`. */
  function DisconnectTask(node: NodeId): Task
  {
    Notify(Failed(node, DisconnectDetail(node)))
  }

  function DisconnectTasks(ids: seq<NodeId>): seq<Task>
  {
    seq(|ids|, j requires 0 <= j < |ids| => DisconnectTask(ids[j]))
  }

  function ConnectTasks(ids: seq<NodeId>): seq<Task>
  {
    seq(|ids|, j requires 0 <= j < |ids| => Notify(Connected(ids[j])))
  }

  /** One successful call of `e` to each of `ls`, in order. */
  function CallsTo(ls: seq<ListenerId>, e: Event): seq<Call>
  {
    seq(|ls|, j requires 0 <= j < |ls| => Call(ls[j], e))
  }

  /** The onConnect replay to listener `l` for each of `ids`, in order. */
  function Replays(l: ListenerId, ids: seq<NodeId>): seq<Call>
  {
    seq(|ids|, j requires 0 <= j < |ids| => Call(l, Connected(ids[j])))
  }

  // ---------------------------------------------------------------------------
  // Fanout: which listeners survive a notification pass

  /** `ls` with the failing listeners taken out, order kept. */
  function Survivors(ls: seq<ListenerId>, dead: set<ListenerId>): seq<ListenerId>
  {
    if ls == [] then []
    else
      var last := ls[|ls| - 1];
      Survivors(ls[..|ls| - 1], dead) + (if last in dead then [] else [last])
  }

  /** Each listener keeps exactly its live occurrences: a failing one is gone,
      a live one stays as many times as it was registered. */
  lemma {:induction false} SurvivorsCount(ls: seq<ListenerId>, dead: set<ListenerId>, x: ListenerId)
    ensures multiset(Survivors(ls, dead))[x] == if x in dead then 0 else multiset(ls)[x]
  {
    if ls != [] {
      var init, last := ls[..|ls| - 1], ls[|ls| - 1];
      assert ls == init + [last];
      SurvivorsCount(init, dead, x);
    }
  }

  /** Filtering distributes over concatenation: the relative order of the
      surviving listeners is the order they were registered in. */
  lemma {:induction false} SurvivorsAppend(a: seq<ListenerId>, b: seq<ListenerId>, dead: set<ListenerId>)
    ensures Survivors(a + b, dead) == Survivors(a, dead) + Survivors(b, dead)
  {
    if b == [] {
      assert a + b == a;
    } else {
      var init, last := b[..|b| - 1], b[|b| - 1];
      assert (a + b)[..|a + b| - 1] == a + init;
      SurvivorsAppend(a, init, dead);
    }
  }

  /** A pass in which no listener fails leaves the list as it was. */
  lemma {:induction false} SurvivorsAllLive(ls: seq<ListenerId>, dead: set<ListenerId>)
    requires forall i :: 0 <= i < |ls| ==> ls[i] !in dead
    ensures Survivors(ls, dead) == ls
  {
    if ls != [] {
      SurvivorsAllLive(ls[..|ls| - 1], dead);
    }
  }

  /** A listener pruned by one pass (failures `dead`) receives no call from
      the next pass over the pruned list, whatever fails in that pass
      (`dead2`). */
  lemma NoCallToPruned(ls: seq<ListenerId>, dead: set<ListenerId>, dead2: set<ListenerId>, e: Event, x: ListenerId)
    requires x in dead
    ensures forall c :: c in CallsTo(Survivors(Survivors(ls, dead), dead2), e) ==> c.listener != x
  {
    SurvivorsCount(ls, dead, x);
    SurvivorsCount(Survivors(ls, dead), dead2, x);
    var s := Survivors(Survivors(ls, dead), dead2);
    forall c | c in CallsTo(s, e) ensures c.listener != x {
      var j :| 0 <= j < |s| && CallsTo(s, e)[j] == c;
      assert s[j] in multiset(s);
    }
  }

  // ---------------------------------------------------------------------------
  // syncNodes: which observed ids are new

  /** The observed ids that `syncNodes` hands to `addNode` with effect, in the
      order observed: those not in `known` and not seen earlier in the list. */
  function Fresh(observed: seq<NodeId>, known: set<NodeId>): seq<NodeId>
  {
    if observed == [] then []
    else
      var init, last := observed[..|observed| - 1], observed[|observed| - 1];
      Fresh(init, known) + (if last in known || last in init then [] else [last])
  }

  /** The fresh ids are exactly the observed ids that were not known, each once. */
  lemma {:induction false} FreshEnumerates(observed: seq<NodeId>, known: set<NodeId>)
    ensures Enumerates(Fresh(observed, known), Elems(observed) - known)
  {
    if observed != [] {
      var init, last := observed[..|observed| - 1], observed[|observed| - 1];
      assert observed == init + [last];
      FreshEnumerates(init, known);
      assert Elems(observed) == Elems(init) + {last};
      if !(last in known || last in init) {
        EnumeratesSnoc(Fresh(init, known), Elems(init) - known, last);
        assert Elems(observed) - known == (Elems(init) - known) + {last};
      } else {
        assert Elems(observed) - known == Elems(init) - known;
      }
    }
  }

  /** No id is both announced as disconnected and as connected by one sync. */
  lemma AddedAndRemovedDisjoint(observed: seq<NodeId>, known: set<NodeId>, removed: seq<NodeId>)
    requires Enumerates(removed, known - Elems(observed))
    ensures forall x :: x in removed ==> x !in Fresh(observed, known)
  {
    FreshEnumerates(observed, known);
    forall x | x in removed ensures x !in Fresh(observed, known) {
      assert x in Elems(removed);
      assert x !in Elems(Fresh(observed, known));
    }
  }

  /** Syncing against the set already held queues nothing. */
  lemma ResyncIsQuiet(observed: seq<NodeId>, removed: seq<NodeId>)
    requires Enumerates(removed, Elems(observed) - Elems(observed))
    ensures DisconnectTasks(removed) + ConnectTasks(Fresh(observed, Elems(observed))) == []
  {
    FreshEnumerates(observed, Elems(observed));
    EnumerationSize(Fresh(observed, Elems(observed)), {});
    EnumerationSize(removed, {});
  }

  // ---------------------------------------------------------------------------
  // removeListener

  /** `ls` without its first occurrence of `l`. */
  function RemoveFirst(ls: seq<ListenerId>, l: ListenerId): seq<ListenerId>
  {
    if ls == [] then []
    else if ls[0] == l then ls[1..]
    else [ls[0]] + RemoveFirst(ls[1..], l)
  }

  /** Removing the first occurrence at index `i` keeps everything else in order. */
  lemma {:induction false} RemoveFirstAt(ls: seq<ListenerId>, l: ListenerId, i: nat)
    requires i < |ls| && ls[i] == l && l !in ls[..i]
    ensures RemoveFirst(ls, l) == ls[..i] + ls[i + 1..]
  {
    if i > 0 {
      assert ls[0] in ls[..i];
      assert ls[1..][..i - 1] == ls[1..i];
      RemoveFirstAt(ls[1..], l, i - 1);
      assert ls[1..][i..] == ls[i + 1..];
    }
  }

  /** Removing an unregistered listener changes nothing. */
  lemma {:induction false} RemoveFirstAbsent(ls: seq<ListenerId>, l: ListenerId)
    requires l !in ls
    ensures RemoveFirst(ls, l) == ls
  {
    if ls != [] {
      RemoveFirstAbsent(ls[1..], l);
    }
  }

  // ---------------------------------------------------------------------------
  // The service

  class WearProviderService {
    /** Ids of the reachable wearable nodes. */
    var nodes: set<NodeId>
    /** Registered remote listeners, in registration order. */
    var listeners: seq<ListenerId>
    /** Tasks posted to the background handler and not yet run. */
    var pending: seq<Task>
    /** Listener callbacks that completed, oldest first. */
    var delivered: seq<Call>
    /** Messages handed to the transport, oldest first. */
    var transmitted: seq<Transmission>

    constructor ()
      ensures nodes == {} && listeners == [] && pending == []
      ensures delivered == [] && transmitted == []
    {
      nodes, listeners, pending := {}, [], [];
      delivered, transmitted := [], [];
    }

    /** Adds a node; only a node not yet known is announced. */
    method AddNode(id: NodeId)
      modifies this
      ensures nodes == old(nodes) + {id}
      ensures pending == if id in old(nodes) then old(pending) else old(pending) + [Notify(Connected(id))]
      ensures listeners == old(listeners) && delivered == old(delivered) && transmitted == old(transmitted)
    {
      if id in nodes {
        return;
      }
      nodes := nodes + {id};
      pending := pending + [Notify(Connected(id))];
    }

    /** Removes a node; only a known node is announced as disconnected. */
    method RemoveNode(id: NodeId)
      modifies this
      ensures nodes == old(nodes) - {id}
      ensures pending == if id in old(nodes) then old(pending) + [DisconnectTask(id)] else old(pending)
      ensures listeners == old(listeners) && delivered == old(delivered) && transmitted == old(transmitted)
    {
      if id !in nodes {
        return;
      }
      nodes := nodes - {id};
      pending := pending + [DisconnectTask(id)];
    }

    /** Reconciles `nodes` with the ids of the nodes currently reachable.
        `removed` is the (unspecified) order in which stale ids were dropped. */
    method SyncNodes(observed: seq<NodeId>) returns (ghost removed: seq<NodeId>)
      modifies this
      ensures nodes == Elems(observed)
      ensures Enumerates(removed, old(nodes) - Elems(observed))
      ensures pending == old(pending) + DisconnectTasks(removed) + ConnectTasks(Fresh(observed, old(nodes)))
      ensures listeners == old(listeners) && delivered == old(delivered) && transmitted == old(transmitted)
    {
      ghost var stale0 := nodes - Elems(observed);
      var stale := nodes - Elems(observed);
      removed := [];
      while stale != {}
        invariant stale <= stale0
        invariant nodes == old(nodes) - (stale0 - stale)
        invariant Enumerates(removed, stale0 - stale)
        invariant pending == old(pending) + DisconnectTasks(removed)
        invariant listeners == old(listeners) && delivered == old(delivered) && transmitted == old(transmitted)
        decreases stale
      {
        var id :| id in stale;
        RemoveNode(id);
        EnumeratesSnoc(removed, stale0 - stale, id);
        assert DisconnectTasks(removed + [id]) == DisconnectTasks(removed) + [DisconnectTask(id)];
        removed := removed + [id];
        stale := stale - {id};
      }
      assert nodes == old(nodes) * Elems(observed);
      ghost var mid := pending;

      var i := 0;
      while i < |observed|
        invariant 0 <= i <= |observed|
        invariant nodes == old(nodes) * Elems(observed) + Elems(observed[..i])
        invariant pending == mid + ConnectTasks(Fresh(observed[..i], old(nodes)))
        invariant listeners == old(listeners) && delivered == old(delivered) && transmitted == old(transmitted)
      {
        var id := observed[i];
        assert observed[..i + 1][..i] == observed[..i];
        assert Elems(observed[..i + 1]) == Elems(observed[..i]) + {id};
        if id !in nodes {
          AddNode(id);
          assert ConnectTasks(Fresh(observed[..i + 1], old(nodes)))
              == ConnectTasks(Fresh(observed[..i], old(nodes))) + [Notify(Connected(id))];
        }
        i := i + 1;
      }
      assert observed[..i] == observed;
    }

    /** Queues delivery of a message from `nodeId` to every listener. */
    method MessageReceived(nodeId: NodeId, message: string)
      modifies this
      ensures pending == old(pending) + [Notify(DataReceived(nodeId, message))]
      ensures nodes == old(nodes) && listeners == old(listeners)
      ensures delivered == old(delivered) && transmitted == old(transmitted)
    {
      pending := pending + [Notify(DataReceived(nodeId, message))];
    }

    /** Transport callback: only messages on the plugin's path are forwarded. */
    method OnMessageReceived(path: string, sourceNodeId: NodeId, data: string)
      modifies this
      ensures pending == if path == MessagePath
                         then old(pending) + [Notify(DataReceived(sourceNodeId, data))]
                         else old(pending)
      ensures nodes == old(nodes) && listeners == old(listeners)
      ensures delivered == old(delivered) && transmitted == old(transmitted)
    {
      if path == MessagePath {
        MessageReceived(sourceNodeId, data);
      }
    }

    /** Queues a send to `nodeId`; the transport call happens when the task runs. */
    method SendMessage(nodeId: NodeId, data: string)
      modifies this
      ensures pending == old(pending) + [Transmit(nodeId, data)]
      ensures nodes == old(nodes) && listeners == old(listeners)
      ensures delivered == old(delivered) && transmitted == old(transmitted)
    {
      pending := pending + [Transmit(nodeId, data)];
    }

    /** Registers a listener and replays onConnect for every known node.
        If the listener fails during the replay, the replay stops at that call
        and `ok` is false; the listener stays registered. */
    method AddListener(l: ListenerId, dead: set<ListenerId>) returns (ok: bool, ghost replayed: seq<NodeId>)
      modifies this
      ensures listeners == old(listeners) + [l]
      ensures ok == (l !in dead || nodes == {})
      ensures ok ==> Enumerates(replayed, nodes) && delivered == old(delivered) + Replays(l, replayed)
      ensures !ok ==> delivered == old(delivered)
      ensures nodes == old(nodes) && pending == old(pending) && transmitted == old(transmitted)
    {
      listeners := listeners + [l];
      ok, replayed := true, [];
      var rest := nodes;
      while rest != {}
        invariant rest <= nodes
        invariant Enumerates(replayed, nodes - rest)
        invariant l in dead ==> replayed == [] && rest == nodes
        invariant delivered == old(delivered) + Replays(l, replayed)
        invariant listeners == old(listeners) + [l]
        invariant nodes == old(nodes) && pending == old(pending) && transmitted == old(transmitted)
        decreases rest
      {
        var node :| node in rest;
        if l in dead {
          ok := false;
          return;
        }
        EnumeratesSnoc(replayed, nodes - rest, node);
        assert Replays(l, replayed + [node]) == Replays(l, replayed) + [Call(l, Connected(node))];
        delivered := delivered + [Call(l, Connected(node))];
        replayed := replayed + [node];
        rest := rest - {node};
      }
    }

    /** Unregisters the first occurrence of `l`. */
    method RemoveListener(l: ListenerId)
      modifies this
      ensures listeners == RemoveFirst(old(listeners), l)
      ensures nodes == old(nodes) && pending == old(pending)
      ensures delivered == old(delivered) && transmitted == old(transmitted)
    {
      listeners := RemoveFirst(listeners, l);
    }

    /** Calls `e` on every listener in order, pruning in place each one whose
        call fails. */
    method Fanout(e: Event, dead: set<ListenerId>)
      modifies this
      ensures listeners == Survivors(old(listeners), dead)
      ensures delivered == old(delivered) + CallsTo(listeners, e)
      ensures nodes == old(nodes) && pending == old(pending) && transmitted == old(transmitted)
    {
      var i: int := 0;
      ghost var k := 0;
      while i < |listeners|
        invariant 0 <= i <= |listeners| && 0 <= k <= |old(listeners)|
        invariant listeners[..i] == Survivors(old(listeners)[..k], dead)
        invariant listeners[i..] == old(listeners)[k..]
        invariant delivered == old(delivered) + CallsTo(listeners[..i], e)
        invariant nodes == old(nodes) && pending == old(pending) && transmitted == old(transmitted)
        decreases |listeners| - i
      {
        var l := listeners[i];
        assert old(listeners)[..k + 1][..k] == old(listeners)[..k];
        assert old(listeners)[k] == l;
        if l in dead {
          assert Survivors(old(listeners)[..k + 1], dead) == Survivors(old(listeners)[..k], dead);
          listeners := listeners[..i] + listeners[i + 1..];
          i := i - 1;
        } else {
          assert Survivors(old(listeners)[..k + 1], dead) == Survivors(old(listeners)[..k], dead) + [l];
          assert listeners[..i + 1] == listeners[..i] + [l];
          assert CallsTo(listeners[..i + 1], e) == CallsTo(listeners[..i], e) + [Call(l, e)];
          delivered := delivered + [Call(l, e)];
        }
        i := i + 1;
        k := k + 1;
      }
      assert old(listeners)[k..] == [];
      assert old(listeners)[..k] == old(listeners);
      assert listeners[..i] == listeners;
    }

    /** Runs the oldest task on the handler, if any. */
    method RunNext(dead: set<ListenerId>) returns (ran: bool)
      modifies this
      ensures ran == (old(pending) != [])
      ensures nodes == old(nodes)
      ensures pending == if ran then old(pending)[1..] else old(pending)
      ensures !ran ==> listeners == old(listeners) && delivered == old(delivered) && transmitted == old(transmitted)
      ensures ran && old(pending)[0].Notify? ==>
                listeners == Survivors(old(listeners), dead) &&
                delivered == old(delivered) + CallsTo(listeners, old(pending)[0].event) &&
                transmitted == old(transmitted)
      ensures ran && old(pending)[0].Transmit? ==>
                listeners == old(listeners) && delivered == old(delivered) &&
                transmitted == old(transmitted) + [Transmission(old(pending)[0].node, MessagePath, old(pending)[0].data)]
    {
      if pending == [] {
        return false;
      }
      ran := true;
      var task := pending[0];
      pending := pending[1..];
      match task
      case Notify(e) =>
        Fanout(e, dead);
      case Transmit(node, data) =>
        transmitted := transmitted + [Transmission(node, MessagePath, data)];
    }
  }
}
