/** The host-side plugin: a table of connections keyed by node id, each with
    its own data and error callbacks, plus process-wide connect callbacks.

    Results sent to a host callback are appended to `outbox`; calls made into
    the bound service are appended to `serviceCalls`. Whether the service is
    bound is the `bound` flag, and whether the remote `sendData` call throws is
    an oracle parameter.
 */
module WearPlugin {
  import opened Enumeration

  datatype Option<T> = None | Some(value: T)

  type Handle = string
  type CallbackId = nat

  /** A flat JSON object with string members. */
  type JsonObject = map<string, string>

  const InvalidHandle: string := "Invalid connection handle"
  const ServiceNotPresent: string := "Service not present"

  /** The message for a connection: its handle, and the payload when there is one. */
  function CreateJsonObject(handle: Handle, data: Option<string>): (o: JsonObject)
    ensures "handle" in o && o["handle"] == handle
    ensures "data" in o <==> data.Some?
    ensures data.Some? ==> o["data"] == data.value
    ensures o.Keys <= {"handle", "data"}
  {
    var o := map["handle" := handle];
    if data.Some? then o["data" := data.value] else o
  }

  /** What a host callback receives: a kept-alive OK result carrying a message,
      a plain success, or an error string. */
  datatype PluginResult =
    | KeepOk(payload: JsonObject)
    | Success
    | Error(reason: string)

  /** One result sent to one host callback. */
  datatype Sent = Sent(callback: CallbackId, result: PluginResult)

  /** A kept-alive result carrying `o` to each of `callbacks`, in order. */
  function Notices(callbacks: seq<CallbackId>, o: JsonObject): seq<Sent>
  {
    seq(|callbacks|, j requires 0 <= j < |callbacks| => Sent(callbacks[j], KeepOk(o)))
  }

  /** The connect message for each of `handles`, all sent to `cb`, in order. */
  function Announcements(cb: CallbackId, handles: seq<Handle>): seq<Sent>
  {
    seq(|handles|, j requires 0 <= j < |handles| => Sent(cb, KeepOk(CreateJsonObject(handles[j], None))))
  }

  // ---------------------------------------------------------------------------
  // Action dispatch

  datatype Action = OnConnect | OnDataReceived | OnError | SendData

  function ActionName(a: Action): string
  {
    match a
    case OnConnect => "onConnect"
    case OnDataReceived => "onDataReceived"
    case OnError => "onError"
    case SendData => "sendData"
  }

  /** The action an action name selects, if any. */
  function ParseAction(name: string): (r: Option<Action>)
    ensures r.Some? ==> ActionName(r.value) == name
    ensures r.None? ==> forall a :: ActionName(a) != name
  {
    if name == "onConnect" then Some(OnConnect)
    else if name == "onDataReceived" then Some(OnDataReceived)
    else if name == "onError" then Some(OnError)
    else if name == "sendData" then Some(SendData)
    else None
  }

  /** How many string arguments the handler of `a` reads. */
  function ArgCount(a: Action): nat
  {
    match a
    case OnConnect => 0
    case OnDataReceived => 1
    case OnError => 1
    case SendData => 2
  }

  /** `execute` either returns whether it handled the action or throws while
      reading a missing argument. */
  datatype Outcome = Returned(handled: bool) | ThrewJsonException

  /** The abstract content of one connection. */
  datatype Listeners = Listeners(data: seq<CallbackId>, errors: seq<CallbackId>)

  // ---------------------------------------------------------------------------
  // Connections

  class WearConnection {
    const handle: Handle
    var dataCallbacks: seq<CallbackId>
    var errorCallbacks: seq<CallbackId>

    constructor (handle: Handle)
      ensures this.handle == handle && dataCallbacks == [] && errorCallbacks == []
    {
      this.handle := handle;
      dataCallbacks, errorCallbacks := [], [];
    }

    method AddDataListener(cb: CallbackId)
      modifies this
      ensures dataCallbacks == old(dataCallbacks) + [cb] && errorCallbacks == old(errorCallbacks)
    {
      dataCallbacks := dataCallbacks + [cb];
    }

    method AddErrorListener(cb: CallbackId)
      modifies this
      ensures errorCallbacks == old(errorCallbacks) + [cb] && dataCallbacks == old(dataCallbacks)
    {
      errorCallbacks := errorCallbacks + [cb];
    }

    /** What delivering `data` sends: every data callback, in order, receives
        the handle and the data. */
    function DataNotices(data: string): (r: seq<Sent>)
      reads this
      ensures |r| == |dataCallbacks|
      ensures forall j :: 0 <= j < |r| ==>
                r[j].callback == dataCallbacks[j] && r[j].result.KeepOk? &&
                r[j].result.payload == map["handle" := handle, "data" := data]
    {
      Notices(dataCallbacks, CreateJsonObject(handle, Some(data)))
    }

    /** What delivering an error sends: every error callback, in order,
        receives the handle and the error detail. */
    function ErrorNotices(detail: string): (r: seq<Sent>)
      reads this
      ensures |r| == |errorCallbacks|
      ensures forall j :: 0 <= j < |r| ==>
                r[j].callback == errorCallbacks[j] && r[j].result.KeepOk? &&
                r[j].result.payload == map["handle" := handle, "data" := detail]
    {
      Notices(errorCallbacks, CreateJsonObject(handle, Some(detail)))
    }
  }

  // ---------------------------------------------------------------------------
  // The plugin

  class AndroidWearPlugin {
    /** Whether the service is bound (its interface is not null). */
    var bound: bool
    var connections: map<Handle, WearConnection>
    var connectCallbacks: seq<CallbackId>
    /** Results sent to host callbacks, oldest first. */
    var outbox: seq<Sent>
    /** `sendData` calls made into the service, oldest first. */
    var serviceCalls: seq<(Handle, string)>

    /** Every connection is filed under its own handle. */
    ghost predicate Valid()
      reads this
    {
      forall h :: h in connections ==> connections[h].handle == h
    }

    /** The table's abstract content. */
    ghost function Table(): map<Handle, Listeners>
      reads this, connections.Values
    {
      map h | h in connections :: Listeners(connections[h].dataCallbacks, connections[h].errorCallbacks)
    }

    constructor (bound: bool)
      ensures Valid() && this.bound == bound
      ensures connections == map[] && connectCallbacks == [] && outbox == [] && serviceCalls == []
    {
      this.bound := bound;
      connections, connectCallbacks := map[], [];
      outbox, serviceCalls := [], [];
    }

    /** Files a new, listener-less connection under `id`, replacing any
        earlier one, and tells every connect callback about it. */
    method CreateNewWearConnection(id: Handle) returns (c: WearConnection)
      requires Valid()
      modifies this
      ensures Valid() && fresh(c)
      ensures connections == old(connections)[id := c]
      ensures Table() == old(Table())[id := Listeners([], [])]
      ensures outbox == old(outbox) + Notices(connectCallbacks, CreateJsonObject(id, None))
      ensures bound == old(bound) && connectCallbacks == old(connectCallbacks)
      ensures serviceCalls == old(serviceCalls)
    {
      c := new WearConnection(id);
      connections := connections[id := c];
      outbox := outbox + Notices(connectCallbacks, CreateJsonObject(id, None));
    }

    /** Service event: a node connected. */
    method ListenerOnConnect(connectionId: Handle)
      requires Valid()
      modifies this
      ensures Valid() && fresh(connections.Values - old(connections.Values))
      ensures connectionId in connections && fresh(connections[connectionId])
      ensures Table() == old(Table())[connectionId := Listeners([], [])]
      ensures outbox == old(outbox) + Notices(connectCallbacks, CreateJsonObject(connectionId, None))
      ensures bound == old(bound) && connectCallbacks == old(connectCallbacks)
      ensures serviceCalls == old(serviceCalls)
    {
      var _ := CreateNewWearConnection(connectionId);
    }

    /** Service event: data arrived from a node. An unknown node first gets a
        connection (announced to the connect callbacks); the data then goes to
        that connection's data callbacks. */
    method ListenerOnDataReceived(nodeId: Handle, data: string)
      requires Valid()
      modifies this
      ensures Valid() && fresh(connections.Values - old(connections.Values))
      ensures nodeId in old(connections) ==>
                connections == old(connections) && Table() == old(Table()) &&
                outbox == old(outbox) + Notices(Table()[nodeId].data, CreateJsonObject(nodeId, Some(data)))
      ensures nodeId !in old(connections) ==>
                nodeId in connections &&
                Table() == old(Table())[nodeId := Listeners([], [])] &&
                outbox == old(outbox) + Notices(connectCallbacks, CreateJsonObject(nodeId, None))
      ensures bound == old(bound) && connectCallbacks == old(connectCallbacks)
      ensures serviceCalls == old(serviceCalls)
    {
      var connection: WearConnection;
      if nodeId in connections {
        connection := connections[nodeId];
      } else {
        connection := CreateNewWearConnection(nodeId);
        assert Table()[nodeId].data == [];
      }
      outbox := outbox + connection.DataNotices(data);
    }

    /** Service event: a node failed. A known connection's error callbacks
        receive the detail and the connection is dropped; an unknown node is
        ignored. */
    method ListenerOnError(connectionId: Handle, data: string)
      requires Valid()
      modifies this
      ensures Valid() && fresh(connections.Values - old(connections.Values))
      ensures connectionId in old(connections) ==>
                connections == old(connections) - {connectionId} &&
                Table() == old(Table()) - {connectionId} &&
                outbox == old(outbox) + Notices(old(Table())[connectionId].errors, CreateJsonObject(connectionId, Some(data)))
      ensures connectionId !in old(connections) ==>
                connections == old(connections) && outbox == old(outbox)
      ensures bound == old(bound) && connectCallbacks == old(connectCallbacks)
      ensures serviceCalls == old(serviceCalls)
    {
      if connectionId in connections {
        var connection := connections[connectionId];
        outbox := outbox + connection.ErrorNotices(data);
        connections := connections - {connectionId};
      }
    }

    /** Registers a connect callback and tells it about every existing
        connection, in the table's (unspecified) key order `order`. */
    method OnConnect(cb: CallbackId) returns (ghost order: seq<Handle>)
      requires Valid()
      modifies this
      ensures Valid()
      ensures connectCallbacks == old(connectCallbacks) + [cb]
      ensures Enumerates(order, connections.Keys)
      ensures outbox == old(outbox) + Announcements(cb, order)
      ensures bound == old(bound) && connections == old(connections)
      ensures serviceCalls == old(serviceCalls)
    {
      connectCallbacks := connectCallbacks + [cb];
      var keys := connections.Keys;
      order := [];
      while keys != {}
        invariant keys <= connections.Keys
        invariant Enumerates(order, connections.Keys - keys)
        invariant outbox == old(outbox) + Announcements(cb, order)
        invariant connectCallbacks == old(connectCallbacks) + [cb]
        invariant bound == old(bound) && connections == old(connections)
        invariant serviceCalls == old(serviceCalls)
        decreases keys
      {
        var key :| key in keys;
        EnumeratesSnoc(order, connections.Keys - keys, key);
        assert Announcements(cb, order + [key])
            == Announcements(cb, order) + [Sent(cb, KeepOk(CreateJsonObject(key, None)))];
        outbox := outbox + [Sent(cb, KeepOk(CreateJsonObject(key, None)))];
        order := order + [key];
        keys := keys - {key};
      }
    }

    /** Registers a data callback on the connection `connectionId`. */
    method OnDataReceived(connectionId: Handle, cb: CallbackId)
      requires Valid()
      modifies this, connections.Values
      ensures Valid() && connections == old(connections)
      ensures connectionId in connections ==>
                Table() == old(Table())[connectionId := Listeners(old(Table())[connectionId].data + [cb],
                                                                  old(Table())[connectionId].errors)] &&
                outbox == old(outbox)
      ensures connectionId !in connections ==>
                Table() == old(Table()) && outbox == old(outbox) + [Sent(cb, Error(InvalidHandle))]
      ensures bound == old(bound) && connectCallbacks == old(connectCallbacks)
      ensures serviceCalls == old(serviceCalls)
    {
      if connectionId in connections {
        var connection := connections[connectionId];
        connection.AddDataListener(cb);
      } else {
        outbox := outbox + [Sent(cb, Error(InvalidHandle))];
      }
    }

    /** Registers an error callback on the connection `connectionId`. */
    method OnError(connectionId: Handle, cb: CallbackId)
      requires Valid()
      modifies this, connections.Values
      ensures Valid() && connections == old(connections)
      ensures connectionId in connections ==>
                Table() == old(Table())[connectionId := Listeners(old(Table())[connectionId].data,
                                                                  old(Table())[connectionId].errors + [cb])] &&
                outbox == old(outbox)
      ensures connectionId !in connections ==>
                Table() == old(Table()) && outbox == old(outbox) + [Sent(cb, Error(InvalidHandle))]
      ensures bound == old(bound) && connectCallbacks == old(connectCallbacks)
      ensures serviceCalls == old(serviceCalls)
    {
      if connectionId in connections {
        var connection := connections[connectionId];
        connection.AddErrorListener(cb);
      } else {
        outbox := outbox + [Sent(cb, Error(InvalidHandle))];
      }
    }

    /** Forwards a payload to the service when bound. `remoteFailure` is the
        message of the exception the remote call throws, if it throws. */
    method SendData(connectionId: Handle, data: string, cb: CallbackId, remoteFailure: Option<string>)
      requires Valid()
      modifies this
      ensures Valid()
      ensures bound ==> serviceCalls == old(serviceCalls) + [(connectionId, data)]
      ensures !bound ==> serviceCalls == old(serviceCalls)
      ensures outbox == old(outbox) + [Sent(cb, if !bound then Error(ServiceNotPresent)
                                              else if remoteFailure.Some? then Error(remoteFailure.value)
                                              else Success)]
      ensures bound == old(bound) && connections == old(connections)
      ensures connectCallbacks == old(connectCallbacks)
    {
      if bound {
        serviceCalls := serviceCalls + [(connectionId, data)];
        if remoteFailure.Some? {
          outbox := outbox + [Sent(cb, Error(remoteFailure.value))];
        } else {
          outbox := outbox + [Sent(cb, Success)];
        }
      } else {
        outbox := outbox + [Sent(cb, Error(ServiceNotPresent))];
      }
    }

    /** Dispatches a host call by action name. The handler's arguments are
        read first; a missing one throws before anything changes. For
        "onConnect", `order` is the key order of the replay. */
    method Execute(action: string, args: seq<string>, cb: CallbackId, remoteFailure: Option<string>)
      returns (r: Outcome, ghost order: seq<Handle>)
      requires Valid()
      modifies this, connections.Values
      ensures Valid() && connections == old(connections) && bound == old(bound)
      ensures r == match ParseAction(action)
                   case None => Returned(false)
                   case Some(a) => if |args| < ArgCount(a) then ThrewJsonException else Returned(true)
      ensures r != Returned(true) ==>
                Table() == old(Table()) &&
                connectCallbacks == old(connectCallbacks) && outbox == old(outbox) &&
                serviceCalls == old(serviceCalls)
      ensures r == Returned(true) && action == "onConnect" ==>
                connectCallbacks == old(connectCallbacks) + [cb] &&
                Enumerates(order, connections.Keys) &&
                outbox == old(outbox) + Announcements(cb, order) &&
                Table() == old(Table()) && serviceCalls == old(serviceCalls)
      ensures r == Returned(true) && action == "onDataReceived" ==>
                connectCallbacks == old(connectCallbacks) && serviceCalls == old(serviceCalls) &&
                (args[0] in connections ==>
                   Table() == old(Table())[args[0] := Listeners(old(Table())[args[0]].data + [cb],
                                                                old(Table())[args[0]].errors)] &&
                   outbox == old(outbox)) &&
                (args[0] !in connections ==>
                   Table() == old(Table()) && outbox == old(outbox) + [Sent(cb, Error(InvalidHandle))])
      ensures r == Returned(true) && action == "onError" ==>
                connectCallbacks == old(connectCallbacks) && serviceCalls == old(serviceCalls) &&
                (args[0] in connections ==>
                   Table() == old(Table())[args[0] := Listeners(old(Table())[args[0]].data,
                                                                old(Table())[args[0]].errors + [cb])] &&
                   outbox == old(outbox)) &&
                (args[0] !in connections ==>
                   Table() == old(Table()) && outbox == old(outbox) + [Sent(cb, Error(InvalidHandle))])
      ensures r == Returned(true) && action == "sendData" ==>
                connectCallbacks == old(connectCallbacks) && Table() == old(Table()) &&
                serviceCalls == old(serviceCalls) + (if bound then [(args[0], args[1])] else []) &&
                outbox == old(outbox) + [Sent(cb, if !bound then Error(ServiceNotPresent)
                                                else if remoteFailure.Some? then Error(remoteFailure.value)
                                                else Success)]
    {
      order := [];
      match ParseAction(action)
      case None =>
        r := Returned(false);
      case Some(a) =>
        if |args| < ArgCount(a) {
          r := ThrewJsonException;
          return;
        }
        r := Returned(true);
        match a
        case OnConnect =>
          order := OnConnect(cb);
        case OnDataReceived =>
          OnDataReceived(args[0], cb);
        case OnError =>
          OnError(args[0], cb);
        case SendData =>
          SendData(args[0], args[1], cb, remoteFailure);
    }
  }
}
