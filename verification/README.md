# Android Wear messaging bridge: the two registries

This project models the core of a Cordova plugin that connects a phone-side web
application to paired Android Wear nodes. The core is two small registries on
either side of an AIDL boundary. The model proves properties about both.

**The wearable-side service** (`WearProvider`, file `wear_provider_service.dfy`)
- It keeps the set of reachable node ids and a list of remote listeners.
- It reconciles the node set against each freshly observed set of nodes.
- Connect, disconnect and data events are not delivered at once. Each one is posted as a task to a background handler.
- When a task runs, the event is fanned out to every listener in list order. A listener whose call fails is pruned from the list on the spot.
- Outbound sends are posted to the same handler. When one runs, it is handed to the wearable transport on the path `/NewMessage`.
- The handler's queue is the `pending` sequence, and `RunNext` runs its oldest task. Which listeners fail during a pass is an oracle: the `dead` set passed to `RunNext`.

**The host-side plugin** (`WearPlugin`, file `android_wear_plugin.dfy`)
- It keeps a table of connections keyed by node id. Each connection has append-only lists of data and error callbacks.
- It also keeps a process-wide list of connect callbacks.
- It turns service events into the connection lifecycle:
  - a connect event creates a connection;
  - data for an unknown node creates the connection first, then delivers the data;
  - an error delivers the detail and removes the connection.
- Host calls are dispatched by action name:
  - `onConnect` registers a connect callback and replays the existing connections to it;
  - `onDataReceived` and `onError` register a callback on a connection;
  - `sendData` forwards a payload to the service.
- Results sent to host callbacks form the `outbox` log. A message is a flat JSON object, modelled as `map<string, string>`.

**Shared and client files**
- `enumeration.dfy` (module `Enumeration`) describes a sequence that lists each member of a set exactly once. Both sides iterate hash collections whose order is unspecified, and the iteration order is stated this way.
- `scenarios.dfy` walks through several use cases, proved from the contracts alone:
  - syncing twice with the same set queues nothing new;
  - a new listener receives a replay of the known nodes, and a node whose connect task is still queued is announced to it a second time when that task runs (the "each known node once" of `addListener` at `src/android/WearProviderService.java:55-61` is per replay, not per listener lifetime);
  - a failing listener is pruned while the others still get the event;
  - errors, invalid handles and re-created connections behave as described above;
  - sending while unbound fails.

Where the model departs from the code:
- `syncNodes` in `src/android/WearProviderService.java:160-163` iterates the `nodes` hash set. In the same loop, `removeNode` removes from that set. In Java, removing an element and then taking another iteration step throws `ConcurrentModificationException`.
- The model follows the evident intent instead: the stale ids are computed from a snapshot before any removal. `SyncNodes` then proves that `nodes` ends up equal to the observed set.

## Model

| member | source | states |
|---|---|---|
| `WearProvider.WearProviderService.constructor` | src/android/WearProviderService.java:36-37 | the service starts with no nodes, no listeners and an empty handler queue |
| `WearProvider.WearProviderService.AddNode` | src/android/WearProviderService.java:173-194 | a known id changes nothing and queues nothing; a new id joins `nodes` and queues exactly one onConnect task for that id; listeners and logs are untouched |
| `WearProvider.WearProviderService.RemoveNode` | src/android/WearProviderService.java:196-218 | an absent id is a no-op; a present id leaves `nodes` and queues exactly one onError task carrying "Node disconnected: <id>" |
| `WearProvider.WearProviderService.SyncNodes` | src/android/WearProviderService.java:151-171 | afterwards `nodes` equals the observed ids; the tasks queued are a disconnect for each stale id, each exactly once, followed by a connect for each observed id not already known, once each and in observed order |
| `WearProvider.WearProviderService.MessageReceived` | src/android/WearProviderService.java:220-240 | queues one data task for the node and message; `nodes` and listeners are unchanged |
| `WearProvider.WearProviderService.OnMessageReceived` | src/android/WearProviderService.java:131-138 | a message is forwarded (one data task) exactly when its path is "/NewMessage"; any other path changes nothing |
| `WearProvider.WearProviderService.SendMessage` | src/android/WearProviderService.java:242-266 | a send is only queued; the transport sees it when the task runs |
| `WearProvider.WearProviderService.AddListener` | src/android/WearProviderService.java:50-62 | appends the listener and replays onConnect to it once for every node currently known (an enumeration of `nodes`); a listener that fails during the replay gets no call and stays registered; connect tasks still queued when it registers reach it as well, so such a node is announced to it twice (`ReplayScenario`) |
| `WearProvider.WearProviderService.RemoveListener` | src/android/WearProviderService.java:64-71 | the listener list loses the first occurrence of the listener (see `RemoveFirstAt`, `RemoveFirstAbsent`) and nothing else changes |
| `WearProvider.WearProviderService.Fanout` | src/android/WearProviderService.java:183-190 | the in-place loop with `remove(i--)` leaves `listeners` equal to the old list filtered to its non-failing entries, and calls exactly those, once each, in list order |
| `WearProvider.WearProviderService.RunNext` | src/android/WearProviderService.java:179-193 | runs the oldest queued task only: a notification fans out as `Fanout` states; a send reaches the transport on path "/NewMessage"; the queue loses exactly that task, and an empty queue changes nothing at all; `nodes` never changes |
| `WearProvider.SurvivorsCount` | src/android/WearProviderService.java:183-190 | after a pass, a failing listener has no entry left and a live one keeps every one of its entries |
| `WearProvider.SurvivorsAppend` | src/android/WearProviderService.java:206-215 | pruning keeps the surviving listeners in their registration order (filtering distributes over concatenation) |
| `WearProvider.SurvivorsAllLive` | src/android/WearProviderService.java:229-237 | a pass in which no call fails leaves the listener list as it was |
| `WearProvider.NoCallToPruned` | src/android/WearProviderService.java:186-188 | a listener pruned by one pass receives no call from the next pass over the pruned list, whatever fails in that pass |
| `WearProvider.FreshEnumerates` | src/android/WearProviderService.java:166-170 | the ids `syncNodes` adds are exactly the observed ids that were not known, each once |
| `WearProvider.AddedAndRemovedDisjoint` | src/android/WearProviderService.java:160-170 | no id is both announced as disconnected and as connected by one sync |
| `WearProvider.ResyncIsQuiet` | src/android/WearProviderService.java:154-170 | syncing against the set already held queues no task |
| `WearProvider.RemoveFirstAt` | src/android/WearProviderService.java:68-70 | removing a registered listener drops its first occurrence only and keeps the rest in order |
| `WearProvider.RemoveFirstAbsent` | src/android/WearProviderService.java:68-70 | removing a listener that is not registered leaves the list unchanged |
| `Enumeration.EnumerationSize` | src/android/WearProviderService.java:58-61 | the replay to a new listener makes exactly as many calls as there are known nodes |
| `WearPlugin.CreateJsonObject` | src/android/AndroidWearPlugin.java:274-287 | the message always has "handle" and has "data" exactly when a payload is given, with no other member |
| `WearPlugin.ParseAction` | src/android/AndroidWearPlugin.java:157-173 | exactly the names "onConnect", "onDataReceived", "onError" and "sendData" select an action, the one bearing that name |
| `WearPlugin.WearConnection.constructor` | src/android/AndroidWearPlugin.java:101-103 | a new connection has its handle and no callbacks |
| `WearPlugin.WearConnection.AddDataListener` | src/android/AndroidWearPlugin.java:105-107 | appends to the data callbacks only |
| `WearPlugin.WearConnection.AddErrorListener` | src/android/AndroidWearPlugin.java:109-111 | appends to the error callbacks only |
| `WearPlugin.WearConnection.DataNotices` | src/android/AndroidWearPlugin.java:113-115 | every data callback, in order, receives a kept-alive result whose message is exactly {handle, data} |
| `WearPlugin.WearConnection.ErrorNotices` | src/android/AndroidWearPlugin.java:117-119 | every error callback, in order, receives a kept-alive result whose message is exactly {handle, detail} |
| `WearPlugin.AndroidWearPlugin.constructor` | src/android/AndroidWearPlugin.java:29-32 | the plugin starts with no connections, callbacks or results |
| `WearPlugin.AndroidWearPlugin.CreateNewWearConnection` | src/android/AndroidWearPlugin.java:86-93 | `id` maps to a fresh connection with no callbacks, replacing any earlier entry; every connect callback receives {handle: id} once, in order |
| `WearPlugin.AndroidWearPlugin.ListenerOnConnect` | src/android/AndroidWearPlugin.java:53-58 | a connect event from the service creates the connection as above |
| `WearPlugin.AndroidWearPlugin.ListenerOnDataReceived` | src/android/AndroidWearPlugin.java:60-70 | data for a known node reaches its data callbacks with {handle, data} and changes no table entry; data for an unknown node first creates an empty connection, announced to the connect callbacks, and reaches no data callback |
| `WearPlugin.AndroidWearPlugin.ListenerOnError` | src/android/AndroidWearPlugin.java:72-82 | an error for a known node reaches its error callbacks with {handle, data}, and then the node leaves the table; an unknown node changes nothing |
| `WearPlugin.AndroidWearPlugin.OnConnect` | src/android/AndroidWearPlugin.java:216-226 | appends the connect callback and sends it {handle} once for each existing connection key |
| `WearPlugin.AndroidWearPlugin.OnDataReceived` | src/android/AndroidWearPlugin.java:228-239 | a known handle gets the callback appended to its data callbacks only; an unknown handle reports "Invalid connection handle" and leaves the table unchanged |
| `WearPlugin.AndroidWearPlugin.OnError` | src/android/AndroidWearPlugin.java:241-252 | a known handle gets the callback appended to its error callbacks only; an unknown handle reports "Invalid connection handle" and leaves the table unchanged |
| `WearPlugin.AndroidWearPlugin.SendData` | src/android/AndroidWearPlugin.java:198-214 | unbound: reports "Service not present" and makes no call; bound: calls the service once, then reports success, or the exception's message if the call throws |
| `WearPlugin.AndroidWearPlugin.Execute` | src/android/AndroidWearPlugin.java:153-174 | returns true exactly for the four action names, provided their arguments are present; any other name returns false and a missing argument throws, both before anything changes; when handled, the outcome is the matching handler's complete contract: the onConnect replay as an enumeration of the keys, the full table update on a known handle, the invalid-handle error otherwise, the send result |

## Left out

- Service and plugin lifecycle are not modelled: `onCreate`, `onDestroy`, `onBind`, `onStartCommand`, `initialize`, `bindService`/`unbindService` and the `ServiceConnection` callbacks. Whether the service is bound is the plugin's `bound` flag, fixed at construction.
- The `BackgroundThread`/`Looper` setup is not modelled. The handler is the `pending` queue, and it is drained only by explicit `RunNext` calls.
- `loadNodes` and the capability client are not modelled. The observed node ids are the input to `SyncNodes`.
- The success and failure listeners of the transport's `sendMessage` task only log, so they are not modelled. The transport call is the `transmitted` log.
- Threading is not modelled: `synchronized (listeners)`, the unsynchronized read of `nodes` in `addListener`, and real concurrency between binder threads and the handler. Every operation runs to completion, one at a time.
- WearPlugin.AndroidWearPlugin.ListenerOnDataReceived: Java posts delivery with `runOnUiThread`, and the posted loop reads the callback list when it runs. A data or error callback registered between the event and that run therefore also receives it in Java. The model delivers immediately, to the callbacks registered when the event arrives. The same holds for `ListenerOnError` and `CreateNewWearConnection`.
- WearProvider.WearProviderService.Fanout: a listener's failure is fixed per pass (the `dead` set), so one listener registered twice fails on both entries or on neither. AIDL `RemoteException` mechanics are reduced to that oracle.
- WearProvider.WearProviderService.AddListener: a replay call that throws propagates out of `addListener` to the AIDL caller. The model reports it as `ok == false`, with no call recorded.
- The service and the plugin are not wired together: the plugin's `messageListener` is the listener that the service fans out to, and the service's `sendData` is what the plugin calls. Each side is modelled against the events and calls it receives.
- Cordova's `CallbackContext`/`PluginResult` and the JSON library are reduced to the `Sent` log and a string map. The case of `JSONObject.put` throwing is not modelled, because it cannot happen with a string key and string value.
- `CordovaArgs.getString` is modelled on a sequence of strings: a missing index throws. Null or non-string JSON arguments are not modelled.
- Payload conversion between bytes and strings (`new String(bytes)`, `getBytes()`) is not modelled; payloads are opaque strings.
- Logging is not modelled.
- `www/androidwear.js` only forwards four calls to Cordova's `exec`, so it is not part of this model.
