# bluetooth_core_android — a Dafny model of the plugin's stateful core

This project models the parts of the Android side of the `bluetooth_core_android`
Flutter plugin that keep state or translate between the platform and Dart:

- **The request-correlation registry** (`RequestCallback<T>`). A process-wide
  counter (the class's `companion object`) hands out integer request codes. Each
  registry keeps a map from pending code to continuation, and `pop` removes an
  entry exactly once. The plugin has two registries on the same counter: one for
  permission results and one for activity results. The counter is a Kotlin `Int`,
  so the model makes `id++` wrap from 2147483647 to -2147483648. The invariant
  "every pending code is below the counter, so a new code never overwrites a
  pending one" is stated, and holds, only until that wrap. The source leaves the
  wrap open in a TODO.
- **The RFCOMM socket table** (`rfcommnSockets`) and its handlers: lookup,
  connect, close, write, flush, available, read, and the socket queries in
  `onMethodCall`.
- **Result and event translation**:
  - building the permission→granted map;
  - popping and running the activity callback (`enable`);
  - the three single-slot event sinks and the broadcast receiver;
  - the OS-version check, with the `onMethodCall` catch that turns only
    `UnsupportedOsVersionException` into `result.error(...)`.
- **The error taxonomy** (`FlutterException` and its subclasses). Each one fixes a
  code, a message and a details payload.

Modules:

- `Values` (values.dfy): channel payloads, replies, I/O outcomes, and Kotlin's
  decimal `Int.toString`.
- `Exceptions` (exceptions.dfy).
- `RequestCallbacks` (request_callback.dfy): the `IdCounter` and
  `RequestCallback<T>` classes.
- `Plugin` (plugin.dfy): the `BluetoothCorePlugin` class, plus pure helpers at
  module level.

How the platform is abstracted:

- A Flutter `Result` or `EventSink` is a `SinkId`.
- Each blocking I/O call is a parameter saying whether it succeeds or throws an
  `IOException`. These are creating and connecting a socket, `close`, opening a
  stream, `write`, `flush`, `available` and `read`.
- `cancelDiscovery` and `getRemoteDevice` are only logged. The code ignores the
  Boolean that `cancelDiscovery` returns, and the model does not give the device
  that `getRemoteDevice` returns.
- Whether the plugin holds an `activity` and whether there is a
  `bluetoothAdapter` are parameters of the handlers that dereference them with
  `!!`.
- The random UUID for a new socket is a parameter too.
- The plugin's effects are appended to three logs:
  - `replies`: replies sent to `Result` objects that a registry held;
  - `events`: values pushed to event sinks;
  - `platformCalls`: the platform calls whose order matters.
- Handlers that leave the state unchanged are functions returning an `Outcome`:
  either the reply the handler sends, or the exception that leaves it.

How the code behaves where one might expect otherwise:

- There is no "already connected" fast path. Every successful connect stores the
  socket under a new key.
- Only connect runs on the executor. Close, write, flush, available and read run
  on the caller.
- When write, flush, available or read is given an unknown socket id,
  `SocketNotFoundException` is thrown and is not caught by `onMethodCall`. It is
  not answered as an error reply. The same holds for a stream that cannot be
  opened (`UnableToOpenOutputStream` / `UnableToOpenInputStream`).

## Model

| member | source | states |
|---|---|---|
| `RequestCallbacks.Int32Inc` | bluetooth_core_android/android/src/main/kotlin/dev/lightpod/bluetooth_core_android/RequestCallback.kt:16 | `id++` on a Kotlin `Int` stays in the 32-bit range. The result is congruent to id+1 modulo 2^32, so it wraps at INT_MAX. |
| `RequestCallbacks.IdCounter.constructor` | bluetooth_core_android/android/src/main/kotlin/dev/lightpod/bluetooth_core_android/RequestCallback.kt:11-13 | The shared counter starts at 0 with no code issued. |
| `RequestCallbacks.RequestCallback.constructor` | bluetooth_core_android/android/src/main/kotlin/dev/lightpod/bluetooth_core_android/RequestCallback.kt:9 | A registry starts with no pending entry and is tied to the shared counter. |
| `RequestCallbacks.RequestCallback.AddRequest` | bluetooth_core_android/android/src/main/kotlin/dev/lightpod/bluetooth_core_android/RequestCallback.kt:15-19 | Returns the counter's value from before the call and advances the counter by exactly one (with wrap). Stores the continuation under the returned code and leaves every other entry alone. Before the wrap, the code is non-negative and was not pending. Keeps "pending codes below the counter". |
| `RequestCallbacks.RequestCallback.Pop` | bluetooth_core_android/android/src/main/kotlin/dev/lightpod/bluetooth_core_android/RequestCallback.kt:21-23 | Returns the stored continuation and removes only that key. For a code that is not pending it returns `None` and leaves the map unchanged. |
| `RequestCallbacks.AddThenPopTwice` | bluetooth_core_android/android/src/main/kotlin/dev/lightpod/bluetooth_core_android/RequestCallback.kt:15-23 | After `addRequest(x)` returns k: the first `pop(k)` gives x and the second gives `None`. Before the wrap, the registry ends as it started. |
| `RequestCallbacks.CodesDistinctAcrossRegistries` | bluetooth_core_android/android/src/main/kotlin/dev/lightpod/bluetooth_core_android/RequestCallback.kt:11-18 | Two distinct registries on the one counter hand out distinct codes one after the other, even across the wrap, and each keeps its own entry. |
| `Exceptions.ReplyCodeIdentifiesKind` | bluetooth_core_android/android/src/main/kotlin/dev/lightpod/bluetooth_core_android/BluetoothCoreAndroidPlugin.kt:405 | The `result.error` an exception becomes is an error reply, and decoding its code gives back the exception's class. |
| `Exceptions.CodeIdentifiesKind` | bluetooth_core_android/android/src/main/kotlin/dev/lightpod/bluetooth_core_android/Exceptions.kt:11-46 | Decoding an exception's code gives back its class. |
| `Exceptions.CodesDistinguishKinds` | bluetooth_core_android/android/src/main/kotlin/dev/lightpod/bluetooth_core_android/Exceptions.kt:11-46 | Two exceptions share a code if and only if they are of the same class. |
| `Exceptions.UnsupportedOsVersionDetails` | bluetooth_core_android/android/src/main/kotlin/dev/lightpod/bluetooth_core_android/Exceptions.kt:16-19 | The details of UNSUPPORTED_OS_VERSION are a map with exactly the keys currentOsVersion and expectedOsVersion, holding the two versions. |
| `Exceptions.UnsupportedOsVersionMessageInjective` | bluetooth_core_android/android/src/main/kotlin/dev/lightpod/bluetooth_core_android/Exceptions.kt:15 | The message "Expected OS version: e. Current OS Version: c" determines both e and c. |
| `Values.NatToString` | bluetooth_core_android/android/src/main/kotlin/dev/lightpod/bluetooth_core_android/Exceptions.kt:15 | The decimal rendering used in the message template is a non-empty run of digits with no leading zero. |
| `Values.IntToStringRoundTrip` | bluetooth_core_android/android/src/main/kotlin/dev/lightpod/bluetooth_core_android/Exceptions.kt:15 | Parsing a rendered `Int` gives back the same number. |
| `Plugin.ActivityCallback.Invoke` | bluetooth_core_android/android/src/main/kotlin/dev/lightpod/bluetooth_core_android/BluetoothCoreAndroidPlugin.kt:433-436 | The enable callback tells its `Result` whether resultCode == RESULT_OK (-1), and returns `true`. |
| `Plugin.BroadcastPayload` | bluetooth_core_android/android/src/main/kotlin/dev/lightpod/bluetooth_core_android/BluetoothCoreAndroidPlugin.kt:180-209 | Each direction is an if-and-only-if: STATE_CHANGED goes to the state stream with "adapter present and enabled". DISCOVERY_STARTED and DISCOVERY_FINISHED go to the discovery stream with true or false. The five device actions go to the found-device stream with the device data, and only when the intent carries a device. Anything else goes nowhere. |
| `Plugin.ConvertSocketToMap` | bluetooth_core_android/android/src/main/kotlin/dev/lightpod/bluetooth_core_android/BluetoothCoreAndroidPlugin.kt:467-488 | The socket data holds exactly id, type "rfcommn" and isConnected. From API 23 it also holds connectionType, maxReceivePacketSize and maxTransmitPacketSize, each with the socket's value. |
| `Plugin.PermissionsResultMapMeaning` | bluetooth_core_android/android/src/main/kotlin/dev/lightpod/bluetooth_core_android/BluetoothCoreAndroidPlugin.kt:234-238 | The result map's keys are exactly the listed permissions. At each last occurrence i, permissions[i] maps to grantResults[i] == PERMISSION_GRANTED. |
| `Plugin.PermissionsResultMapDistinct` | bluetooth_core_android/android/src/main/kotlin/dev/lightpod/bluetooth_core_android/BluetoothCoreAndroidPlugin.kt:234-238 | When no permission is listed twice, every permissions[i] maps to grantResults[i] == PERMISSION_GRANTED. |
| `Plugin.BuildPermissionsResult` | bluetooth_core_android/android/src/main/kotlin/dev/lightpod/bluetooth_core_android/BluetoothCoreAndroidPlugin.kt:234-238 | The loop builds exactly `PermissionsResultMap`, whose meaning is the lemma above. |
| `Plugin.PermissionsPayload` | bluetooth_core_android/android/src/main/kotlin/dev/lightpod/bluetooth_core_android/BluetoothCoreAndroidPlugin.kt:240 | The `Map<String, Boolean>` crosses the channel with the same keys and the same Boolean values. |
| `Plugin.OnMethodCallCatch` | bluetooth_core_android/android/src/main/kotlin/dev/lightpod/bluetooth_core_android/BluetoothCoreAndroidPlugin.kt:404-406 | `UnsupportedOsVersionException` becomes `result.error(code, message, details)`. Every other outcome passes through unchanged, so no other exception is ever turned into a reply. |
| `Plugin.ConnectionFailedReply` | bluetooth_core_android/android/src/main/kotlin/dev/lightpod/bluetooth_core_android/BluetoothCoreAndroidPlugin.kt:515-519 | The connect failure reply carries the same code, message and null details as `SocketConnectionFailedException`. |
| `Plugin.BluetoothCorePlugin.constructor` | bluetooth_core_android/android/src/main/kotlin/dev/lightpod/bluetooth_core_android/BluetoothCoreAndroidPlugin.kt:47-62 | The plugin starts with an empty socket table, empty sinks, and two fresh registries on the shared counter. |
| `Plugin.BluetoothCorePlugin.GetSocket` | bluetooth_core_android/android/src/main/kotlin/dev/lightpod/bluetooth_core_android/BluetoothCoreAndroidPlugin.kt:461-465 | Returns the stored socket if and only if the id is in the table. Otherwise it returns SOCKET_NOT_FOUND carrying that id. |
| `Plugin.BluetoothCorePlugin.CheckOsVersion` | bluetooth_core_android/android/src/main/kotlin/dev/lightpod/bluetooth_core_android/BluetoothCoreAndroidPlugin.kt:412-416 | Throws exactly when SDK_INT < expected, and then throws `UnsupportedOsVersionException(expected)` at the running SDK. |
| `Plugin.BluetoothCorePlugin.RfcommSocketConnect` | bluetooth_core_android/android/src/main/kotlin/dev/lightpod/bluetooth_core_android/BluetoothCoreAndroidPlugin.kt:496-528 | Without a Bluetooth adapter the caller is never answered, no platform call is made and the table is unchanged. With one, cancelDiscovery comes before getting the device, creating the socket and connecting it. On a create or connect failure it replies CONNECTION_FAILED and leaves the table unchanged. On success it stores the socket under the new id (overwriting, as the code does) and replies with its data, whose "id" is that key. |
| `Plugin.BluetoothCorePlugin.RfcommSocketClose` | bluetooth_core_android/android/src/main/kotlin/dev/lightpod/bluetooth_core_android/BluetoothCoreAndroidPlugin.kt:530-550 | An absent id replies `true` with no close call and no change. For a present id: a failed close replies `false` and keeps the entry, and a successful close removes just that entry and replies `true`. |
| `Plugin.BluetoothCorePlugin.OutputStream` | bluetooth_core_android/android/src/main/kotlin/dev/lightpod/bluetooth_core_android/BluetoothCoreAndroidPlugin.kt:562-572 | The stream is available exactly when the socket exists and opening succeeds. Otherwise it throws SOCKET_NOT_FOUND, or UNABLE_TO_OPEN_OUTPUT_STREAM carrying the IOException. |
| `Plugin.BluetoothCorePlugin.InputStream` | bluetooth_core_android/android/src/main/kotlin/dev/lightpod/bluetooth_core_android/BluetoothCoreAndroidPlugin.kt:574-584 | The same as `OutputStream`, for the input side, with UNABLE_TO_OPEN_INPUT_STREAM. |
| `Plugin.BluetoothCorePlugin.RfcommSocketOutputStreamWrite` | bluetooth_core_android/android/src/main/kotlin/dev/lightpod/bluetooth_core_android/BluetoothCoreAndroidPlugin.kt:586-600 | A stream failure escapes as the exception. Otherwise it replies `true` exactly when the write succeeds, and UNABLE_TO_WRITE_TO_OUTPUT_STREAM with the IOException when it fails. There is no partial success. |
| `Plugin.BluetoothCorePlugin.RfcommSocketOutputStreamFlush` | bluetooth_core_android/android/src/main/kotlin/dev/lightpod/bluetooth_core_android/BluetoothCoreAndroidPlugin.kt:602-615 | The same as write, with UNABLE_TO_FLUSH_OUTPUT_STREAM. |
| `Plugin.BluetoothCorePlugin.RfcommSocketInputStreamAvailable` | bluetooth_core_android/android/src/main/kotlin/dev/lightpod/bluetooth_core_android/BluetoothCoreAndroidPlugin.kt:617-631 | A stream failure escapes. Otherwise it replies with the count `available()` returns, or INPUT_STREAM_GET_AVAILABLE_ERROR with the IOException. |
| `Plugin.BluetoothCorePlugin.RfcommSocketInputStreamRead` | bluetooth_core_android/android/src/main/kotlin/dev/lightpod/bluetooth_core_android/BluetoothCoreAndroidPlugin.kt:633-647 | A stream failure escapes. Otherwise it replies with the value `read()` returns, or INPUT_STREAM_READ_ERROR with the IOException. |
| `Plugin.BluetoothCorePlugin.GetSocketData` | bluetooth_core_android/android/src/main/kotlin/dev/lightpod/bluetooth_core_android/BluetoothCoreAndroidPlugin.kt:490-494 | Replies with the stored socket's data under the requested id. An unknown id throws SOCKET_NOT_FOUND. |
| `Plugin.BluetoothCorePlugin.RfcommSocketIsConnected` | bluetooth_core_android/android/src/main/kotlin/dev/lightpod/bluetooth_core_android/BluetoothCoreAndroidPlugin.kt:308 | Replies with the stored socket's isConnected. An unknown id throws SOCKET_NOT_FOUND. |
| `Plugin.BluetoothCorePlugin.RfcommSocketConnectionType` | bluetooth_core_android/android/src/main/kotlin/dev/lightpod/bluetooth_core_android/BluetoothCoreAndroidPlugin.kt:309-313 | Below API 23 it throws UNSUPPORTED_OS_VERSION before any lookup. Otherwise it throws SOCKET_NOT_FOUND, or replies with the connection type. |
| `Plugin.BluetoothCorePlugin.RfcommSocketMaxTransmitPacketSize` | bluetooth_core_android/android/src/main/kotlin/dev/lightpod/bluetooth_core_android/BluetoothCoreAndroidPlugin.kt:315-319 | The same as connection type, for the maximum transmit packet size. |
| `Plugin.BluetoothCorePlugin.RfcommSocketMaxReceivePacketSize` | bluetooth_core_android/android/src/main/kotlin/dev/lightpod/bluetooth_core_android/BluetoothCoreAndroidPlugin.kt:321-324 | There is no OS check. It throws SOCKET_NOT_FOUND, or replies with the maximum receive packet size. |
| `Plugin.GatedSocketQueries` | bluetooth_core_android/android/src/main/kotlin/dev/lightpod/bluetooth_core_android/BluetoothCoreAndroidPlugin.kt:309-319 | Through `onMethodCall`, the gated queries below API 23 are answered with the UNSUPPORTED_OS_VERSION error, whatever the table holds. From API 23, an unknown id escapes as SOCKET_NOT_FOUND. |
| `Plugin.BluetoothCorePlugin.RequestPermissionsCommand` | bluetooth_core_android/android/src/main/kotlin/dev/lightpod/bluetooth_core_android/BluetoothCoreAndroidPlugin.kt:424-428 | Registers the caller's `Result` under the counter's current value and advances the shared counter by one, so one more code has been issued. With an activity attached, it asks the platform for the permissions with that code. Without one, the code stays registered, no request is made, and the null dereference escapes. |
| `Plugin.BluetoothCorePlugin.Enable` | bluetooth_core_android/android/src/main/kotlin/dev/lightpod/bluetooth_core_android/BluetoothCoreAndroidPlugin.kt:431-438 | Registers the enable callback for the caller's `Result` under the counter's current value and advances the shared counter by one. With an activity attached, it starts the enable activity with that code. Without one, the callback stays registered, nothing is started, and the null dereference escapes. |
| `Plugin.BluetoothCorePlugin.OnRequestPermissionsResult` | bluetooth_core_android/android/src/main/kotlin/dev/lightpod/bluetooth_core_android/BluetoothCoreAndroidPlugin.kt:227-242 | Returns `true` if and only if the code was pending. An unknown code sends nothing. A pending code is popped, and its `Result` receives the permission map. |
| `Plugin.BluetoothCorePlugin.OnActivityResult` | bluetooth_core_android/android/src/main/kotlin/dev/lightpod/bluetooth_core_android/BluetoothCoreAndroidPlugin.kt:222-225 | An unknown code returns `false` and sends nothing. A pending code is popped, and the stored callback's reply and Boolean are what is returned. |
| `Plugin.BluetoothCorePlugin.OnListen` | bluetooth_core_android/android/src/main/kotlin/dev/lightpod/bluetooth_core_android/BluetoothCoreAndroidPlugin.kt:80-82 | The given sink replaces the stream's slot. The other two slots are unchanged. |
| `Plugin.BluetoothCorePlugin.OnCancel` | bluetooth_core_android/android/src/main/kotlin/dev/lightpod/bluetooth_core_android/BluetoothCoreAndroidPlugin.kt:84-86 | Clears the stream's slot. The other two slots are unchanged. |
| `Plugin.BluetoothCorePlugin.OnReceive` | bluetooth_core_android/android/src/main/kotlin/dev/lightpod/bluetooth_core_android/BluetoothCoreAndroidPlugin.kt:175-209 | The translated value goes to the stream's current sink and nowhere else. It is dropped when the slot is empty or the broadcast yields nothing. |
| `Plugin.PermissionGrantScenario` | bluetooth_core_android/android/src/main/kotlin/dev/lightpod/bluetooth_core_android/BluetoothCoreAndroidPlugin.kt:424-428 | Requesting BLUETOOTH_CONNECT and then receiving a grant for that code answers the caller with {BLUETOOTH_CONNECT: true}. |
| `Plugin.ReplacedSubscriberScenario` | bluetooth_core_android/android/src/main/kotlin/dev/lightpod/bluetooth_core_android/BluetoothCoreAndroidPlugin.kt:91-93 | After two `onListen` calls, only the second sink receives the next discovery event. |
| `Plugin.DroppedWithoutSubscriberScenario` | bluetooth_core_android/android/src/main/kotlin/dev/lightpod/bluetooth_core_android/BluetoothCoreAndroidPlugin.kt:84-86 | An event sent while no sink is listening is dropped, and not replayed to a later sink. |

## Left out

- Flutter and Android wiring is not modelled: engine and activity attach/detach, receiver registration, intent filters, channel creation (BluetoothCoreAndroidPlugin.kt:64-173). It is lifecycle plumbing over foreign APIs.
- Concurrency is not modelled: the single-thread executor, `ConcurrentHashMap`, and the non-atomic `id++` on the shared counter. All operations are sequential, and connect's result is returned as if the executor ran it at once.
- Bluetooth and stream I/O are opaque. Whether each call succeeds, throws, or what value it returns is a parameter of the model. The bytes handed to `write` are not recorded.
- `UUID.randomUUID()` is not modelled. The new socket key is a parameter, and like the code, the model does not check that the key is unused.
- `UUID.fromString` on the service record UUID, `getRemoteDevice` on a malformed address, and the `!!` on missing call arguments can throw exceptions. Those exceptions are not modelled.
- `Plugin.BluetoothCorePlugin.RfcommSocketConnect`: the model assumes `executorService` is set, as it is from engine attachment on. A call before attachment, which would throw on `executorService!!`, is not modelled. A missing `bluetoothAdapter` is modelled.
- `convertDeviceToMap` and `bondedDevices` read a platform object, so the device data reaches `OnReceive` already converted.
- The `Error` catch for device broadcasts (BluetoothCoreAndroidPlugin.kt:210-216) is not modelled. It is JVM error handling.
- The capability-flag and property queries, `getSdkVersion`, `checkPermission` and the `notImplemented` fallback of `onMethodCall` are not modelled. They are one-line pass-throughs to platform getters.
- Logging (`println`, `printStackTrace`) is not modelled. It has no behaviour.
- A socket is a snapshot of its getters. Changes the platform makes to `isConnected` after a socket is stored are not modelled.
- `Plugin.BluetoothCorePlugin.RfcommSocketMaxReceivePacketSize`: below API 23 the platform getter does not exist, and that failure is not modelled.
- `Plugin.BluetoothCorePlugin.OnRequestPermissionsResult`: requires `grantResults` to be at least as long as `permissions`, as the platform delivers them. With a shorter array the Kotlin loop throws after the pop, and that path is not modelled.
- `Plugin.BluetoothCorePlugin.OnActivityResult`: the `data` intent is not modelled, because the only registered callback (enable's) ignores it.
- `RequestCallbacks.RequestCallback.AddRequest`: the freshness of a new code is proved only until the counter wraps. After 2^31 requests the Kotlin counter goes negative, and the model states nothing about collisions after that.
