/** The stateful core of `BluetoothCoreAndroidPlugin`: the RFCOMM socket table
    and its command handlers, the two request registries and the callbacks
    that resolve them, and the broadcast receiver with its three single-slot
    event sinks.

    Platform objects are abstracted: a Flutter `Result` or `EventSink` is a
    `SinkId`; what the platform does on a blocking call (create, connect,
    close, open a stream, write, flush, available, read) is an outcome passed
    in by the caller of the model; the replies the plugin sends to stored
    `Result` objects, the values it pushes to event sinks and the platform
    calls it makes are appended to logs. */
module Plugin {
  import opened Values
  import opened Exceptions
  import opened RequestCallbacks

  /** `Activity.RESULT_OK` */
  const RESULT_OK: int := -1
  /** `PackageManager.PERMISSION_GRANTED` */
  const PERMISSION_GRANTED: int := 0
  /** `Build.VERSION_CODES.M` */
  const VERSION_CODES_M: int := 23

  const UNABLE_TO_WRITE_TO_OUTPUT_STREAM := "UNABLE_TO_WRITE_TO_OUTPUT_STREAM"
  const UNABLE_TO_FLUSH_OUTPUT_STREAM := "UNABLE_TO_FLUSH_OUTPUT_STREAM"
  const INPUT_STREAM_GET_AVAILABLE_ERROR := "INPUT_STREAM_GET_AVAILABLE_ERROR"
  const INPUT_STREAM_READ_ERROR := "INPUT_STREAM_READ_ERROR"

  /** A Flutter `MethodChannel.Result` or `EventChannel.EventSink` object. */
  type SinkId = nat

  /** What the getters of a stored `BluetoothSocket` report. */
  datatype Socket = Socket(
    isConnected: bool,
    connectionType: int,
    maxReceivePacketSize: int,
    maxTransmitPacketSize: int)

  /** How a command handler ends: it answers its `Result`, or an exception
      leaves it. */
  datatype Outcome = Replied(reply: Reply) | Threw(exception: FlutterException)

  /** A reply sent to a stored `Result` when a platform callback resolves it. */
  datatype Delivery = Delivery(sink: SinkId, reply: Reply)

  /** A value pushed with `EventSink.success`. */
  datatype Event = Event(sink: SinkId, value: Value)

  /** The blocking or foreign platform calls whose order matters. */
  datatype PlatformCall =
    | CancelDiscovery
    | GetRemoteDevice(address: string)
    | CreateRfcommSocket(secure: bool, serviceRecordUuid: string)
    | ConnectSocket
    | CloseSocket(socketId: string)
    | RequestPermissions(permissions: seq<string>, requestCode: int)
    | StartEnableActivity(requestCode: int)

  /** What the platform does when asked to create and connect an RFCOMM
      socket: creating it throws, connecting it throws, or both succeed. */
  datatype ConnectOutcome =
    | CreateFailed(createCause: IoFailure)
    | ConnectFailed(connectCause: IoFailure)
    | Connected(socket: Socket)

  /** The continuation stored in the activity registry. The only one the
      plugin registers is the lambda built by `enable`, which captures the
      caller's `Result`. */
  datatype ActivityCallback = EnableCallback(result: SinkId)
  {
    /** Runs the lambda on the activity's result code: the reply it sends and
        the Boolean it returns. */
    function Invoke(resultCode: int): (r: (Delivery, bool))
      ensures r.0.sink == result
      ensures r.0.reply == Success(Bool(resultCode == RESULT_OK))
      ensures r.1
    {
      (Delivery(result, Success(Bool(resultCode == RESULT_OK))), true)
    }
  }

  /** The broadcast actions the receiver is registered for, and any other. */
  datatype BroadcastAction =
    | StateChanged
    | DiscoveryStarted
    | DiscoveryFinished
    | Found
    | NameChanged
    | AliasChanged
    | ClassChanged
    | UuidFetched
    | OtherAction(name: string)

  predicate IsDeviceAction(a: BroadcastAction)
  {
    a.Found? || a.NameChanged? || a.AliasChanged? || a.ClassChanged? || a.UuidFetched?
  }

  /** The three event channels, each with one sink slot. */
  datatype EventStream = StateStream | DiscoveryStream | FoundDeviceStream

  /** Which stream a broadcast goes to and with what value, if any.
      `adapterEnabled` is `None` when there is no adapter, otherwise its
      `isEnabled` at delivery time; `device` is the converted device extra,
      `None` when the intent carries none. A missing intent or action is
      `None`. */
  function BroadcastPayload(action: Option<BroadcastAction>, adapterEnabled: Option<bool>, device: Option<Value>)
    : (r: Option<(EventStream, Value)>)
    ensures r.Some? && r.value.0 == StateStream <==> action == Some(StateChanged)
    ensures action == Some(StateChanged) ==> r.value.1 == Bool(adapterEnabled == Some(true))
    ensures r.Some? && r.value.0 == DiscoveryStream
        <==> action == Some(DiscoveryStarted) || action == Some(DiscoveryFinished)
    ensures r.Some? && r.value.0 == DiscoveryStream ==> r.value.1 == Bool(action == Some(DiscoveryStarted))
    ensures r.Some? && r.value.0 == FoundDeviceStream
        <==> action.Some? && IsDeviceAction(action.value) && device.Some?
    ensures r.Some? && r.value.0 == FoundDeviceStream ==> r.value.1 == device.value
  {
    match action
    case None => None
    case Some(a) =>
      match a
      case StateChanged =>
        Some((StateStream, Bool(adapterEnabled.Some? && adapterEnabled.value)))
      case DiscoveryStarted => Some((DiscoveryStream, Bool(true)))
      case DiscoveryFinished => Some((DiscoveryStream, Bool(false)))
      case OtherAction(_) => None
      case _ => if device.Some? then Some((FoundDeviceStream, device.value)) else None
  }

  /** `convertSocketToMap`: the socket data sent to Dart. The three packet
      and connection getters exist from API level 23 (M) on. */
  function ConvertSocketToMap(id: string, socket: Socket, sdkInt: int): (v: Value)
    ensures v.Dict?
    ensures v.entries.Keys == if sdkInt >= VERSION_CODES_M
      then {"id", "type", "isConnected", "connectionType", "maxReceivePacketSize", "maxTransmitPacketSize"}
      else {"id", "type", "isConnected"}
    ensures v.entries["id"] == Str(id)
    ensures v.entries["type"] == Str("rfcommn")
    ensures v.entries["isConnected"] == Bool(socket.isConnected)
    ensures sdkInt >= VERSION_CODES_M ==>
      && v.entries["connectionType"] == Int(socket.connectionType)
      && v.entries["maxReceivePacketSize"] == Int(socket.maxReceivePacketSize)
      && v.entries["maxTransmitPacketSize"] == Int(socket.maxTransmitPacketSize)
  {
    var base := map["id" := Str(id), "type" := Str("rfcommn"), "isConnected" := Bool(socket.isConnected)];
    if sdkInt >= VERSION_CODES_M then
      Dict(base + map[
        "connectionType" := Int(socket.connectionType),
        "maxReceivePacketSize" := Int(socket.maxReceivePacketSize),
        "maxTransmitPacketSize" := Int(socket.maxTransmitPacketSize)])
    else
      Dict(base)
  }

  /** The map `onRequestPermissionsResult` fills, entry by entry in index
      order, so a permission listed twice keeps its last grant result. */
  function PermissionsResultMap(permissions: seq<string>, grantResults: seq<int>): map<string, bool>
    requires |permissions| <= |grantResults|
    decreases |permissions|
  {
    if permissions == [] then map[]
    else
      var n := |permissions| - 1;
      PermissionsResultMap(permissions[..n], grantResults)[permissions[n] := grantResults[n] == PERMISSION_GRANTED]
  }

  predicate IsLastOccurrence(permissions: seq<string>, i: int)
    requires 0 <= i < |permissions|
  {
    forall j :: i < j < |permissions| ==> permissions[j] != permissions[i]
  }

  /** The result map has exactly the requested permissions as keys, and each
      maps to whether its (last) grant result is PERMISSION_GRANTED. */
  lemma {:induction false} PermissionsResultMapMeaning(permissions: seq<string>, grantResults: seq<int>)
    requires |permissions| <= |grantResults|
    ensures PermissionsResultMap(permissions, grantResults).Keys == set i | 0 <= i < |permissions| :: permissions[i]
    ensures forall i :: 0 <= i < |permissions| && IsLastOccurrence(permissions, i) ==>
      PermissionsResultMap(permissions, grantResults)[permissions[i]] == (grantResults[i] == PERMISSION_GRANTED)
    decreases |permissions|
  {
    if permissions != [] {
      var n := |permissions| - 1;
      var prefix := permissions[..n];
      PermissionsResultMapMeaning(prefix, grantResults);
      var all := set i | 0 <= i < |permissions| :: permissions[i];
      var before := set i | 0 <= i < n :: prefix[i];
      assert all == before + {permissions[n]} by {
        forall x | x in all
          ensures x in before + {permissions[n]}
        {
          var i :| 0 <= i < |permissions| && permissions[i] == x;
          if i < n { assert prefix[i] == x; }
        }
      }
      forall i | 0 <= i < |permissions| && IsLastOccurrence(permissions, i)
        ensures PermissionsResultMap(permissions, grantResults)[permissions[i]] == (grantResults[i] == PERMISSION_GRANTED)
      {
        if i < n {
          assert permissions[n] != permissions[i];
          assert prefix[i] == permissions[i];
          assert IsLastOccurrence(prefix, i);
        }
      }
    }
  }

  /** With no permission listed twice, every permission maps to its own
      grant result. */
  lemma PermissionsResultMapDistinct(permissions: seq<string>, grantResults: seq<int>, i: int)
    requires |permissions| <= |grantResults|
    requires forall a, b :: 0 <= a < b < |permissions| ==> permissions[a] != permissions[b]
    requires 0 <= i < |permissions|
    ensures permissions[i] in PermissionsResultMap(permissions, grantResults)
    ensures PermissionsResultMap(permissions, grantResults)[permissions[i]] == (grantResults[i] == PERMISSION_GRANTED)
  {
    PermissionsResultMapMeaning(permissions, grantResults);
    assert IsLastOccurrence(permissions, i);
  }

  /** The `for` loop of `onRequestPermissionsResult`. */
  method BuildPermissionsResult(permissions: seq<string>, grantResults: seq<int>) returns (m: map<string, bool>)
    requires |permissions| <= |grantResults|
    ensures m == PermissionsResultMap(permissions, grantResults)
  {
    m := map[];
    for i := 0 to |permissions|
      invariant m == PermissionsResultMap(permissions[..i], grantResults)
    {
      assert permissions[..i + 1][..i] == permissions[..i];
      m := m[permissions[i] := grantResults[i] == PERMISSION_GRANTED];
    }
    assert permissions[..|permissions|] == permissions;
  }

  /** The `Map<String, Boolean>` as it crosses the channel. */
  function PermissionsPayload(m: map<string, bool>): (v: Value)
    ensures v.Dict? && v.entries.Keys == m.Keys
    ensures forall p :: p in m ==> v.entries[p] == Bool(m[p])
  {
    Dict(map p | p in m :: Bool(m[p]))
  }

  /** The `catch (e: UnsupportedOsVersionException)` of `onMethodCall`: that
      exception, and only that one, becomes `result.error(code, message,
      details)`; any other exception goes on to the host runtime. */
  function OnMethodCallCatch(o: Outcome): (r: Outcome)
    ensures o.Threw? && o.exception.UnsupportedOsVersion? ==>
      r == Replied(Error(o.exception.ErrorCode(), o.exception.ErrorMessage(), o.exception.ErrorDetails()))
    ensures !(o.Threw? && o.exception.UnsupportedOsVersion?) ==> r == o
    ensures r.Threw? ==> !r.exception.UnsupportedOsVersion?
  {
    if o.Threw? && o.exception.UnsupportedOsVersion? then Replied(o.exception.AsReply()) else o
  }

  /** Replying with the error that `SocketConnectionFailedException` would
      carry, as the connect handler does instead of throwing it. */
  function ConnectionFailedReply(): (r: Reply)
    ensures r == SocketConnectionFailed.AsReply()
    ensures r.code == CONNECTION_FAILED && r.details == Null
  {
    Error(CONNECTION_FAILED, "Could not connect to device", Null)
  }

  class BluetoothCorePlugin {
    /** `Build.VERSION.SDK_INT` */
    const sdkInt: int
    const permissionRequestManager: RequestCallback<SinkId>
    const activityRequestManager: RequestCallback<ActivityCallback>

    var rfcommSockets: map<string, Socket>

    var bluetoothStateSink: Option<SinkId>
    var bluetoothDiscoverySink: Option<SinkId>
    var deviceFoundSink: Option<SinkId>

    /** Replies sent to `Result` objects that a registry held. */
    var replies: seq<Delivery>
    /** Values pushed to the event sinks. */
    var events: seq<Event>
    /** Platform calls made, in order. */
    var platformCalls: seq<PlatformCall>

    /** Both registries draw their codes from the one shared counter, and
        (until it wraps) no code is pending in both. */
    ghost predicate Valid()
      reads permissionRequestManager, activityRequestManager, permissionRequestManager.counter
    {
      && permissionRequestManager.counter == activityRequestManager.counter
      && permissionRequestManager as object != activityRequestManager as object
      && permissionRequestManager.Valid()
      && activityRequestManager.Valid()
      && (permissionRequestManager.counter.issued <= INT_MAX ==>
            permissionRequestManager.callbacks.Keys !! activityRequestManager.callbacks.Keys)
    }

    constructor (sdkInt: int, counter: IdCounter)
      requires counter.Valid()
      ensures Valid()
      ensures this.sdkInt == sdkInt && permissionRequestManager.counter == counter
      ensures fresh(permissionRequestManager) && fresh(activityRequestManager)
      ensures permissionRequestManager.callbacks == map[] && activityRequestManager.callbacks == map[]
      ensures rfcommSockets == map[]
      ensures bluetoothStateSink == None && bluetoothDiscoverySink == None && deviceFoundSink == None
      ensures replies == [] && events == [] && platformCalls == []
    {
      this.sdkInt := sdkInt;
      permissionRequestManager := new RequestCallback(counter);
      activityRequestManager := new RequestCallback(counter);
      rfcommSockets := map[];
      bluetoothStateSink, bluetoothDiscoverySink, deviceFoundSink := None, None, None;
      replies, events, platformCalls := [], [], [];
    }

    // ---------------------------------------------------------------- sockets

    /** `getSocket`: the stored socket, or `SocketNotFoundException(socketId)`. */
    function GetSocket(socketId: string): (r: Result<Socket, FlutterException>)
      reads this
      ensures r.Ok? <==> socketId in rfcommSockets
      ensures r.Ok? ==> r.value == rfcommSockets[socketId]
      ensures r.Err? ==> r.error == SocketNotFound(socketId)
    {
      if socketId in rfcommSockets then Ok(rfcommSockets[socketId]) else Err(SocketNotFound(socketId))
    }

    /** `checkOsVersion`: throws `UnsupportedOsVersionException` exactly when
        the running SDK is below the expected one. */
    function CheckOsVersion(expectedOsVersion: int): (r: Option<FlutterException>)
      ensures r.Some? <==> sdkInt < expectedOsVersion
      ensures r.Some? ==> r.value == UnsupportedOsVersion(expectedOsVersion, sdkInt)
    {
      if sdkInt < expectedOsVersion then Some(UnsupportedOsVersion(expectedOsVersion, sdkInt)) else None
    }

    /** `rfcommSocketConnect`, run on the executor. `adapterPresent` says
        whether the device has a Bluetooth adapter: without one the task
        fails on `bluetoothAdapter!!` before any platform call, and the
        caller is never answered (`None`). Otherwise discovery is cancelled
        first (its Boolean is ignored, as is the device `getRemoteDevice`
        returns); on failure of creating or connecting the socket the caller
        is told CONNECTION_FAILED and the table is left alone; on success the
        socket is stored under `newId` (a random UUID in the source, which
        does not check it is unused) and its data is returned. */
    method RfcommSocketConnect(address: string, secure: bool, serviceRecordUuid: string,
                               adapterPresent: bool, connecting: ConnectOutcome, newId: string)
      returns (reply: Option<Reply>)
      modifies this`rfcommSockets, this`platformCalls
      ensures !adapterPresent ==>
        reply == None && rfcommSockets == old(rfcommSockets) && platformCalls == old(platformCalls)
      ensures adapterPresent ==>
        && reply.Some?
        && platformCalls == old(platformCalls)
             + [CancelDiscovery, GetRemoteDevice(address), CreateRfcommSocket(secure, serviceRecordUuid)]
             + (if connecting.CreateFailed? then [] else [ConnectSocket])
      ensures adapterPresent && !connecting.Connected? ==>
        rfcommSockets == old(rfcommSockets) && reply == Some(ConnectionFailedReply())
      ensures adapterPresent && connecting.Connected? ==>
        && rfcommSockets == old(rfcommSockets)[newId := connecting.socket]
        && reply == Some(Success(ConvertSocketToMap(newId, connecting.socket, sdkInt)))
        && reply.value.value.entries["id"] == Str(newId)
    {
      if !adapterPresent {
        reply := None;
        return;
      }
      platformCalls := platformCalls + [CancelDiscovery, GetRemoteDevice(address)];
      platformCalls := platformCalls + [CreateRfcommSocket(secure, serviceRecordUuid)];
      if connecting.CreateFailed? {
        reply := Some(ConnectionFailedReply());
        return;
      }
      platformCalls := platformCalls + [ConnectSocket];
      if connecting.ConnectFailed? {
        reply := Some(ConnectionFailedReply());
        return;
      }
      rfcommSockets := rfcommSockets[newId := connecting.socket];
      reply := Some(Success(ConvertSocketToMap(newId, connecting.socket, sdkInt)));
    }

    /** `rfcommSocketClose`: an absent id counts as closed; a present socket
        is removed only when its `close()` succeeds, and a failed close
        answers `false` and keeps the entry. */
    method RfcommSocketClose(socketId: string, closing: IoResult<()>) returns (reply: Reply)
      modifies this`rfcommSockets, this`platformCalls
      ensures socketId !in old(rfcommSockets) ==>
        rfcommSockets == old(rfcommSockets) && platformCalls == old(platformCalls) && reply == Success(Bool(true))
      ensures socketId in old(rfcommSockets) ==> platformCalls == old(platformCalls) + [CloseSocket(socketId)]
      ensures socketId in old(rfcommSockets) && closing.Failed? ==>
        rfcommSockets == old(rfcommSockets) && reply == Success(Bool(false))
      ensures socketId in old(rfcommSockets) && closing.Done? ==>
        rfcommSockets == old(rfcommSockets) - {socketId} && reply == Success(Bool(true))
    {
      var found := GetSocket(socketId);
      if found.Err? {
        reply := Success(Bool(true));
        return;
      }
      platformCalls := platformCalls + [CloseSocket(socketId)];
      if closing.Failed? {
        reply := Success(Bool(false));
        return;
      }
      rfcommSockets := rfcommSockets - {socketId};
      reply := Success(Bool(true));
    }

    /** `rfcommnGetOutputStream`: the socket's output stream, or the
        exception that escapes (not found, or the getter's IOException
        wrapped as `UnableToOpenOutputStream`). */
    function OutputStream(socketId: string, opening: IoResult<()>): (r: Result<(), FlutterException>)
      reads this
      ensures socketId !in rfcommSockets ==> r == Err(SocketNotFound(socketId))
      ensures socketId in rfcommSockets && opening.Failed? ==>
        r == Err(UnableToOpenOutputStream(Throwable(opening.cause)))
      ensures r.Ok? <==> socketId in rfcommSockets && opening.Done?
    {
      match GetSocket(socketId)
      case Err(e) => Err(e)
      case Ok(_) => if opening.Failed? then Err(UnableToOpenOutputStream(Throwable(opening.cause))) else Ok(())
    }

    /** `rfcommnGetInputStream`, as `OutputStream` for the input side. */
    function InputStream(socketId: string, opening: IoResult<()>): (r: Result<(), FlutterException>)
      reads this
      ensures socketId !in rfcommSockets ==> r == Err(SocketNotFound(socketId))
      ensures socketId in rfcommSockets && opening.Failed? ==>
        r == Err(UnableToOpenInputStream(Throwable(opening.cause)))
      ensures r.Ok? <==> socketId in rfcommSockets && opening.Done?
    {
      match GetSocket(socketId)
      case Err(e) => Err(e)
      case Ok(_) => if opening.Failed? then Err(UnableToOpenInputStream(Throwable(opening.cause))) else Ok(())
    }

    /** `rfcommSocketOutputStreamWrite`: `true` when the write went through,
        UNABLE_TO_WRITE_TO_OUTPUT_STREAM carrying the IOException when it
        threw; failing to find the socket or open the stream escapes. */
    function RfcommSocketOutputStreamWrite(socketId: string, bytes: seq<bv8>, opening: IoResult<()>,
                                           writing: IoResult<()>): (r: Outcome)
      reads this
      ensures OutputStream(socketId, opening).Err? ==> r == Threw(OutputStream(socketId, opening).error)
      ensures OutputStream(socketId, opening).Ok? && writing.Done? ==> r == Replied(Success(Bool(true)))
      ensures OutputStream(socketId, opening).Ok? && writing.Failed? ==>
        r == Replied(Error(UNABLE_TO_WRITE_TO_OUTPUT_STREAM, "Error occurred when writing to output stream",
                           Throwable(writing.cause)))
    {
      match OutputStream(socketId, opening)
      case Err(e) => Threw(e)
      case Ok(_) =>
        if writing.Failed? then
          Replied(Error(UNABLE_TO_WRITE_TO_OUTPUT_STREAM, "Error occurred when writing to output stream",
                        Throwable(writing.cause)))
        else Replied(Success(Bool(true)))
    }

    /** `rfcommSocketOutputStreamFlush`, as the write handler. */
    function RfcommSocketOutputStreamFlush(socketId: string, opening: IoResult<()>, flushing: IoResult<()>)
      : (r: Outcome)
      reads this
      ensures OutputStream(socketId, opening).Err? ==> r == Threw(OutputStream(socketId, opening).error)
      ensures OutputStream(socketId, opening).Ok? && flushing.Done? ==> r == Replied(Success(Bool(true)))
      ensures OutputStream(socketId, opening).Ok? && flushing.Failed? ==>
        r == Replied(Error(UNABLE_TO_FLUSH_OUTPUT_STREAM, "Error occurred when flushing to output stream",
                           Throwable(flushing.cause)))
    {
      match OutputStream(socketId, opening)
      case Err(e) => Threw(e)
      case Ok(_) =>
        if flushing.Failed? then
          Replied(Error(UNABLE_TO_FLUSH_OUTPUT_STREAM, "Error occurred when flushing to output stream",
                        Throwable(flushing.cause)))
        else Replied(Success(Bool(true)))
    }

    /** `rfcommSocketInputStreamAvailable`: the count `available()` reports,
        or INPUT_STREAM_GET_AVAILABLE_ERROR carrying its IOException. */
    function RfcommSocketInputStreamAvailable(socketId: string, opening: IoResult<()>, available: IoResult<int>)
      : (r: Outcome)
      reads this
      ensures InputStream(socketId, opening).Err? ==> r == Threw(InputStream(socketId, opening).error)
      ensures InputStream(socketId, opening).Ok? && available.Done? ==> r == Replied(Success(Int(available.value)))
      ensures InputStream(socketId, opening).Ok? && available.Failed? ==>
        r == Replied(Error(INPUT_STREAM_GET_AVAILABLE_ERROR, "Unable to get the available bytes from input stream",
                           Throwable(available.cause)))
    {
      match InputStream(socketId, opening)
      case Err(e) => Threw(e)
      case Ok(_) =>
        match available
        case Failed(cause) =>
          Replied(Error(INPUT_STREAM_GET_AVAILABLE_ERROR, "Unable to get the available bytes from input stream",
                        Throwable(cause)))
        case Done(n) => Replied(Success(Int(n)))
    }

    /** `rfcommSocketInputStreamRead`: the byte `read()` returns (or -1 at
        end of stream), or INPUT_STREAM_READ_ERROR carrying its IOException. */
    function RfcommSocketInputStreamRead(socketId: string, opening: IoResult<()>, reading: IoResult<int>)
      : (r: Outcome)
      reads this
      ensures InputStream(socketId, opening).Err? ==> r == Threw(InputStream(socketId, opening).error)
      ensures InputStream(socketId, opening).Ok? && reading.Done? ==> r == Replied(Success(Int(reading.value)))
      ensures InputStream(socketId, opening).Ok? && reading.Failed? ==>
        r == Replied(Error(INPUT_STREAM_READ_ERROR, "Unable to read from input stream", Throwable(reading.cause)))
    {
      match InputStream(socketId, opening)
      case Err(e) => Threw(e)
      case Ok(_) =>
        match reading
        case Failed(cause) => Replied(Error(INPUT_STREAM_READ_ERROR, "Unable to read from input stream", Throwable(cause)))
        case Done(b) => Replied(Success(Int(b)))
    }

    /** `getSocketData`: the stored socket's data under the id asked for. */
    function GetSocketData(socketId: string): (r: Outcome)
      reads this
      ensures socketId !in rfcommSockets ==> r == Threw(SocketNotFound(socketId))
      ensures socketId in rfcommSockets ==>
        r == Replied(Success(ConvertSocketToMap(socketId, rfcommSockets[socketId], sdkInt)))
    {
      match GetSocket(socketId)
      case Err(e) => Threw(e)
      case Ok(socket) => Replied(Success(ConvertSocketToMap(socketId, socket, sdkInt)))
    }

    /** The `rfcommSocketIsConnected` branch of `onMethodCall`. */
    function RfcommSocketIsConnected(socketId: string): (r: Outcome)
      reads this
      ensures socketId !in rfcommSockets ==> r == Threw(SocketNotFound(socketId))
      ensures socketId in rfcommSockets ==> r == Replied(Success(Bool(rfcommSockets[socketId].isConnected)))
    {
      match GetSocket(socketId)
      case Err(e) => Threw(e)
      case Ok(socket) => Replied(Success(Bool(socket.isConnected)))
    }

    /** The `rfcommSocketConnectionType` branch: the OS version is checked
        before the socket is looked up. */
    function RfcommSocketConnectionType(socketId: string): (r: Outcome)
      reads this
      ensures sdkInt < VERSION_CODES_M ==> r == Threw(UnsupportedOsVersion(VERSION_CODES_M, sdkInt))
      ensures sdkInt >= VERSION_CODES_M && socketId !in rfcommSockets ==> r == Threw(SocketNotFound(socketId))
      ensures sdkInt >= VERSION_CODES_M && socketId in rfcommSockets ==>
        r == Replied(Success(Int(rfcommSockets[socketId].connectionType)))
    {
      match CheckOsVersion(VERSION_CODES_M)
      case Some(e) => Threw(e)
      case None =>
        match GetSocket(socketId)
        case Err(e) => Threw(e)
        case Ok(socket) => Replied(Success(Int(socket.connectionType)))
    }

    /** The `rfcommSocketMaxTransmitPacketSize` branch, checked as
        `rfcommSocketConnectionType`. */
    function RfcommSocketMaxTransmitPacketSize(socketId: string): (r: Outcome)
      reads this
      ensures sdkInt < VERSION_CODES_M ==> r == Threw(UnsupportedOsVersion(VERSION_CODES_M, sdkInt))
      ensures sdkInt >= VERSION_CODES_M && socketId !in rfcommSockets ==> r == Threw(SocketNotFound(socketId))
      ensures sdkInt >= VERSION_CODES_M && socketId in rfcommSockets ==>
        r == Replied(Success(Int(rfcommSockets[socketId].maxTransmitPacketSize)))
    {
      match CheckOsVersion(VERSION_CODES_M)
      case Some(e) => Threw(e)
      case None =>
        match GetSocket(socketId)
        case Err(e) => Threw(e)
        case Ok(socket) => Replied(Success(Int(socket.maxTransmitPacketSize)))
    }

    /** The `rfcommSocketMaxReceivePacketSize` branch, which has no OS check. */
    function RfcommSocketMaxReceivePacketSize(socketId: string): (r: Outcome)
      reads this
      ensures socketId !in rfcommSockets ==> r == Threw(SocketNotFound(socketId))
      ensures socketId in rfcommSockets ==> r == Replied(Success(Int(rfcommSockets[socketId].maxReceivePacketSize)))
    {
      match GetSocket(socketId)
      case Err(e) => Threw(e)
      case Ok(socket) => Replied(Success(Int(socket.maxReceivePacketSize)))
    }

    // ------------------------------------------- permission and activity requests

    /** `requestPermissions`: registers the caller's `Result` under a fresh
        code and hands the code to the platform with the permissions.
        `activityAttached` says whether `activity` is set; when it is not,
        `activity!!` throws after the registration, so the code stays pending
        with nobody to answer it, no request is made, and the exception
        leaves `onMethodCall` (`escaped`). */
    method RequestPermissionsCommand(permissions: seq<string>, result: SinkId, activityAttached: bool)
      returns (escaped: bool)
      requires Valid()
      modifies this`platformCalls, permissionRequestManager`callbacks, permissionRequestManager.counter
      ensures Valid()
      ensures escaped == !activityAttached
      ensures permissionRequestManager.counter.id == Int32Inc(old(permissionRequestManager.counter.id))
      ensures permissionRequestManager.counter.issued == old(permissionRequestManager.counter.issued) + 1
      ensures permissionRequestManager.callbacks
           == old(permissionRequestManager.callbacks)[old(permissionRequestManager.counter.id) := result]
      ensures platformCalls == old(platformCalls)
        + (if activityAttached then [RequestPermissions(permissions, old(permissionRequestManager.counter.id))] else [])
    {
      var requestCode := permissionRequestManager.AddRequest(result);
      if !activityAttached {
        return true;
      }
      platformCalls := platformCalls + [RequestPermissions(permissions, requestCode)];
      escaped := false;
    }

    /** `enable`: registers the enable callback for the caller's `Result`
        under a fresh code and starts the enable-adapter activity with it.
        Without an attached activity the registration still happens, and
        `activity!!` then throws out of `onMethodCall` (`escaped`). */
    method Enable(result: SinkId, activityAttached: bool) returns (escaped: bool)
      requires Valid()
      modifies this`platformCalls, activityRequestManager`callbacks, permissionRequestManager.counter
      ensures Valid()
      ensures escaped == !activityAttached
      ensures permissionRequestManager.counter.id == Int32Inc(old(permissionRequestManager.counter.id))
      ensures permissionRequestManager.counter.issued == old(permissionRequestManager.counter.issued) + 1
      ensures activityRequestManager.callbacks
           == old(activityRequestManager.callbacks)[old(permissionRequestManager.counter.id) := EnableCallback(result)]
      ensures platformCalls == old(platformCalls)
        + (if activityAttached then [StartEnableActivity(old(permissionRequestManager.counter.id))] else [])
    {
      var requestCode := activityRequestManager.AddRequest(EnableCallback(result));
      if !activityAttached {
        return true;
      }
      platformCalls := platformCalls + [StartEnableActivity(requestCode)];
      escaped := false;
    }

    /** `onRequestPermissionsResult`: an unregistered code is not ours
        (`false`, nothing sent); a registered one is popped and its `Result`
        gets the permission-to-granted map (`true`). */
    method OnRequestPermissionsResult(requestCode: int, permissions: seq<string>, grantResults: seq<int>)
      returns (handled: bool)
      requires Valid()
      requires |permissions| <= |grantResults|
      modifies this`replies, permissionRequestManager`callbacks
      ensures Valid()
      ensures handled == (requestCode in old(permissionRequestManager.callbacks))
      ensures permissionRequestManager.callbacks == old(permissionRequestManager.callbacks) - {requestCode}
      ensures !handled ==> replies == old(replies)
      ensures handled ==> replies == old(replies) + [Delivery(old(permissionRequestManager.callbacks)[requestCode],
                                                      Success(PermissionsPayload(PermissionsResultMap(permissions, grantResults))))]
    {
      var pending := permissionRequestManager.Pop(requestCode);
      if pending.None? {
        return false;
      }
      var permissionsResult := BuildPermissionsResult(permissions, grantResults);
      replies := replies + [Delivery(pending.value, Success(PermissionsPayload(permissionsResult)))];
      handled := true;
    }

    /** `onActivityResult`: an unknown code gives `false`; a known one is
        popped and the stored callback decides the answer. */
    method OnActivityResult(requestCode: int, resultCode: int) returns (handled: bool)
      requires Valid()
      modifies this`replies, activityRequestManager`callbacks
      ensures Valid()
      ensures activityRequestManager.callbacks == old(activityRequestManager.callbacks) - {requestCode}
      ensures requestCode !in old(activityRequestManager.callbacks) ==> !handled && replies == old(replies)
      ensures requestCode in old(activityRequestManager.callbacks) ==>
        var callback := old(activityRequestManager.callbacks)[requestCode];
        && handled == callback.Invoke(resultCode).1
        && replies == old(replies) + [callback.Invoke(resultCode).0]
    {
      var pending := activityRequestManager.Pop(requestCode);
      if pending.None? {
        return false;
      }
      var (delivery, answer) := pending.value.Invoke(resultCode);
      replies := replies + [delivery];
      handled := answer;
    }

    // ------------------------------------------------------------ event sinks

    function SinkOf(stream: EventStream): Option<SinkId>
      reads this
    {
      match stream
      case StateStream => bluetoothStateSink
      case DiscoveryStream => bluetoothDiscoverySink
      case FoundDeviceStream => deviceFoundSink
    }

    /** `onListen` of a stream handler: the given sink (possibly null)
        replaces the stream's slot. */
    method OnListen(stream: EventStream, sink: Option<SinkId>)
      modifies this`bluetoothStateSink, this`bluetoothDiscoverySink, this`deviceFoundSink
      ensures SinkOf(stream) == sink
      ensures forall s :: s != stream ==> SinkOf(s) == old(SinkOf(s))
    {
      match stream
      case StateStream => bluetoothStateSink := sink;
      case DiscoveryStream => bluetoothDiscoverySink := sink;
      case FoundDeviceStream => deviceFoundSink := sink;
    }

    /** `onCancel` of a stream handler: clears the stream's slot. */
    method OnCancel(stream: EventStream)
      modifies this`bluetoothStateSink, this`bluetoothDiscoverySink, this`deviceFoundSink
      ensures SinkOf(stream) == None
      ensures forall s :: s != stream ==> SinkOf(s) == old(SinkOf(s))
    {
      OnListen(stream, None);
    }

    /** `bluetoothBroadcastReceiver.onReceive`: the translated value goes to
        the current sink of its stream, and is dropped when that slot is
        empty or the broadcast yields nothing. */
    method OnReceive(action: Option<BroadcastAction>, adapterEnabled: Option<bool>, device: Option<Value>)
      modifies this`events
      ensures var p := BroadcastPayload(action, adapterEnabled, device);
        if p.Some? && SinkOf(p.value.0).Some?
        then events == old(events) + [Event(SinkOf(p.value.0).value, p.value.1)]
        else events == old(events)
    {
      var payload := BroadcastPayload(action, adapterEnabled, device);
      if payload.Some? {
        var sink := SinkOf(payload.value.0);
        if sink.Some? {
          events := events + [Event(sink.value, payload.value.1)];
        }
      }
    }
  }

  /** The version-gated socket queries answer UNSUPPORTED_OS_VERSION below
      API level 23, whatever the table holds; from 23 on an unknown socket id
      escapes `onMethodCall` as SOCKET_NOT_FOUND instead of being answered. */
  lemma GatedSocketQueries(p: BluetoothCorePlugin, socketId: string)
    ensures p.sdkInt < VERSION_CODES_M ==>
      && OnMethodCallCatch(p.RfcommSocketConnectionType(socketId)) == Replied(UnsupportedOsVersion(VERSION_CODES_M, p.sdkInt).AsReply())
      && OnMethodCallCatch(p.RfcommSocketMaxTransmitPacketSize(socketId)) == Replied(UnsupportedOsVersion(VERSION_CODES_M, p.sdkInt).AsReply())
    ensures p.sdkInt >= VERSION_CODES_M && socketId !in p.rfcommSockets ==>
      && OnMethodCallCatch(p.RfcommSocketConnectionType(socketId)) == Threw(SocketNotFound(socketId))
      && OnMethodCallCatch(p.RfcommSocketMaxTransmitPacketSize(socketId)) == Threw(SocketNotFound(socketId))
  {
  }

  /** Asking for the runtime permission and getting it granted answers the
      caller with `{permission: true}`. */
  method PermissionGrantScenario(p: BluetoothCorePlugin, result: SinkId) returns (handled: bool)
    requires p.Valid()
    modifies p`platformCalls, p`replies, p.permissionRequestManager`callbacks, p.permissionRequestManager.counter
    ensures p.Valid()
    ensures handled
    ensures p.replies == old(p.replies)
      + [Delivery(result, Success(Dict(map["android.permission.BLUETOOTH_CONNECT" := Bool(true)])))]
  {
    var permissions := ["android.permission.BLUETOOTH_CONNECT"];
    var requestCode := p.permissionRequestManager.counter.id;
    var escaped := p.RequestPermissionsCommand(permissions, result, true);
    handled := p.OnRequestPermissionsResult(requestCode, permissions, [PERMISSION_GRANTED]);
    PermissionsResultMapDistinct(permissions, [PERMISSION_GRANTED], 0);
    PermissionsResultMapMeaning(permissions, [PERMISSION_GRANTED]);
    assert PermissionsPayload(PermissionsResultMap(permissions, [PERMISSION_GRANTED]))
        == Dict(map["android.permission.BLUETOOTH_CONNECT" := Bool(true)]);
  }

  /** Of two successive subscribers to a stream only the second receives
      the next broadcast. */
  method ReplacedSubscriberScenario(p: BluetoothCorePlugin, first: SinkId, second: SinkId)
    modifies p`bluetoothStateSink, p`bluetoothDiscoverySink, p`deviceFoundSink, p`events
    ensures p.events == old(p.events) + [Event(second, Bool(true))]
  {
    p.OnListen(DiscoveryStream, Some(first));
    p.OnListen(DiscoveryStream, Some(second));
    p.OnReceive(Some(DiscoveryStarted), None, None);
  }

  /** A broadcast with nobody listening is dropped, not kept for a later
      subscriber. */
  method DroppedWithoutSubscriberScenario(p: BluetoothCorePlugin, late: SinkId, enabled: bool)
    modifies p`bluetoothStateSink, p`bluetoothDiscoverySink, p`deviceFoundSink, p`events
    ensures p.events == old(p.events) + [Event(late, Bool(enabled))]
  {
    p.OnCancel(StateStream);
    p.OnReceive(Some(StateChanged), Some(!enabled), None);
    p.OnListen(StateStream, Some(late));
    p.OnReceive(Some(StateChanged), Some(enabled), None);
  }
}
