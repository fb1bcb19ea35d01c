/** The plugin's error taxonomy: every `FlutterException` fixes a string code,
    a human message and a structured details payload, all immutable. The
    Kotlin base class passes the message on to `Exception`, so the exception's
    own message is `ErrorMessage()`; the model has no separate field for it. */
module Exceptions {
  import opened Values

  const UNSUPPORTED_OS_VERSION := "UNSUPPORTED_OS_VERSION"
  const SOCKET_NOT_FOUND := "SOCKET_NOT_FOUND"
  const CONNECTION_FAILED := "CONNECTION_FAILED"
  const UNABLE_TO_OPEN_OUTPUT_STREAM := "UNABLE_TO_OPEN_OUTPUT_STREAM"
  const UNABLE_TO_OPEN_INPUT_STREAM := "UNABLE_TO_OPEN_INPUT_STREAM"

  const EXPECTED_OS_PREFIX := "Expected OS version: "
  const CURRENT_OS_INFIX := ". Current OS Version: "

  /** The subclasses of `FlutterException`. `currentOsVersion` is the
      `Build.VERSION.SDK_INT` read when the exception is built. */
  datatype FlutterException =
    | UnsupportedOsVersion(expectedOsVersion: int, currentOsVersion: int)
    | SocketNotFound(id: string)
    | SocketConnectionFailed
    | UnableToOpenOutputStream(cause: Value)
    | UnableToOpenInputStream(cause: Value)
  {
    function ErrorCode(): string
    {
      match this
      case UnsupportedOsVersion(_, _) => UNSUPPORTED_OS_VERSION
      case SocketNotFound(_) => SOCKET_NOT_FOUND
      case SocketConnectionFailed => CONNECTION_FAILED
      case UnableToOpenOutputStream(_) => UNABLE_TO_OPEN_OUTPUT_STREAM
      case UnableToOpenInputStream(_) => UNABLE_TO_OPEN_INPUT_STREAM
    }

    function ErrorMessage(): string
    {
      match this
      case UnsupportedOsVersion(expected, current) =>
        EXPECTED_OS_PREFIX + IntToString(expected) + CURRENT_OS_INFIX + IntToString(current)
      case SocketNotFound(_) => "Unable to find socket"
      case SocketConnectionFailed => "Could not connect to device"
      case UnableToOpenOutputStream(_) => "Error occurred when opening output stream"
      case UnableToOpenInputStream(_) => "Error occurred when opening input stream"
    }

    function ErrorDetails(): Value
    {
      match this
      case UnsupportedOsVersion(expected, current) =>
        Dict(map["currentOsVersion" := Int(current), "expectedOsVersion" := Int(expected)])
      case SocketNotFound(id) => Dict(map["socketId" := Str(id)])
      case SocketConnectionFailed => Null
      case UnableToOpenOutputStream(cause) => cause
      case UnableToOpenInputStream(cause) => cause
    }

    /** `result.error(errorCode, errorMessage, errorDetails)` for this exception. */
    function AsReply(): (r: Reply)
      ensures r.Error? && r.code == ErrorCode() && r.message == ErrorMessage()
      ensures r.details == ErrorDetails()
    {
      Error(ErrorCode(), ErrorMessage(), ErrorDetails())
    }

    function Kind(): ExceptionKind
    {
      match this
      case UnsupportedOsVersion(_, _) => UnsupportedOsVersionKind
      case SocketNotFound(_) => SocketNotFoundKind
      case SocketConnectionFailed => ConnectionFailedKind
      case UnableToOpenOutputStream(_) => OutputStreamKind
      case UnableToOpenInputStream(_) => InputStreamKind
    }
  }

  /** The exception classes, without their arguments. */
  datatype ExceptionKind =
    | UnsupportedOsVersionKind
    | SocketNotFoundKind
    | ConnectionFailedKind
    | OutputStreamKind
    | InputStreamKind

  /** Which exception class a code received by the Dart side stands for. */
  function KindOfCode(code: string): (k: Option<ExceptionKind>)
  {
    if code == UNSUPPORTED_OS_VERSION then Some(UnsupportedOsVersionKind)
    else if code == SOCKET_NOT_FOUND then Some(SocketNotFoundKind)
    else if code == CONNECTION_FAILED then Some(ConnectionFailedKind)
    else if code == UNABLE_TO_OPEN_OUTPUT_STREAM then Some(OutputStreamKind)
    else if code == UNABLE_TO_OPEN_INPUT_STREAM then Some(InputStreamKind)
    else None
  }

  /** The code alone tells the receiver which exception was raised: no two
      classes share a code. */
  lemma CodeIdentifiesKind(e: FlutterException)
    ensures KindOfCode(e.ErrorCode()) == Some(e.Kind())
  {
  }

  /** The `result.error` an exception becomes carries a code from which the
      Dart side recovers the exception's class. */
  lemma ReplyCodeIdentifiesKind(e: FlutterException)
    ensures e.AsReply().Error?
    ensures KindOfCode(e.AsReply().code) == Some(e.Kind())
  {
    CodeIdentifiesKind(e);
  }

  lemma CodesDistinguishKinds(e1: FlutterException, e2: FlutterException)
    ensures e1.ErrorCode() == e2.ErrorCode() <==> e1.Kind() == e2.Kind()
  {
    CodeIdentifiesKind(e1);
    CodeIdentifiesKind(e2);
  }

  /** The details of `UnsupportedOsVersionException` hold exactly the two
      versions, under their names. */
  lemma UnsupportedOsVersionDetails(expected: int, current: int)
    ensures UnsupportedOsVersion(expected, current).ErrorDetails().Dict?
    ensures UnsupportedOsVersion(expected, current).ErrorDetails().entries.Keys
         == {"currentOsVersion", "expectedOsVersion"}
    ensures UnsupportedOsVersion(expected, current).ErrorDetails().entries["currentOsVersion"] == Int(current)
    ensures UnsupportedOsVersion(expected, current).ErrorDetails().entries["expectedOsVersion"] == Int(expected)
  {
  }

  /** The message of `UnsupportedOsVersionException` names both versions
      unambiguously: equal messages come from equal versions. */
  lemma {:induction false} UnsupportedOsVersionMessageInjective(e1: int, c1: int, e2: int, c2: int)
    requires UnsupportedOsVersion(e1, c1).ErrorMessage() == UnsupportedOsVersion(e2, c2).ErrorMessage()
    ensures e1 == e2 && c1 == c2
  {
    var p, m := EXPECTED_OS_PREFIX, CURRENT_OS_INFIX;
    var a1, b1, a2, b2 := IntToString(e1), IntToString(c1), IntToString(e2), IntToString(c2);
    var s := p + a1 + m + b1;
    assert s == p + a2 + m + b2;
    if |a1| < |a2| {
      assert s[|p| + |a1|] == m[0] == '.';
      assert s[|p| + |a1|] == a2[|a1|];
      IntStringHasNoDot(e2, |a1|);
      assert false;
    }
    if |a2| < |a1| {
      assert s[|p| + |a2|] == m[0] == '.';
      assert s[|p| + |a2|] == a1[|a2|];
      IntStringHasNoDot(e1, |a2|);
      assert false;
    }
    assert a1 == s[|p|..|p| + |a1|] == a2;
    assert b1 == s[|p| + |a1| + |m|..] == b2;
    IntToStringInjective(e1, e2);
    IntToStringInjective(c1, c2);
  }
}
