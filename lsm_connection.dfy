/**
 * The connection handle of the C binding and the substrate every public call
 * shares: CONN_SETUP, the last-error slot (lsmErrorLog, logException), the single
 * transport boundary `rpc`, and the connection lifecycle (lsm_connect_password,
 * lsm_connect_close).
 *
 * The plugin's side of a call is an input: a Reply says what the transport
 * returned or threw. Everything the binding sends is recorded in the ghost
 * log `sent`, so that "no RPC is made" can be stated as `c.sent == old(c.sent)`.
 */
module LsmConnection {
  import opened Wrappers
  import opened LsmValue
  import opened LsmErrors

  /** An error record built by lsm_error_create (framework domain, error level). */
  datatype LsmError = LsmError(code: int, message: string, exception: Option<string>)

  /** What the transport did with one request. */
  datatype Reply =
    | Returned(value: Value)           // a reply value came back
    | ValueErr(what: string)           // ValueException: (de)serialisation failed
    | LsmErr(code: int, what: string)  // LsmException raised with the plugin's own code
    | Eof                              // EOFException: the plugin process went away
    | Other                            // any other exception

  /** One request as it crosses the wire: method name and parameter object. */
  datatype Request = Request(name: string, params: map<string, Value>)

  /** A caller's out pointer: NULL, pointing at a non-NULL value, or pointing at NULL. */
  datatype OutSlot = NullPtr | Occupied | Empty

  /** CHECK_RP: the out pointer is unusable (NULL, or would overwrite and leak a value). */
  predicate CheckRp(slot: OutSlot) { !slot.Empty? }

  /** CHECK_STR: the string is NULL or empty. */
  predicate CheckStr(s: Option<string>) { s.None? || |s.value| == 0 }

  /** LSM_FLAG_UNUSED_CHECK: every flag is reserved, so any non-zero value is refused. */
  predicate FlagUnused(flags: nat) { flags != 0 }

  /** A nullable C string as a Value argument. */
  function StrArg(s: Option<string>): Value
  {
    if s.Some? then Str(s.value) else Null
  }

  /** The connection handle (lsm_connect). */
  class Connection {
    /** LSM_IS_CONNECT: the handle carries the connection magic. */
    var magic: bool
    /** connection_free has released the handle. */
    var freed: bool
    /** The last error logged on the connection (c->error). */
    var error: Option<LsmError>
    /** The URI text the connection was opened with (c->raw_uri). */
    var rawUri: string
    /** Every request handed to the transport, oldest first. */
    ghost var sent: seq<Request>

    ghost predicate Valid()
      reads this
    {
      freed ==> !magic
    }

    /** connection_get: a fresh handle with no error and nothing sent. */
    constructor ()
      ensures Valid() && magic && !freed
      ensures error == None && rawUri == "" && sent == []
    {
      magic := true;
      freed := false;
      error := None;
      rawUri := "";
      sent := [];
    }

    /** connection_free: the handle is released, with its error record. */
    method Free()
      modifies this`magic, this`freed, this`error
      ensures Valid() && freed && !magic && error == None
    {
      magic := false;
      freed := true;
      error := None;
    }
  }

  /**
   * CONN_SETUP: a call on a handle without the connection magic stops (the caller
   * returns LSM_ERR_INVALID_CONN); otherwise the last error is cleared.
   */
  method ConnSetup(c: Connection) returns (ok: bool)
    modifies c`error
    ensures ok == c.magic
    ensures ok ==> c.error == None
    ensures !ok ==> c.error == old(c.error)
  {
    if !c.magic {
      return false;
    }
    c.error := None;
    ok := true;
  }

  /** lsmErrorLog: store `e` as the connection's only error, replacing any previous one. */
  method LogError(c: Connection, e: LsmError) returns (rc: int)
    modifies c`error
    ensures c.magic ==> rc == OK && c.error == Some(e)
    ensures !c.magic ==> rc == INVALID_CONN && c.error == old(c.error)
  {
    if !c.magic {
      return INVALID_CONN;
    }
    c.error := Some(e);
    rc := OK;
  }

  /** logException: log an error with the given code and hand the same code back. */
  method LogException(c: Connection, code: int, message: string, exception: Option<string>)
    returns (rc: int)
    modifies c`error
    ensures rc == code
    ensures c.magic ==> c.error == Some(LsmError(code, message, exception))
    ensures !c.magic ==> c.error == old(c.error)
  {
    var _ := LogError(c, LsmError(code, message, exception));
    rc := code;
  }

  /** The code rpc returns for a transport outcome. */
  function RpcCode(r: Reply): int
  {
    match r
    case Returned(_) => OK
    case ValueErr(_) => TRANSPORT_SERIALIZATION
    case LsmErr(code, _) => code
    case Eof => TRANSPORT_COMMUNICATION
    case Other => INTERNAL_ERROR
  }

  /** The reply value rpc leaves in `response` (a default Value is null). */
  function RpcResponse(r: Reply): Value
  {
    if r.Returned? then r.value else Null
  }

  /** The error rpc logs for a transport outcome: none when a value came back. */
  function RpcLogged(r: Reply): Option<LsmError>
  {
    match r
    case Returned(_) => None
    case ValueErr(what) => Some(LsmError(TRANSPORT_SERIALIZATION, "Serialization error", Some(what)))
    case LsmErr(code, what) => Some(LsmError(code, what, None))
    case Eof => Some(LsmError(TRANSPORT_COMMUNICATION, "Plug-in died", Some("Check syslog")))
    case Other => Some(LsmError(INTERNAL_ERROR, "Unexpected exception", Some("Unknown exception")))
  }

  /**
   * Exactly the failed calls log an error, and the logged error carries the code
   * rpc returns.
   */
  lemma RpcLogsExactlyFailures(r: Reply)
    ensures RpcLogged(r).Some? <==> !r.Returned?
    ensures RpcLogged(r).Some? ==> RpcLogged(r).value.code == RpcCode(r)
  {
  }

  /**
   * rpc reports success exactly when a value came back, except that a plugin
   * exception carrying code 0 is passed through unchanged and so also reads as
   * success (while still logging an error and leaving a null response).
   */
  lemma RpcOkCases(r: Reply)
    ensures RpcCode(r) == OK <==> r.Returned? || (r.LsmErr? && r.code == OK)
    ensures RpcCode(r) == OK && !r.Returned? ==> RpcResponse(r) == Null && RpcLogged(r).Some?
  {
  }

  /**
   * rpc: the single place where transport exceptions become error codes. The
   * request is sent; a thrown exception is logged on the connection and mapped to
   * a code; a returned value leaves the error slot alone.
   */
  method Rpc(c: Connection, m: string, params: map<string, Value>, reply: Reply)
    returns (rc: int, response: Value)
    requires c.magic
    modifies c`error, c`sent
    ensures c.sent == old(c.sent) + [Request(m, params)]
    ensures reply.Returned? ==> rc == OK && response == reply.value && c.error == old(c.error)
    ensures reply.ValueErr? ==>
      rc == TRANSPORT_SERIALIZATION &&
      c.error == Some(LsmError(TRANSPORT_SERIALIZATION, "Serialization error", Some(reply.what)))
    ensures reply.LsmErr? ==> rc == reply.code && c.error == Some(LsmError(reply.code, reply.what, None))
    ensures reply.Eof? ==>
      rc == TRANSPORT_COMMUNICATION &&
      c.error == Some(LsmError(TRANSPORT_COMMUNICATION, "Plug-in died", Some("Check syslog")))
    ensures reply.Other? ==>
      rc == INTERNAL_ERROR &&
      c.error == Some(LsmError(INTERNAL_ERROR, "Unexpected exception", Some("Unknown exception")))
    ensures !reply.Returned? ==> response == Null
    ensures rc == RpcCode(reply) && response == RpcResponse(reply)
    ensures c.error == if reply.Returned? then old(c.error) else RpcLogged(reply)
  {
    c.sent := c.sent + [Request(m, params)];
    response := Null;
    match reply {
      case Returned(v) =>
        response := v;
        rc := OK;
      case ValueErr(what) =>
        rc := LogException(c, TRANSPORT_SERIALIZATION, "Serialization error", Some(what));
      case LsmErr(code, what) =>
        rc := LogException(c, code, what, None);
      case Eof =>
        rc := LogException(c, TRANSPORT_COMMUNICATION, "Plug-in died", Some("Check syslog"));
      case Other =>
        rc := LogException(c, INTERNAL_ERROR, "Unexpected exception", Some("Unknown exception"));
    }
  }

  /**
   * What the collaborators of lsm_connect_password do, as inputs: whether
   * connection_get allocates, the scheme xmlParseURI finds (None when the URI does
   * not parse or has no scheme), whether copying the URI succeeds, and the code
   * driver_load returns.
   */
  datatype ConnectEnv = ConnectEnv(allocOk: bool, scheme: Option<string>, copyOk: bool, loadRc: int)

  /** The argument checks of lsm_connect_password (the password is optional). */
  predicate ConnectArgsBad(uri: Option<string>, connSlot: OutSlot, timeout: nat, errSlot: OutSlot, flags: nat)
  {
    CheckStr(uri) || CheckRp(connSlot) || timeout == 0 || CheckRp(errSlot) || FlagUnused(flags)
  }

  /**
   * lsm_connect_password. `conn` is what the caller's *conn receives (null: left
   * untouched); `made` is the handle connection_get allocated, if any. On any
   * failure after allocation that handle is freed and *conn is not set.
   */
  method ConnectPassword(uri: Option<string>, password: Option<string>, connSlot: OutSlot,
                         timeout: nat, errSlot: OutSlot, flags: nat, env: ConnectEnv)
    returns (rc: int, conn: Connection?, made: Connection?)
    ensures ConnectArgsBad(uri, connSlot, timeout, errSlot, flags) ==>
      rc == INVALID_ARGUMENT && made == null && conn == null
    ensures !ConnectArgsBad(uri, connSlot, timeout, errSlot, flags) && !env.allocOk ==>
      rc == NO_MEMORY && made == null && conn == null
    ensures !ConnectArgsBad(uri, connSlot, timeout, errSlot, flags) && env.allocOk ==>
      made != null && fresh(made) && made.Valid() && made.sent == [] &&
      rc == (if env.scheme.None? then INVALID_URI else if !env.copyOk then NO_MEMORY else env.loadRc)
    ensures rc == OK ==>
      conn != null && conn == made && conn.magic && !conn.freed &&
      conn.error == None && conn.rawUri == uri.value
    ensures rc != OK ==> conn == null && (made != null ==> made.freed && !made.magic)
  {
    conn, made := null, null;
    if ConnectArgsBad(uri, connSlot, timeout, errSlot, flags) {
      return INVALID_ARGUMENT, conn, made;
    }
    if !env.allocOk {
      return NO_MEMORY, conn, made;
    }
    var c := new Connection();
    made := c;
    if env.scheme.Some? {
      if env.copyOk {
        c.rawUri := uri.value;
        rc := env.loadRc;
        if rc == OK {
          conn := c;
        }
      } else {
        rc := NO_MEMORY;
      }
    } else {
      rc := INVALID_URI;
    }
    if rc != OK {
      c.Free();
    }
  }

  /**
   * lsm_connect_close: a shutdown request is sent and the handle is freed whatever
   * the transport did; the shutdown's own code is returned. Reserved flags are
   * refused before anything is sent, and then the handle stays open.
   */
  method ConnectClose(c: Connection, flags: nat, reply: Reply) returns (rc: int)
    requires c.Valid()
    modifies c
    ensures c.Valid() && c.rawUri == old(c.rawUri)
    ensures !old(c.magic) ==>
      rc == INVALID_CONN && c.error == old(c.error) &&
      c.freed == old(c.freed) && !c.magic && c.sent == old(c.sent)
    ensures old(c.magic) && FlagUnused(flags) ==>
      rc == INVALID_ARGUMENT &&
      c.magic && !c.freed && c.error == None && c.sent == old(c.sent)
    ensures old(c.magic) && !FlagUnused(flags) ==>
      rc == RpcCode(reply) &&
      c.freed && !c.magic && c.error == None &&
      c.sent == old(c.sent) + [Request("shutdown", map["flags" := Num(flags)])]
  {
    var ok := ConnSetup(c);
    if !ok {
      return INVALID_CONN;
    }
    if FlagUnused(flags) {
      return INVALID_ARGUMENT;
    }
    var response;
    rc, response := Rpc(c, "shutdown", map["flags" := Num(flags)], reply);
    c.Free();
  }
}
