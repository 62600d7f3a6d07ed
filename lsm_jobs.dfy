/**
 * Sorting a reply into "job started" or "immediate result" (jobCheck,
 * parse_job_response), the job poller (jobStatus and the typed
 * lsm_job_status_*_get getters) and lsm_job_free.
 */
module LsmJobs {
  import opened Wrappers
  import opened LsmValue
  import opened LsmErrors
  import opened LsmConnection

  /**
   * A record converter such as value_to_pool or value_to_volume: the record, or
   * the text of the ValueException it raises.
   */
  type Decoder<R> = Value -> Result<R, string>

  /** What jobCheck leaves behind: the code and the caller's *job. */
  datatype JobOutcome = JobOutcome(rc: int, job: Option<string>)

  /**
   * jobCheck: on a successful call a string reply is a job id, copied out with
   * JOB_STARTED (NO_MEMORY when the copy fails); any other reply means the work
   * is already done. A failed call's code passes through.
   */
  function JobCheck(rc: int, response: Value, copyOk: bool): (r: JobOutcome)
    ensures r.job.Some? ==>
      rc == OK && response.Str? && r.job.value == response.s && r.rc == JOB_STARTED
    ensures rc != OK ==> r == JobOutcome(rc, None)
    ensures rc == OK && !response.Str? ==> r == JobOutcome(OK, None)
    ensures rc == OK && response.Str? && !copyOk ==> r == JobOutcome(NO_MEMORY, None)
    ensures rc == OK && response.Str? && copyOk ==> r == JobOutcome(JOB_STARTED, Some(response.s))
  {
    if rc == OK && response.Str? then
      if copyOk then JobOutcome(JOB_STARTED, Some(response.s)) else JobOutcome(NO_MEMORY, None)
    else
      JobOutcome(rc, None)
  }

  /**
   * A successful call either started a job, and then the caller holds its id, or
   * it finished at once, and then no id is handed out.
   */
  lemma JobCheckDuality(response: Value, copyOk: bool)
    ensures JobCheck(OK, response, copyOk).job.Some? <==> JobCheck(OK, response, copyOk).rc == JOB_STARTED
    ensures JobCheck(OK, response, copyOk).rc in {OK, JOB_STARTED, NO_MEMORY}
  {
  }

  /**
   * What parse_job_response leaves: the code, the caller's *job, the record it
   * returns, and the error it logs (None: the connection's error is untouched).
   */
  datatype JobReply<R> = JobReply(rc: int, job: Option<string>, record: Option<R>, logged: Option<LsmError>)

  /**
   * parse_job_response on a successful call. An array reply is [job, record]: a
   * string first element is the job id, an object second element is decoded with
   * `conv`. Forcing JOB_STARTED happens after the copy of the id is tried, so a
   * failed copy still reports a started job (without an id). A converter error
   * logs INTERNAL_ERROR and drops the id. Any other reply yields nothing.
   */
  function ParsedJob<R>(rc: int, response: Value, conv: Decoder<R>, copyOk: bool): (p: JobReply<R>)
    requires response.Arr? ==> |response.items| >= 2
    ensures !response.Arr? ==> p == JobReply(rc, None, None, None)
    ensures p.job.Some? ==>
      response.Arr? && response.items[0].Str? && p.job.value == response.items[0].s && p.rc == JOB_STARTED
    ensures p.record.Some? ==>
      response.Arr? && response.items[1].Obj? && conv(response.items[1]) == Ok(p.record.value)
    ensures p.logged.Some? <==> response.Arr? && response.items[1].Obj? && conv(response.items[1]).Err?
    ensures p.logged.Some? ==>
      p.rc == INTERNAL_ERROR && p.job == None && p.record == None &&
      p.logged == Some(LsmError(INTERNAL_ERROR, "Unexpected type", Some(conv(response.items[1]).error)))
  {
    if !response.Arr? then JobReply(rc, None, None, None)
    else
      var r := response.items;
      var rc1 := if r[0].Str? then JOB_STARTED else rc;
      var job := if r[0].Str? && copyOk then Some(r[0].s) else None;
      if r[1].Obj? then
        match conv(r[1])
        case Ok(rec) => JobReply(rc1, job, Some(rec), None)
        case Err(what) =>
          JobReply(INTERNAL_ERROR, None, None, Some(LsmError(INTERNAL_ERROR, "Unexpected type", Some(what))))
      else
        JobReply(rc1, job, None, None)
  }

  /**
   * Without a converter error, a job id is set exactly when the first element is
   * a string whose copy succeeds, the code is JOB_STARTED exactly when the first
   * element is a string, and a record is returned exactly when the second element
   * is an object.
   */
  lemma ParsedJobShape<R>(rc: int, response: Value, conv: Decoder<R>, copyOk: bool)
    requires response.Arr? && |response.items| >= 2
    requires !(response.items[1].Obj? && conv(response.items[1]).Err?)
    ensures ParsedJob(rc, response, conv, copyOk).job.Some? <==> response.items[0].Str? && copyOk
    ensures ParsedJob(rc, response, conv, copyOk).rc == (if response.items[0].Str? then JOB_STARTED else rc)
    ensures ParsedJob(rc, response, conv, copyOk).record.Some? <==> response.items[1].Obj?
  {
  }

  /** A failed copy of the job id still reports JOB_STARTED, with no id to poll. */
  lemma ParsedJobStartedWithoutId<R>(rc: int, id: string, conv: Decoder<R>)
    ensures ParsedJob(rc, Arr([Str(id), Null]), conv, false) == JobReply(JOB_STARTED, None, None, None)
  {
  }

  /** A reply [id, object] hands out both a job id and a record. */
  lemma ParsedJobBoth<R>(rc: int, id: string, fields: map<string, Value>, conv: Decoder<R>)
    requires conv(Obj(fields)).Ok?
    ensures ParsedJob(rc, Arr([Str(id), Obj(fields)]), conv, true) ==
      JobReply(JOB_STARTED, Some(id), Some(conv(Obj(fields)).value), None)
  {
  }

  /**
   * parse_job_response: the record is returned, *job and rc are written, and a
   * converter error is logged on the connection.
   */
  method ParseJobResponse<R>(c: Connection, response: Value, rcIn: int, conv: Decoder<R>, copyOk: bool)
    returns (rc: int, job: Option<string>, record: Option<R>)
    requires c.magic
    requires response.Arr? ==> |response.items| >= 2
    modifies c`error
    ensures var p := ParsedJob(rcIn, response, conv, copyOk);
      rc == p.rc && job == p.job && record == p.record &&
      c.error == (if p.logged.Some? then p.logged else old(c.error))
  {
    rc, job, record := rcIn, None, None;
    if response.Arr? {
      var r := response.items;
      if r[0].Str? {
        if copyOk {
          job := Some(r[0].s);
          rc := JOB_STARTED;
        } else {
          rc := NO_MEMORY;
        }
        rc := JOB_STARTED;
      }
      if r[1].Obj? {
        var d := conv(r[1]);
        if d.Ok? {
          record := Some(d.value);
        } else {
          rc := LogException(c, INTERNAL_ERROR, "Unexpected type", Some(d.error));
          job := None;
        }
      }
    }
  }

  /** What jobStatus leaves: code, *status, *percentComplete, returned_value, logged error. */
  datatype StatusReply = StatusReply(rc: int, status: Option<int>, percent: Option<int>, value: Value,
                                     logged: Option<LsmError>)

  /** The error jobStatus and the typed getters log when a reply has the wrong shape. */
  function UnexpectedType(what: string): Option<LsmError>
  {
    Some(LsmError(INTERNAL_ERROR, "Unexpected type", Some(what)))
  }

  /** The reply shape jobStatus indexes without a check: an array has at least three items. */
  predicate StatusShape(reply: Reply)
  {
    RpcResponse(reply).Arr? ==> |RpcResponse(reply).items| >= 3
  }

  /**
   * jobStatus once the arguments have passed: the job_status reply must be an
   * array [status, percent, value] of a signed 32-bit status and an unsigned
   * 32-bit percentage, which is truncated to 8 bits. The status is written
   * before the percentage is converted, so it stays written when that fails.
   * A failed call keeps rpc's code and logged error.
   */
  function StatusCall(reply: Reply): (s: StatusReply)
    requires StatusShape(reply)
    ensures s.rc == OK ==> RpcCode(reply) == OK && s.logged == RpcLogged(reply)
    ensures s.rc == OK ==>
      reply.Returned? && reply.value.Arr? &&
      s.status == AsInt32(reply.value.items[0]) && s.status.Some? &&
      s.percent.Some? && 0 <= s.percent.value < 256 && reply.value.items[1].Num? &&
      s.percent.value == reply.value.items[1].n % 256 && s.value == reply.value.items[2]
    ensures RpcCode(reply) != OK ==> s == StatusReply(RpcCode(reply), None, None, Null, RpcLogged(reply))
    ensures s.rc != OK ==> s.value == Null && s.logged.Some? && s.logged.value.code == s.rc
    ensures s.percent.Some? ==> s.status.Some?
    ensures RpcCode(reply) == OK ==>
      (s.rc == OK <==> RpcResponse(reply).Arr? && AsInt32(RpcResponse(reply).items[0]).Some? &&
                       AsUint32(RpcResponse(reply).items[1]).Some?)
    ensures RpcCode(reply) == OK && s.rc != OK ==> s.rc == INTERNAL_ERROR && s.logged == UnexpectedType(TYPE_MISMATCH)
    ensures RpcCode(reply) == OK && RpcResponse(reply).Arr? && AsInt32(RpcResponse(reply).items[0]).Some? ==>
      s.status == AsInt32(RpcResponse(reply).items[0])
  {
    if RpcCode(reply) != OK then
      StatusReply(RpcCode(reply), None, None, Null, RpcLogged(reply))
    else
      var response := RpcResponse(reply);
      if !response.Arr? then
        StatusReply(INTERNAL_ERROR, None, None, Null, UnexpectedType(TYPE_MISMATCH))
      else
        var j := response.items;
        match AsInt32(j[0])
        case None => StatusReply(INTERNAL_ERROR, None, None, Null, UnexpectedType(TYPE_MISMATCH))
        case Some(st) =>
          match AsUint32(j[1])
          case None => StatusReply(INTERNAL_ERROR, Some(st), None, Null, UnexpectedType(TYPE_MISMATCH))
          case Some(pc) => StatusReply(OK, Some(st), Some(pc % 256), j[2], RpcLogged(reply))
  }

  /** The request jobStatus sends. */
  function StatusRequest(job: string, flags: nat): Request
  {
    Request("job_status", map["job_id" := Str(job), "flags" := Num(flags)])
  }

  /**
   * jobStatus: INVALID_CONN on a bad handle, INVALID_ARGUMENT (with nothing sent)
   * when the job id or either out pointer is NULL, otherwise one job_status
   * request whose outcome is StatusCall. Flags are not checked here.
   */
  method JobStatus(c: Connection, job: Option<string>, statusPtr: bool, percentPtr: bool,
                   flags: nat, reply: Reply)
    returns (rc: int, status: Option<int>, percent: Option<int>, value: Value)
    requires StatusShape(reply)
    modifies c`error, c`sent
    ensures !old(c.magic) ==>
      rc == INVALID_CONN && c.sent == old(c.sent) && c.error == old(c.error) && status == None
    ensures old(c.magic) && (job.None? || !statusPtr || !percentPtr) ==>
      rc == INVALID_ARGUMENT && c.sent == old(c.sent) && c.error == None && status == None && percent == None
    ensures old(c.magic) && job.Some? && statusPtr && percentPtr ==>
      c.sent == old(c.sent) + [StatusRequest(job.value, flags)] &&
      StatusReply(rc, status, percent, value, c.error) == StatusCall(reply)
  {
    status, percent, value := None, None, Null;
    var ok := ConnSetup(c);
    if !ok {
      return INVALID_CONN, status, percent, value;
    }
    if job.None? || !statusPtr || !percentPtr {
      return INVALID_ARGUMENT, status, percent, value;
    }
    var response;
    rc, response := Rpc(c, "job_status", map["job_id" := Str(job.value), "flags" := Num(flags)], reply);
    if rc == OK {
      if !response.Arr? {
        rc := LogException(c, INTERNAL_ERROR, "Unexpected type", Some(TYPE_MISMATCH));
        return;
      }
      var j := response.items;
      var st := AsInt32(j[0]);
      if st.None? {
        rc := LogException(c, INTERNAL_ERROR, "Unexpected type", Some(TYPE_MISMATCH));
        return;
      }
      status := st;
      var pc := AsUint32(j[1]);
      if pc.None? {
        rc := LogException(c, INTERNAL_ERROR, "Unexpected type", Some(TYPE_MISMATCH));
        return;
      }
      percent := Some(pc.value % 256);
      value := j[2];
    }
  }

  /**
   * lsm_job_status_get: CONN_SETUP, reserved flags refused with nothing sent, then
   * jobStatus with the returned value thrown away.
   */
  method JobStatusGet(c: Connection, job: Option<string>, statusPtr: bool, percentPtr: bool,
                      flags: nat, reply: Reply)
    returns (rc: int, status: Option<int>, percent: Option<int>)
    requires StatusShape(reply)
    modifies c`error, c`sent
    ensures !old(c.magic) ==> rc == INVALID_CONN && c.sent == old(c.sent) && c.error == old(c.error)
    ensures old(c.magic) && FlagUnused(flags) ==>
      rc == INVALID_ARGUMENT && c.sent == old(c.sent) && c.error == None
    ensures old(c.magic) && !FlagUnused(flags) && (job.None? || !statusPtr || !percentPtr) ==>
      rc == INVALID_ARGUMENT && c.sent == old(c.sent) && c.error == None
    ensures old(c.magic) && !FlagUnused(flags) && job.Some? && statusPtr && percentPtr ==>
      c.sent == old(c.sent) + [StatusRequest(job.value, flags)] &&
      var s := StatusCall(reply);
      rc == s.rc && status == s.status && percent == s.percent && c.error == s.logged
  {
    status, percent := None, None;
    var ok := ConnSetup(c);
    if !ok {
      return INVALID_CONN, status, percent;
    }
    if FlagUnused(flags) {
      return INVALID_ARGUMENT, status, percent;
    }
    var rv;
    rc, status, percent, rv := JobStatus(c, job, statusPtr, percentPtr, flags, reply);
  }

  /** What a typed getter leaves: jobStatus's outputs plus the decoded record. */
  datatype TypedStatus<R> = TypedStatus(rc: int, status: Option<int>, percent: Option<int>, record: Option<R>,
                                        logged: Option<LsmError>)

  /**
   * A typed getter once the arguments have passed: after a successful poll the
   * returned value is decoded only when it is an object; a converter error logs
   * INTERNAL_ERROR.
   */
  function TypedStatusCall<R>(reply: Reply, conv: Decoder<R>): (t: TypedStatus<R>)
    requires StatusShape(reply)
    ensures var s := StatusCall(reply);
      t.status == s.status && t.percent == s.percent &&
      (s.rc != OK ==> t.rc == s.rc && t.record == None && t.logged == s.logged)
    ensures t.record.Some? ==>
      t.rc == OK && StatusCall(reply).value.Obj? && conv(StatusCall(reply).value) == Ok(t.record.value)
    ensures StatusCall(reply).rc == OK && !StatusCall(reply).value.Obj? ==>
      t.rc == OK && t.record == None && t.logged == StatusCall(reply).logged
    ensures StatusCall(reply).rc == OK && StatusCall(reply).value.Obj? ==>
      (t.record.Some? <==> conv(StatusCall(reply).value).Ok?)
    ensures t.rc == OK ==> StatusCall(reply).rc == OK
    ensures StatusCall(reply).rc == OK && StatusCall(reply).value.Obj? && conv(StatusCall(reply).value).Err? ==>
      t.rc == INTERNAL_ERROR && t.logged == UnexpectedType(conv(StatusCall(reply).value).error)
  {
    var s := StatusCall(reply);
    if s.rc == OK && s.value.Obj? then
      match conv(s.value)
      case Ok(rec) => TypedStatus(OK, s.status, s.percent, Some(rec), s.logged)
      case Err(what) => TypedStatus(INTERNAL_ERROR, s.status, s.percent, None, UnexpectedType(what))
    else
      TypedStatus(s.rc, s.status, s.percent, None, s.logged)
  }

  /**
   * lsm_job_status_pool_get (lsm_job_status_volume_get is the same with
   * value_to_volume): CONN_SETUP, a usable out pointer and no reserved flags,
   * then jobStatus and the typed decode.
   */
  method JobStatusPoolGet<R>(c: Connection, job: Option<string>, statusPtr: bool, percentPtr: bool,
                             poolSlot: OutSlot, flags: nat, reply: Reply, conv: Decoder<R>)
    returns (rc: int, status: Option<int>, percent: Option<int>, pool: Option<R>)
    requires StatusShape(reply)
    modifies c`error, c`sent
    ensures !old(c.magic) ==>
      rc == INVALID_CONN && c.sent == old(c.sent) && c.error == old(c.error) && pool == None
    ensures old(c.magic) && (CheckRp(poolSlot) || FlagUnused(flags)) ==>
      rc == INVALID_ARGUMENT && c.sent == old(c.sent) && c.error == None && pool == None
    ensures old(c.magic) && !CheckRp(poolSlot) && !FlagUnused(flags) && (job.None? || !statusPtr || !percentPtr) ==>
      rc == INVALID_ARGUMENT && c.sent == old(c.sent) && c.error == None && pool == None
    ensures old(c.magic) && !CheckRp(poolSlot) && !FlagUnused(flags) && job.Some? && statusPtr && percentPtr ==>
      c.sent == old(c.sent) + [StatusRequest(job.value, flags)] &&
      TypedStatus(rc, status, percent, pool, c.error) == TypedStatusCall(reply, conv)
  {
    status, percent, pool := None, None, None;
    var ok := ConnSetup(c);
    if !ok {
      return INVALID_CONN, status, percent, pool;
    }
    if CheckRp(poolSlot) || FlagUnused(flags) {
      return INVALID_ARGUMENT, status, percent, pool;
    }
    rc, status, percent, pool := TypedPoll(c, job, statusPtr, percentPtr, flags, reply, conv);
  }

  /**
   * lsm_job_status_fs_get (lsm_job_status_ss_get is the same with value_to_ss):
   * as the pool getter, except that the out pointer and flags are checked before
   * the handle, so a bad argument on a bad handle gives INVALID_ARGUMENT.
   */
  method JobStatusFsGet<R>(c: Connection, job: Option<string>, statusPtr: bool, percentPtr: bool,
                           fsSlot: OutSlot, flags: nat, reply: Reply, conv: Decoder<R>)
    returns (rc: int, status: Option<int>, percent: Option<int>, fs: Option<R>)
    requires StatusShape(reply)
    modifies c`error, c`sent
    ensures CheckRp(fsSlot) || FlagUnused(flags) ==>
      rc == INVALID_ARGUMENT && c.sent == old(c.sent) && c.error == old(c.error) && fs == None
    ensures !CheckRp(fsSlot) && !FlagUnused(flags) && !old(c.magic) ==>
      rc == INVALID_CONN && c.sent == old(c.sent) && c.error == old(c.error) && fs == None
    ensures !CheckRp(fsSlot) && !FlagUnused(flags) && old(c.magic) && (job.None? || !statusPtr || !percentPtr) ==>
      rc == INVALID_ARGUMENT && c.sent == old(c.sent) && c.error == None && fs == None
    ensures !CheckRp(fsSlot) && !FlagUnused(flags) && old(c.magic) && job.Some? && statusPtr && percentPtr ==>
      c.sent == old(c.sent) + [StatusRequest(job.value, flags)] &&
      TypedStatus(rc, status, percent, fs, c.error) == TypedStatusCall(reply, conv)
  {
    status, percent, fs := None, None, None;
    if CheckRp(fsSlot) || FlagUnused(flags) {
      return INVALID_ARGUMENT, status, percent, fs;
    }
    rc, status, percent, fs := TypedPoll(c, job, statusPtr, percentPtr, flags, reply, conv);
  }

  /** The body the typed getters share: jobStatus, then decode an object value. */
  method TypedPoll<R>(c: Connection, job: Option<string>, statusPtr: bool, percentPtr: bool,
                      flags: nat, reply: Reply, conv: Decoder<R>)
    returns (rc: int, status: Option<int>, percent: Option<int>, record: Option<R>)
    requires StatusShape(reply)
    modifies c`error, c`sent
    ensures !old(c.magic) ==>
      rc == INVALID_CONN && c.sent == old(c.sent) && c.error == old(c.error) && record == None
    ensures old(c.magic) && (job.None? || !statusPtr || !percentPtr) ==>
      rc == INVALID_ARGUMENT && c.sent == old(c.sent) && c.error == None && record == None
    ensures old(c.magic) && job.Some? && statusPtr && percentPtr ==>
      c.sent == old(c.sent) + [StatusRequest(job.value, flags)] &&
      TypedStatus(rc, status, percent, record, c.error) == TypedStatusCall(reply, conv)
  {
    record := None;
    var rv;
    rc, status, percent, rv := JobStatus(c, job, statusPtr, percentPtr, flags, reply);
    if rc == OK && rv.Obj? {
      var d := conv(rv);
      if d.Ok? {
        record := Some(d.value);
      } else {
        rc := LogException(c, INTERNAL_ERROR, "Unexpected type", Some(d.error));
      }
    }
  }

  /**
   * lsm_job_free. `job` is the caller's char** (None: a NULL pointer); the result
   * `remaining` is what *job holds afterwards. The id is released and *job set to
   * NULL only when the job_free request succeeds.
   */
  method JobFree(c: Connection, job: Option<string>, flags: nat, reply: Reply)
    returns (rc: int, remaining: Option<string>)
    modifies c`error, c`sent
    ensures !old(c.magic) ==> rc == INVALID_CONN && remaining == job && c.sent == old(c.sent) && c.error == old(c.error)
    ensures old(c.magic) && (job.None? || |job.value| < 1 || FlagUnused(flags)) ==>
      rc == INVALID_ARGUMENT && remaining == job && c.sent == old(c.sent) && c.error == None
    ensures old(c.magic) && job.Some? && |job.value| >= 1 && !FlagUnused(flags) ==>
      rc == RpcCode(reply) &&
      c.sent == old(c.sent) + [Request("job_free", map["job_id" := Str(job.value), "flags" := Num(flags)])] &&
      c.error == RpcLogged(reply) &&
      remaining == (if rc == OK then None else job)
  {
    remaining := job;
    var ok := ConnSetup(c);
    if !ok {
      return INVALID_CONN, remaining;
    }
    if job.None? || |job.value| < 1 || FlagUnused(flags) {
      return INVALID_ARGUMENT, remaining;
    }
    var response;
    rc, response := Rpc(c, "job_free", map["job_id" := Str(job.value), "flags" := Num(flags)], reply);
    if rc == OK {
      remaining := None;
    }
  }
}
