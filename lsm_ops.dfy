/**
 * A representative set of the binding's public calls: the local argument rules
 * of lsm_pool_create and lsm_volume_resize, the list decoders that fill record
 * arrays (lsm_pool_list, get_initiator_array, lsm_system_list), and the calls
 * lsm_initiator_revoke, lsm_fs_delete, lsm_volume_child_dependency and
 * lsm_nfs_export_fs.
 */
module LsmOps {
  import opened Wrappers
  import opened LsmValue
  import opened LsmErrors
  import opened LsmConnection
  import opened LsmJobs

  // lsm_pool_raid_type
  const RAID_0: int := 0
  const RAID_1: int := 1
  const RAID_3: int := 3
  const RAID_5: int := 5
  const RAID_6: int := 6
  const RAID_10: int := 10
  const RAID_15: int := 15
  const RAID_16: int := 16
  const RAID_50: int := 50
  const RAID_60: int := 60
  const RAID_51: int := 51
  const RAID_61: int := 61
  const RAID_JBOD: int := 20
  const RAID_UNKNOWN: int := 21
  const RAID_NOT_APPLICABLE: int := 22
  const RAID_MIXED: int := 23

  /** The RAID types a pool may be created with. */
  const POOL_RAID_TYPES: set<int> :=
    {RAID_0, RAID_1, RAID_3, RAID_5, RAID_6, RAID_10, RAID_15, RAID_16,
     RAID_50, RAID_60, RAID_51, RAID_61, RAID_JBOD, RAID_UNKNOWN, RAID_NOT_APPLICABLE, RAID_MIXED}

  // lsm_pool_member_type
  const MEMBER_UNKNOWN: int := 0
  const MEMBER_DISK: int := 1
  const MEMBER_POOL: int := 2
  const MEMBER_VOLUME: int := 3
  const MEMBER_DISK_MIX: int := 10
  const MEMBER_DISK_ATA: int := 11
  const MEMBER_DISK_SATA: int := 12
  const MEMBER_DISK_SAS: int := 13
  const MEMBER_DISK_FC: int := 14
  const MEMBER_DISK_SOP: int := 15
  const MEMBER_DISK_SCSI: int := 16
  const MEMBER_DISK_NL_SAS: int := 17
  const MEMBER_DISK_HDD: int := 18
  const MEMBER_DISK_SSD: int := 19
  const MEMBER_DISK_HYBRID: int := 110

  /** The member types a pool may be created from. */
  const POOL_MEMBER_TYPES: set<int> :=
    {MEMBER_UNKNOWN, MEMBER_DISK, MEMBER_POOL, MEMBER_VOLUME, MEMBER_DISK_MIX, MEMBER_DISK_ATA,
     MEMBER_DISK_SATA, MEMBER_DISK_SAS, MEMBER_DISK_FC, MEMBER_DISK_SOP, MEMBER_DISK_SCSI,
     MEMBER_DISK_NL_SAS, MEMBER_DISK_HDD, MEMBER_DISK_SSD, MEMBER_DISK_HYBRID}

  /** valid_pool_raid_type: the switch over the enumerators. */
  function ValidPoolRaidType(t: int): (ok: bool)
    ensures ok <==> t in POOL_RAID_TYPES
  {
    match t
    case 0 => true
    case 1 => true
    case 3 => true
    case 5 => true
    case 6 => true
    case 10 => true
    case 15 => true
    case 16 => true
    case 50 => true
    case 60 => true
    case 51 => true
    case 61 => true
    case 20 => true
    case 21 => true
    case 22 => true
    case 23 => true
    case _ => false
  }

  /** valid_pool_member_type: the switch over the enumerators. */
  function ValidPoolMemberType(t: int): (ok: bool)
    ensures ok <==> t in POOL_MEMBER_TYPES
  {
    match t
    case 0 => true
    case 1 => true
    case 2 => true
    case 3 => true
    case 10 => true
    case 11 => true
    case 12 => true
    case 13 => true
    case 14 => true
    case 15 => true
    case 16 => true
    case 17 => true
    case 18 => true
    case 19 => true
    case 110 => true
    case _ => false
  }

  /** A record handle passed in by the caller: whether it carries its magic, and its *_to_value encoding. */
  datatype Handle = Handle(valid: bool, encoded: Value)

  /** A volume handle also carries the geometry lsm_volume_resize reads. */
  datatype VolumeHandle = VolumeHandle(valid: bool, blockSize: nat, numberOfBlocks: nat, encoded: Value)

  /** The reply shape parse_job_response indexes without a check: an array has at least two items. */
  predicate JobShape(reply: Reply)
  {
    RpcResponse(reply).Arr? ==> |RpcResponse(reply).items| >= 2
  }

  /**
   * A call that ends in parse_job_response: a failed call keeps rpc's code and
   * logged error and yields nothing; a successful one is sorted by ParsedJob.
   */
  function JobCall<R>(reply: Reply, conv: Decoder<R>, copyOk: bool): (p: JobReply<R>)
    requires JobShape(reply)
    ensures RpcCode(reply) != OK ==> p == JobReply(RpcCode(reply), None, None, RpcLogged(reply))
    ensures p.job.Some? || p.record.Some? ==> reply.Returned? && reply.value.Arr?
    ensures p.rc == OK ==> p.job == None
    ensures p.rc == JOB_STARTED && RpcCode(reply) == OK ==>
      reply.Returned? && reply.value.Arr? && reply.value.items[0].Str?
  {
    if RpcCode(reply) != OK then JobReply(RpcCode(reply), None, None, RpcLogged(reply))
    else
      var p := ParsedJob(OK, RpcResponse(reply), conv, copyOk);
      if p.logged.Some? then p else p.(logged := RpcLogged(reply))
  }

  /** The argument rules of lsm_pool_create that give INVALID_ARGUMENT. */
  predicate PoolCreateArgsBad(name: Option<string>, sizeBytes: nat, raidType: int, memberType: int,
                              poolSlot: OutSlot, jobSlot: OutSlot, flags: nat)
  {
    CheckStr(name) || sizeBytes == 0 || CheckRp(poolSlot) || CheckRp(jobSlot) || FlagUnused(flags) ||
    !ValidPoolRaidType(raidType) || !ValidPoolMemberType(memberType)
  }

  /** Each refusal of lsm_pool_create on its own, with the enum rules as set membership. */
  lemma PoolCreateRefusals(name: Option<string>, sizeBytes: nat, raidType: int, memberType: int,
                           poolSlot: OutSlot, jobSlot: OutSlot, flags: nat)
    ensures name == Some("") ==> PoolCreateArgsBad(name, sizeBytes, raidType, memberType, poolSlot, jobSlot, flags)
    ensures sizeBytes == 0 ==> PoolCreateArgsBad(name, sizeBytes, raidType, memberType, poolSlot, jobSlot, flags)
    ensures raidType !in POOL_RAID_TYPES ==>
      PoolCreateArgsBad(name, sizeBytes, raidType, memberType, poolSlot, jobSlot, flags)
    ensures memberType !in POOL_MEMBER_TYPES ==>
      PoolCreateArgsBad(name, sizeBytes, raidType, memberType, poolSlot, jobSlot, flags)
    ensures !PoolCreateArgsBad(name, sizeBytes, raidType, memberType, poolSlot, jobSlot, flags) ==>
      name.Some? && |name.value| > 0 && sizeBytes > 0 && raidType in POOL_RAID_TYPES &&
      memberType in POOL_MEMBER_TYPES && poolSlot == Empty && jobSlot == Empty && flags == 0
  {
  }

  /**
   * lsm_pool_create: INVALID_CONN, then INVALID_SYSTEM, then the argument rules,
   * all without a request; otherwise one pool_create request whose reply is
   * sorted by parse_job_response.
   */
  method PoolCreate<R>(c: Connection, system: Handle, name: Option<string>, sizeBytes: nat,
                       raidType: int, memberType: int, poolSlot: OutSlot, jobSlot: OutSlot, flags: nat,
                       reply: Reply, conv: Decoder<R>, copyOk: bool)
    returns (rc: int, pool: Option<R>, job: Option<string>)
    requires JobShape(reply)
    modifies c`error, c`sent
    ensures !old(c.magic) ==> rc == INVALID_CONN && c.sent == old(c.sent) && c.error == old(c.error)
    ensures old(c.magic) && !system.valid ==> rc == INVALID_SYSTEM && c.sent == old(c.sent) && c.error == None
    ensures old(c.magic) && system.valid &&
            PoolCreateArgsBad(name, sizeBytes, raidType, memberType, poolSlot, jobSlot, flags) ==>
      rc == INVALID_ARGUMENT && c.sent == old(c.sent) && c.error == None
    ensures rc in {INVALID_CONN, INVALID_SYSTEM, INVALID_ARGUMENT} && c.sent == old(c.sent) ==>
      pool == None && job == None
    ensures old(c.magic) && system.valid &&
            !PoolCreateArgsBad(name, sizeBytes, raidType, memberType, poolSlot, jobSlot, flags) ==>
      c.sent == old(c.sent) + [Request("pool_create",
        map["system" := system.encoded, "pool_name" := Str(name.value), "size_bytes" := Num(sizeBytes),
            "raid_type" := Num(raidType), "member_type" := Num(memberType), "flags" := Num(flags)])] &&
      JobReply(rc, job, pool, c.error) == JobCall(reply, conv, copyOk)
  {
    pool, job := None, None;
    var ok := ConnSetup(c);
    if !ok {
      return INVALID_CONN, pool, job;
    }
    if !system.valid {
      return INVALID_SYSTEM, pool, job;
    }
    if PoolCreateArgsBad(name, sizeBytes, raidType, memberType, poolSlot, jobSlot, flags) {
      return INVALID_ARGUMENT, pool, job;
    }
    var response;
    rc, response := Rpc(c, "pool_create",
      map["system" := system.encoded, "pool_name" := Str(name.value), "size_bytes" := Num(sizeBytes),
          "raid_type" := Num(raidType), "member_type" := Num(memberType), "flags" := Num(flags)], reply);
    if rc == OK {
      rc, job, pool := ParseJobResponse(c, response, rc, conv, copyOk);
    }
  }

  /** The same-size rule of lsm_volume_resize: the new size, in whole blocks, is the current block count. */
  predicate SameSize(newSize: nat, v: VolumeHandle)
    requires v.blockSize > 0
  {
    newSize / v.blockSize == v.numberOfBlocks
  }

  /**
   * The same-size rule refuses exactly the sizes from the current size up to,
   * but not including, one more block: growing by less than a block is refused
   * too.
   */
  lemma {:induction false} SameSizeWindow(newSize: nat, v: VolumeHandle)
    requires v.blockSize > 0
    ensures SameSize(newSize, v) <==>
      v.blockSize * v.numberOfBlocks <= newSize < v.blockSize * v.numberOfBlocks + v.blockSize
  {
    var b, n := v.blockSize, v.numberOfBlocks;
    var q, r := newSize / b, newSize % b;
    assert newSize == b * q + r && 0 <= r < b;
    if q == n {
      assert b * n <= newSize < b * n + b;
    } else if q < n {
      assert b * q + b <= b * n by {
        assert q + 1 <= n;
        MulMonotone(b, q + 1, n);
      }
    } else {
      assert b * (n + 1) <= b * q by {
        MulMonotone(b, n + 1, q);
      }
    }
  }

  /** Multiplying by a positive factor keeps order. */
  lemma {:induction false} MulMonotone(b: nat, x: nat, y: nat)
    requires x <= y
    ensures b * x <= b * y
  {
    assert b * y == b * x + b * (y - x);
  }

  /**
   * lsm_volume_resize: INVALID_CONN, INVALID_VOL, then INVALID_ARGUMENT for a zero
   * size, an unusable out pointer or reserved flags, then VOLUME_SAME_SIZE, all
   * without a request; otherwise one volume_resize request sorted by
   * parse_job_response.
   */
  method VolumeResize<R>(c: Connection, volume: VolumeHandle, newSize: nat, resizedSlot: OutSlot,
                         jobSlot: OutSlot, flags: nat, reply: Reply, conv: Decoder<R>, copyOk: bool)
    returns (rc: int, resized: Option<R>, job: Option<string>)
    requires volume.valid ==> volume.blockSize > 0
    requires JobShape(reply)
    modifies c`error, c`sent
    ensures !old(c.magic) ==> rc == INVALID_CONN && c.sent == old(c.sent) && c.error == old(c.error)
    ensures old(c.magic) && !volume.valid ==> rc == INVALID_VOL && c.sent == old(c.sent) && c.error == None
    ensures old(c.magic) && volume.valid &&
            (newSize == 0 || CheckRp(resizedSlot) || CheckRp(jobSlot) || FlagUnused(flags)) ==>
      rc == INVALID_ARGUMENT && c.sent == old(c.sent) && c.error == None
    ensures old(c.magic) && volume.valid &&
            !(newSize == 0 || CheckRp(resizedSlot) || CheckRp(jobSlot) || FlagUnused(flags)) &&
            SameSize(newSize, volume) ==>
      rc == VOLUME_SAME_SIZE && c.sent == old(c.sent) && c.error == None
    ensures c.sent == old(c.sent) ==> resized == None && job == None
    ensures old(c.magic) && volume.valid &&
            !(newSize == 0 || CheckRp(resizedSlot) || CheckRp(jobSlot) || FlagUnused(flags)) &&
            !SameSize(newSize, volume) ==>
      c.sent == old(c.sent) + [Request("volume_resize",
        map["volume" := volume.encoded, "new_size_bytes" := Num(newSize), "flags" := Num(flags)])] &&
      JobReply(rc, job, resized, c.error) == JobCall(reply, conv, copyOk)
  {
    resized, job := None, None;
    var ok := ConnSetup(c);
    if !ok {
      return INVALID_CONN, resized, job;
    }
    if !volume.valid {
      return INVALID_VOL, resized, job;
    }
    if newSize == 0 || CheckRp(resizedSlot) || CheckRp(jobSlot) || FlagUnused(flags) {
      return INVALID_ARGUMENT, resized, job;
    }
    if newSize / volume.blockSize == volume.numberOfBlocks {
      return VOLUME_SAME_SIZE, resized, job;
    }
    var response;
    rc, response := Rpc(c, "volume_resize",
      map["volume" := volume.encoded, "new_size_bytes" := Num(newSize), "flags" := Num(flags)], reply);
    if rc == OK {
      rc, job, resized := ParseJobResponse(c, response, rc, conv, copyOk);
    }
  }

  /**
   * lsm_initiator_revoke: INVALID_INIT for a bad initiator; a bad volume and
   * reserved flags share one check, so reserved flags are reported as
   * INVALID_VOL. Otherwise the code of one initiator_revoke request.
   */
  method InitiatorRevoke(c: Connection, initiator: Handle, volume: Handle, flags: nat, reply: Reply)
    returns (rc: int)
    modifies c`error, c`sent
    ensures !old(c.magic) ==> rc == INVALID_CONN && c.sent == old(c.sent) && c.error == old(c.error)
    ensures old(c.magic) && !initiator.valid ==> rc == INVALID_INIT && c.sent == old(c.sent) && c.error == None
    ensures old(c.magic) && initiator.valid && (!volume.valid || FlagUnused(flags)) ==>
      rc == INVALID_VOL && c.sent == old(c.sent) && c.error == None
    ensures old(c.magic) && initiator.valid && volume.valid && !FlagUnused(flags) ==>
      rc == RpcCode(reply) && c.error == RpcLogged(reply) &&
      c.sent == old(c.sent) + [Request("initiator_revoke",
        map["initiator" := initiator.encoded, "volume" := volume.encoded, "flags" := Num(flags)])]
  {
    var ok := ConnSetup(c);
    if !ok {
      return INVALID_CONN;
    }
    if !initiator.valid {
      return INVALID_INIT;
    }
    if !volume.valid || FlagUnused(flags) {
      return INVALID_VOL;
    }
    var response;
    rc, response := Rpc(c, "initiator_revoke",
      map["initiator" := initiator.encoded, "volume" := volume.encoded, "flags" := Num(flags)], reply);
  }

  /**
   * lsm_fs_delete: INVALID_FS, then INVALID_ARGUMENT, without a request;
   * otherwise one fs_delete request whose reply is sorted by jobCheck.
   */
  method FsDelete(c: Connection, fs: Handle, jobSlot: OutSlot, flags: nat, reply: Reply, copyOk: bool)
    returns (rc: int, job: Option<string>)
    modifies c`error, c`sent
    ensures !old(c.magic) ==> rc == INVALID_CONN && c.sent == old(c.sent) && c.error == old(c.error) && job == None
    ensures old(c.magic) && !fs.valid ==> rc == INVALID_FS && c.sent == old(c.sent) && c.error == None && job == None
    ensures old(c.magic) && fs.valid && (CheckRp(jobSlot) || FlagUnused(flags)) ==>
      rc == INVALID_ARGUMENT && c.sent == old(c.sent) && job == None && c.error == None
    ensures old(c.magic) && fs.valid && !CheckRp(jobSlot) && !FlagUnused(flags) ==>
      c.sent == old(c.sent) + [Request("fs_delete", map["fs" := fs.encoded, "flags" := Num(flags)])] &&
      JobOutcome(rc, job) == JobCheck(RpcCode(reply), RpcResponse(reply), copyOk) &&
      c.error == RpcLogged(reply)
  {
    job := None;
    var ok := ConnSetup(c);
    if !ok {
      return INVALID_CONN, job;
    }
    if !fs.valid {
      return INVALID_FS, job;
    }
    if CheckRp(jobSlot) || FlagUnused(flags) {
      return INVALID_ARGUMENT, job;
    }
    var response;
    rc, response := Rpc(c, "fs_delete", map["fs" := fs.encoded, "flags" := Num(flags)], reply);
    if rc == OK && response.Str? {
      if copyOk {
        job := Some(response.s);
        rc := JOB_STARTED;
      } else {
        rc := NO_MEMORY;
      }
    }
  }

  /**
   * lsm_volume_child_dependency: *yes is cleared before the request and set to 1
   * only for a true reply; a reply that is not a boolean gives INTERNAL_ERROR
   * without logging anything of its own. `yes` is None while *yes is unwritten.
   */
  method VolumeChildDependency(c: Connection, volume: Handle, yesPtr: bool, flags: nat, reply: Reply)
    returns (rc: int, yes: Option<int>)
    modifies c`error, c`sent
    ensures !old(c.magic) ==> rc == INVALID_CONN && c.sent == old(c.sent) && c.error == old(c.error) && yes == None
    ensures old(c.magic) && !volume.valid ==> rc == INVALID_VOL && c.sent == old(c.sent) && c.error == None && yes == None
    ensures old(c.magic) && volume.valid && (!yesPtr || FlagUnused(flags)) ==>
      rc == INVALID_ARGUMENT && c.sent == old(c.sent) && yes == None && c.error == None
    ensures old(c.magic) && volume.valid && yesPtr && !FlagUnused(flags) ==>
      c.sent == old(c.sent) + [Request("volume_child_dependency",
        map["volume" := volume.encoded, "flags" := Num(flags)])] &&
      c.error == RpcLogged(reply) &&
      rc == (if RpcCode(reply) == OK && !RpcResponse(reply).Bool? then INTERNAL_ERROR else RpcCode(reply)) &&
      yes == Some(if rc == OK && RpcResponse(reply).b then 1 else 0)
  {
    yes := None;
    var ok := ConnSetup(c);
    if !ok {
      return INVALID_CONN, yes;
    }
    if !volume.valid {
      return INVALID_VOL, yes;
    }
    if !yesPtr || FlagUnused(flags) {
      return INVALID_ARGUMENT, yes;
    }
    yes := Some(0);
    var response;
    rc, response := Rpc(c, "volume_child_dependency", map["volume" := volume.encoded, "flags" := Num(flags)], reply);
    if rc == OK {
      if response.Bool? {
        if response.b {
          yes := Some(1);
        }
      } else {
        rc := INTERNAL_ERROR;
      }
    }
  }

  /** A string list argument: absent (NULL), without its magic, or a list of strings. */
  datatype StringListArg = NoList | BadList | List(items: seq<string>)

  /** string_list_to_value: NULL is null, a list is an array of strings. */
  function StringListValue(l: StringListArg): Value
  {
    if l.List? then Arr(seq(|l.items|, i requires 0 <= i < |l.items| => Str(l.items[i]))) else Null
  }

  /** The code lsm_nfs_export_fs returns without a request, if any. */
  function NfsExportArgsCode(fsId: Option<string>, rootList: StringListArg, rwList: StringListArg,
                             roList: StringListArg, exportedSlot: OutSlot, flags: nat): (r: Option<int>)
    ensures rootList.BadList? || rwList.BadList? || roList.BadList? ==> r == Some(INVALID_SL)
    ensures r.None? <==>
      !rootList.BadList? && !rwList.BadList? && !roList.BadList? &&
      fsId.Some? && |fsId.value| > 0 && exportedSlot == Empty && flags == 0 &&
      (rootList.List? || rwList.List? || roList.List?)
    ensures r.Some? ==> r.value in {INVALID_SL, INVALID_ARGUMENT}
    ensures r.Some? && !rootList.BadList? && !rwList.BadList? && !roList.BadList? ==> r == Some(INVALID_ARGUMENT)
  {
    if rootList.BadList? || rwList.BadList? || roList.BadList? then Some(INVALID_SL)
    else if CheckStr(fsId) || CheckRp(exportedSlot) || !(rootList.List? || rwList.List? || roList.List?) ||
            FlagUnused(flags) then
      Some(INVALID_ARGUMENT)
    else None
  }

  /** The request lsm_nfs_export_fs sends. */
  function ExportRequest(fsId: string, exportPath: Option<string>, rootList: StringListArg,
                         rwList: StringListArg, roList: StringListArg, anonUid: nat, anonGid: nat,
                         authType: Option<string>, options: Option<string>, flags: nat): Request
  {
    Request("export_fs",
      map["fs_id" := Str(fsId), "export_path" := StrArg(exportPath),
          "root_list" := StringListValue(rootList), "rw_list" := StringListValue(rwList),
          "ro_list" := StringListValue(roList), "anon_uid" := Num(anonUid), "anon_gid" := Num(anonGid),
          "auth_type" := StrArg(authType), "options" := StrArg(options), "flags" := Num(flags)])
  }

  /**
   * lsm_nfs_export_fs: every present list must carry its magic (INVALID_SL), then
   * the file system id must be a non-empty string, the out pointer usable, at
   * least one list present and no reserved flag set (INVALID_ARGUMENT). An object
   * reply is decoded by `conv` into *exported.
   */
  method NfsExportFs<R>(c: Connection, fsId: Option<string>, exportPath: Option<string>,
                        rootList: StringListArg, rwList: StringListArg, roList: StringListArg,
                        anonUid: nat, anonGid: nat, authType: Option<string>, options: Option<string>,
                        exportedSlot: OutSlot, flags: nat, reply: Reply, conv: Value -> R)
    returns (rc: int, exported: Option<R>)
    modifies c`error, c`sent
    ensures !old(c.magic) ==> rc == INVALID_CONN && c.sent == old(c.sent) && c.error == old(c.error) && exported == None
    ensures old(c.magic) && NfsExportArgsCode(fsId, rootList, rwList, roList, exportedSlot, flags).Some? ==>
      rc == NfsExportArgsCode(fsId, rootList, rwList, roList, exportedSlot, flags).value &&
      c.sent == old(c.sent) && exported == None && c.error == None
    ensures old(c.magic) && NfsExportArgsCode(fsId, rootList, rwList, roList, exportedSlot, flags).None? ==>
      c.sent == old(c.sent) +
        [ExportRequest(fsId.value, exportPath, rootList, rwList, roList, anonUid, anonGid, authType, options, flags)] &&
      rc == RpcCode(reply) && c.error == RpcLogged(reply) &&
      exported == (if rc == OK && RpcResponse(reply).Obj? then Some(conv(RpcResponse(reply))) else None)
  {
    exported := None;
    var ok := ConnSetup(c);
    if !ok {
      return INVALID_CONN, exported;
    }
    var bad := NfsExportArgsCode(fsId, rootList, rwList, roList, exportedSlot, flags);
    if bad.Some? {
      return bad.value, exported;
    }
    var req := ExportRequest(fsId.value, exportPath, rootList, rwList, roList, anonUid, anonGid,
                             authType, options, flags);
    var response;
    rc, response := Rpc(c, req.name, req.params, reply);
    if rc == OK && response.Obj? {
      exported := Some(conv(response));
    }
  }

  /**
   * Decoding a reply array into records, stopping at the first converter error:
   * either every element decodes, or the error is the one of the first element
   * that does not.
   */
  function DecodeEach<R>(items: seq<Value>, conv: Decoder<R>): (r: Result<seq<R>, string>)
    ensures r.Ok? <==> forall i :: 0 <= i < |items| ==> conv(items[i]).Ok?
    ensures r.Ok? ==> |r.value| == |items| && forall i :: 0 <= i < |items| ==> conv(items[i]) == Ok(r.value[i])
    ensures r.Err? ==>
      exists i :: 0 <= i < |items| && conv(items[i]) == Err(r.error) &&
        forall j :: 0 <= j < i ==> conv(items[j]).Ok?
  {
    if |items| == 0 then Ok([])
    else
      match conv(items[0])
      case Err(e) => Err(e)
      case Ok(x) =>
        match DecodeEach(items[1..], conv)
        case Ok(rest) => Ok([x] + rest)
        case Err(e) =>
          assert forall i :: 1 <= i < |items| ==> items[i] == items[1..][i - 1];
          Err(e)
  }

  /**
   * The loop that fills a freshly allocated (all NULL) record array. It stops at
   * the first element the converter refuses and reports that element's error;
   * when none is refused, slot i holds the record decoded from element i.
   */
  method DecodeAll<R>(items: seq<Value>, conv: Decoder<R>) returns (failure: Option<string>, arr: array<Option<R>>)
    ensures arr.Length == |items|
    ensures failure.None? <==> DecodeEach(items, conv).Ok?
    ensures failure.Some? ==> failure.value == DecodeEach(items, conv).error
    ensures failure.None? ==> forall i :: 0 <= i < |items| ==> arr[i] == Some(DecodeEach(items, conv).value[i])
  {
    arr := new Option<R>[|items|](_ => None);
    failure := None;
    var i := 0;
    while i < |items|
      invariant 0 <= i <= |items|
      invariant forall j :: 0 <= j < i ==> conv(items[j]).Ok? && arr[j] == Some(conv(items[j]).value)
    {
      var d := conv(items[i]);
      if d.Err? {
        failure := Some(d.error);
        return;
      }
      arr[i] := Some(d.value);
      i := i + 1;
    }
  }

  /**
   * What a list call leaves: the code, the records handed back in the caller's
   * array (None: the array pointer is not set), the count, and the error the
   * decoder logs (None: the connection keeps rpc's error).
   */
  datatype ListOutcome<R> = ListOutcome(rc: int, records: Option<seq<R>>, count: int, logged: Option<LsmError>)

  /**
   * Filling a record array from a reply once the call succeeded with an array of
   * `items`: an empty array sets the count only, a failed allocation gives
   * NO_MEMORY (the count already set), and a converter error frees the array,
   * zeroes the count and logs INTERNAL_ERROR.
   */
  function FillRecords<R>(items: seq<Value>, conv: Decoder<R>, allocOk: bool): (o: ListOutcome<R>)
    ensures o.rc == OK <==> |items| == 0 || (allocOk && DecodeEach(items, conv).Ok?)
    ensures o.records.Some? <==> o.rc == OK && |items| > 0
    ensures o.records.Some? ==>
      |o.records.value| == |items| && o.count == |items| &&
      forall i :: 0 <= i < |items| ==> conv(items[i]) == Ok(o.records.value[i])
    ensures o.logged.Some? <==> o.rc == INTERNAL_ERROR
    ensures o.rc == INTERNAL_ERROR ==> o.count == 0 && o.records == None
    ensures o.rc == NO_MEMORY ==> o.count == |items| && o.logged == None
    ensures |items| == 0 ==> o == ListOutcome(OK, None, 0, None)
    ensures |items| > 0 && !allocOk ==> o.rc == NO_MEMORY
    ensures |items| > 0 && allocOk && DecodeEach(items, conv).Err? ==>
      o.rc == INTERNAL_ERROR && o.logged == UnexpectedType(DecodeEach(items, conv).error)
  {
    if |items| == 0 then ListOutcome(OK, None, 0, None)
    else if !allocOk then ListOutcome(NO_MEMORY, None, |items|, None)
    else
      match DecodeEach(items, conv)
      case Ok(recs) => ListOutcome(OK, Some(recs), |items|, None)
      case Err(e) => ListOutcome(INTERNAL_ERROR, None, 0, UnexpectedType(e))
  }

  /** The records as the caller's array of record pointers. */
  function Present<R>(s: seq<R>): (r: seq<Option<R>>)
    ensures |r| == |s| && forall i :: 0 <= i < |s| ==> r[i] == Some(s[i])
  {
    seq(|s|, i requires 0 <= i < |s| => Some(s[i]))
  }

  /** Fill a record array from a successful array reply (the shared tail of the list calls). */
  method Fill<R>(c: Connection, items: seq<Value>, conv: Decoder<R>, allocOk: bool)
    returns (rc: int, records: array?<Option<R>>, count: int)
    modifies c`error
    ensures var o := FillRecords(items, conv, allocOk);
      rc == o.rc && count == o.count && (records == null <==> o.records.None?) &&
      (records != null ==> records[..] == Present(o.records.value)) &&
      c.error == (if o.logged.Some? && c.magic then o.logged else old(c.error))
  {
    records, count := null, |items|;
    rc := OK;
    if |items| == 0 {
      count := 0;
      return;
    }
    if !allocOk {
      return NO_MEMORY, null, count;
    }
    var failure, arr := DecodeAll(items, conv);
    if failure.Some? {
      rc := LogException(c, INTERNAL_ERROR, "Unexpected type", Some(failure.value));
      return rc, null, 0;
    }
    records := arr;
  }

  /**
   * lsm_pool_list: the array out pointer must be usable and the count pointer
   * present. The count is written only for an array reply; its array is filled by
   * the record loop (the allocation is not checked in this call).
   */
  method PoolList<R>(c: Connection, arraySlot: OutSlot, countPtr: bool, countIn: int, flags: nat,
                     reply: Reply, conv: Decoder<R>)
    returns (rc: int, pools: array?<Option<R>>, count: int)
    modifies c`error, c`sent
    ensures !old(c.magic) ==> rc == INVALID_CONN && c.sent == old(c.sent) && c.error == old(c.error) && pools == null && count == countIn
    ensures old(c.magic) && (CheckRp(arraySlot) || !countPtr || FlagUnused(flags)) ==>
      rc == INVALID_ARGUMENT && c.sent == old(c.sent) && pools == null && count == countIn && c.error == None
    ensures old(c.magic) && !CheckRp(arraySlot) && countPtr && !FlagUnused(flags) ==>
      c.sent == old(c.sent) + [Request("pools", map["flags" := Num(flags)])] &&
      if RpcCode(reply) == OK && RpcResponse(reply).Arr? then
        var o := FillRecords(RpcResponse(reply).items, conv, true);
        rc == o.rc && count == o.count && (pools == null <==> o.records.None?) &&
        (pools != null ==> pools[..] == Present(o.records.value)) &&
        c.error == (if o.logged.Some? then o.logged else RpcLogged(reply))
      else
        rc == RpcCode(reply) && pools == null && count == countIn && c.error == RpcLogged(reply)
  {
    pools, count := null, countIn;
    var ok := ConnSetup(c);
    if !ok {
      return INVALID_CONN, pools, count;
    }
    if CheckRp(arraySlot) || !countPtr || FlagUnused(flags) {
      return INVALID_ARGUMENT, pools, count;
    }
    var response;
    rc, response := Rpc(c, "pools", map["flags" := Num(flags)], reply);
    if rc == OK && response.Arr? {
      rc, pools, count := Fill(c, response.items, conv, true);
    }
  }

  /**
   * get_initiator_array: the count is zeroed first, then, for a successful call
   * with an array reply, the array is filled as FillRecords says.
   */
  method GetInitiatorArray<R>(c: Connection, rcIn: int, response: Value, allocOk: bool, conv: Decoder<R>)
    returns (rc: int, initiators: array?<Option<R>>, count: int)
    requires c.magic
    modifies c`error
    ensures rcIn == OK && response.Arr? ==>
      var o := FillRecords(response.items, conv, allocOk);
      rc == o.rc && count == o.count && (initiators == null <==> o.records.None?) &&
      (initiators != null ==> initiators[..] == Present(o.records.value)) &&
      c.error == (if o.logged.Some? then o.logged else old(c.error))
    ensures !(rcIn == OK && response.Arr?) ==>
      rc == rcIn && initiators == null && count == 0 && c.error == old(c.error)
  {
    initiators, count := null, 0;
    rc := rcIn;
    if rcIn == OK && response.Arr? {
      rc, initiators, count := Fill(c, response.items, conv, allocOk);
    }
  }

  /**
   * lsm_system_list: only the presence of both pointers is checked (an array out
   * pointer that already holds a value is accepted); otherwise as the pool list,
   * with the array allocation checked.
   */
  method SystemList<R>(c: Connection, arraySlot: OutSlot, countPtr: bool, countIn: int, flags: nat,
                       reply: Reply, allocOk: bool, conv: Decoder<R>)
    returns (rc: int, systems: array?<Option<R>>, count: int)
    modifies c`error, c`sent
    ensures !old(c.magic) ==> rc == INVALID_CONN && c.sent == old(c.sent) && c.error == old(c.error) && systems == null && count == countIn
    ensures old(c.magic) && (arraySlot.NullPtr? || !countPtr || FlagUnused(flags)) ==>
      rc == INVALID_ARGUMENT && c.sent == old(c.sent) && systems == null && count == countIn && c.error == None
    ensures old(c.magic) && !arraySlot.NullPtr? && countPtr && !FlagUnused(flags) ==>
      c.sent == old(c.sent) + [Request("systems", map["flags" := Num(flags)])] &&
      if RpcCode(reply) == OK && RpcResponse(reply).Arr? then
        var o := FillRecords(RpcResponse(reply).items, conv, allocOk);
        rc == o.rc && count == o.count && (systems == null <==> o.records.None?) &&
        (systems != null ==> systems[..] == Present(o.records.value)) &&
        c.error == (if o.logged.Some? then o.logged else RpcLogged(reply))
      else
        rc == RpcCode(reply) && systems == null && count == countIn && c.error == RpcLogged(reply)
  {
    systems, count := null, countIn;
    var ok := ConnSetup(c);
    if !ok {
      return INVALID_CONN, systems, count;
    }
    if arraySlot.NullPtr? || !countPtr || FlagUnused(flags) {
      return INVALID_ARGUMENT, systems, count;
    }
    var response;
    rc, response := Rpc(c, "systems", map["flags" := Num(flags)], reply);
    if rc == OK && response.Arr? {
      rc, systems, count := Fill(c, response.items, conv, allocOk);
    }
  }
}
