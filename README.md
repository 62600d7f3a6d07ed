# libstoragemgmt client core in Dafny

This project models two parts of the libstoragemgmt client library and proves
properties about them.

- **The C client call substrate** (`c_binding/lsm_mgmt.cpp`). Every public call
  follows the same steps:
  - validate the connection handle and clear its last error (`CONN_SETUP`);
  - check its arguments with no request sent;
  - send one request through `rpc`, which turns the transport's exceptions into
    error codes and logs them on the connection;
  - sort the reply into "job started" or "immediate result" (`jobCheck`,
    `parse_job_response`), poll jobs (`jobStatus` and the typed
    `lsm_job_status_*_get` getters), or decode record arrays (the list calls).

  The connection is a class. Its `error` field is the connection's last error.
  A ghost `sent` log records every request `rpc` sends, so "no request is made"
  can be stated as `c.sent == old(c.sent)`. The backend's reply is an input
  (`Reply`). So are directory entries, allocation outcomes and record
  converters. Connection set-up and tear-down, plugin discovery and
  `lsm_job_free` are modelled too.
- **The Python data model** (`lsm/lsm/data.py`):
  - the record classes and their constructors, with their defaulting;
  - `IData.toDict` / `IData.factory`;
  - the recursive `DataDecoder` walk;
  - the `Volume` string-to-enum conversions and `size_bytes`;
  - the `Capabilities` byte table, with its base16 serialisation (section 8 of
    RFC 4648) and its in-place `set` / `enable_all`.

Modules:

| module | file | contents |
|---|---|---|
| `Wrappers` | wrappers.dfy | `Option`, `Result` |
| `LsmErrors` | lsm_errors.dfy | the `LSM_ERR_*` codes used |
| `LsmValue` | lsm_value.dfy | the dynamic `Value` the transport carries |
| `LsmConnection` | lsm_connection.dfy | connection class, `CONN_SETUP`, error logging, `rpc`, connect / close |
| `LsmJobs` | lsm_jobs.dfy | `jobCheck`, `parse_job_response`, `jobStatus`, typed getters, `lsm_job_free` |
| `LsmOps` | lsm_ops.dfy | pool/volume/fs/export calls, enum checks, list decoding |
| `LsmDiscovery` | lsm_discovery.dfy | `lsm_available_plugins_list` |
| `Base16` | hex.dfy | lowercase hexadecimal encoding and decoding |
| `PyData` | py_data.dfy | Python values, record constructors, toDict / factory, DataDecoder, Volume |
| `PyCapabilities` | capabilities.dfy | the `Capabilities` table as a class over an array |

## Model

| member | source | states |
|---|---|---|
| LsmValue.AsInt32 | c_binding/lsm_mgmt.cpp:421 | a value reads as a signed 32-bit integer exactly when it is a number in [-2^31, 2^31), and reads as that number |
| LsmValue.AsUint32 | c_binding/lsm_mgmt.cpp:422 | a value reads as an unsigned 32-bit integer exactly when it is a number in [0, 2^32) |
| LsmConnection.ConnSetup | c_binding/lsm_mgmt.cpp:35-41 | a bad handle is reported and nothing changes; a good one has its stored error cleared |
| LsmConnection.LogError | c_binding/lsm_mgmt.cpp:96-113 | on a valid connection the new error replaces whatever was stored; on an invalid one INVALID_CONN and nothing changes |
| LsmConnection.LogException | c_binding/lsm_mgmt.cpp:115-126 | returns the code it was given and stores an error with that code, message and exception text |
| LsmConnection.RpcLogsExactlyFailures | c_binding/lsm_mgmt.cpp:128-147 | an error is logged exactly when the transport raised, and its code is the code rpc returns |
| LsmConnection.RpcOkCases | c_binding/lsm_mgmt.cpp:128-147 | rpc returns OK only for a normal reply or an LsmException carrying OK; in the latter case the response is null and an error is still logged |
| LsmConnection.Rpc | c_binding/lsm_mgmt.cpp:128-147 | one request is sent; ValueException gives TRANSPORT_SERIALIZATION, LsmException its own code, EOF TRANSPORT_COMMUNICATION, anything else INTERNAL_ERROR, each with exactly one logged error; a normal reply gives OK, the response, and an untouched error |
| LsmConnection.ConnectPassword | c_binding/lsm_mgmt.cpp:55-94 | bad arguments give INVALID_ARGUMENT, a URI without scheme INVALID_URI, a failed allocation NO_MEMORY, else the plugin load code; on any non-OK code the partly built connection is freed and the caller gets none |
| LsmConnection.ConnectClose | c_binding/lsm_mgmt.cpp:187-206 | after the argument checks, the shutdown request is sent and the connection is freed whatever it returned, and that code is returned |
| LsmJobs.JobCheck | c_binding/lsm_mgmt.cpp:149-171 | a job id is handed out exactly for a successful string reply whose copy succeeds, with JOB_STARTED; a non-string reply keeps OK with no id; a failed copy gives NO_MEMORY; a failed call passes through |
| LsmJobs.JobCheckDuality | c_binding/lsm_mgmt.cpp:152-165 | after a successful call, an id is held exactly when the code is JOB_STARTED, and the code is one of OK, JOB_STARTED, NO_MEMORY |
| LsmJobs.ParsedJob | c_binding/lsm_mgmt.cpp:795-825 | a non-array reply changes nothing; an id comes only from a string first element with JOB_STARTED; a record only from an object second element that decodes; a converter error logs INTERNAL_ERROR and drops id and record |
| LsmJobs.ParsedJobShape | c_binding/lsm_mgmt.cpp:802-816 | without a converter error: id iff string first element and copy succeeds, JOB_STARTED iff string first element, record iff object second element |
| LsmJobs.ParsedJobStartedWithoutId | c_binding/lsm_mgmt.cpp:805-812 | a failed copy of the id still reports JOB_STARTED, with no id |
| LsmJobs.ParsedJobBoth | c_binding/lsm_mgmt.cpp:804-816 | a reply [id, object] yields both a job id and a record |
| LsmJobs.ParseJobResponse | c_binding/lsm_mgmt.cpp:795-825 | the method writes rc, *job and the record as ParsedJob says and logs its error, if any |
| LsmJobs.StatusCall | c_binding/lsm_mgmt.cpp:410-430 | a successful call succeeds exactly for an array of a signed 32-bit status and an unsigned 32-bit percentage, and then writes the status, the percentage truncated to 8 bits and the value; any other reply logs INTERNAL_ERROR with the type-mismatch text; the status is kept when only the percentage fails; a failed call keeps rpc's code and error |
| LsmJobs.JobStatus | c_binding/lsm_mgmt.cpp:399-431 | INVALID_CONN on a bad handle, INVALID_ARGUMENT with no request for a missing id or out pointer, else one job_status request whose outcome is StatusCall |
| LsmJobs.JobStatusGet | c_binding/lsm_mgmt.cpp:433-445 | reserved flags are refused before jobStatus runs; otherwise jobStatus's outcome |
| LsmJobs.TypedStatusCall | c_binding/lsm_mgmt.cpp:461-475 | after a successful poll the value is decoded only when it is an object; a non-object clears the record; a converter error gives INTERNAL_ERROR and logs its text |
| LsmJobs.JobStatusPoolGet | c_binding/lsm_mgmt.cpp:447-477 | the handle is checked first, then the out pointer and flags with no request, then the typed poll |
| LsmJobs.JobStatusFsGet | c_binding/lsm_mgmt.cpp:510-537 | the out pointer and flags are checked before the handle, then the typed poll |
| LsmJobs.TypedPoll | c_binding/lsm_mgmt.cpp:461-475 | jobStatus followed by the typed decode, as TypedStatusCall says |
| LsmJobs.JobFree | c_binding/lsm_mgmt.cpp:568-590 | a NULL job pointer, an empty id or reserved flags give INVALID_ARGUMENT with no request; otherwise the caller's id is cleared exactly when job_free returns OK |
| LsmOps.ValidPoolRaidType | c_binding/lsm_mgmt.cpp:827-851 | a RAID type is accepted exactly when it is one of the 16 listed |
| LsmOps.ValidPoolMemberType | c_binding/lsm_mgmt.cpp:853-876 | a member type is accepted exactly when it is one of the 15 listed |
| LsmOps.JobCall | c_binding/lsm_mgmt.cpp:908-912 | a failed call keeps rpc's code and error and yields nothing; an id or record exists only for an array reply; OK never comes with an id |
| LsmOps.PoolCreateRefusals | c_binding/lsm_mgmt.cpp:890-895 | an empty name, zero size, an unlisted RAID type or an unlisted member type each give INVALID_ARGUMENT; passing means all the rules hold |
| LsmOps.PoolCreate | c_binding/lsm_mgmt.cpp:878-914 | INVALID_CONN, INVALID_SYSTEM, INVALID_ARGUMENT are returned in that order with no request; otherwise one pool_create request, sorted by parse_job_response |
| LsmOps.SameSizeWindow | c_binding/lsm_mgmt.cpp:1133-1135 | the same-size rule refuses exactly the sizes in [blocks*bs, (blocks+1)*bs), so growing by less than a block is refused too |
| LsmOps.VolumeResize | c_binding/lsm_mgmt.cpp:1117-1151 | INVALID_CONN, INVALID_VOL, INVALID_ARGUMENT (zero size, out pointers, flags), then VOLUME_SAME_SIZE, all without a request; otherwise one volume_resize request, sorted by parse_job_response |
| LsmOps.InitiatorRevoke | c_binding/lsm_mgmt.cpp:1363-1385 | a bad initiator gives INVALID_INIT; a bad volume or reserved flags give INVALID_VOL; otherwise the code of one request |
| LsmOps.FsDelete | c_binding/lsm_mgmt.cpp:1931-1952 | INVALID_FS, then INVALID_ARGUMENT, with no request; otherwise the fs_delete reply sorted by jobCheck |
| LsmOps.VolumeChildDependency | c_binding/lsm_mgmt.cpp:1735-1775 | *yes is cleared before the request and set only for a true reply; a non-boolean reply gives INTERNAL_ERROR |
| LsmOps.NfsExportArgsCode | c_binding/lsm_mgmt.cpp:2354-2375 | a list without its magic gives INVALID_SL before any other rule, and with every list valid a failing rule gives INVALID_ARGUMENT; the call goes ahead exactly when the id is non-empty, the out pointer usable, some list present and no flag set |
| LsmOps.NfsExportFs | c_binding/lsm_mgmt.cpp:2338-2398 | argument codes with no request; otherwise one export_fs request with every parameter, and *exported is set only for an object reply |
| LsmOps.DecodeEach | c_binding/lsm_mgmt.cpp:686-688 | the decoding succeeds iff every element decodes, and then holds each element's record in order; on failure the error is that of the first element that fails |
| LsmOps.DecodeAll | c_binding/lsm_mgmt.cpp:683-688 | the loop fills slot i with element i's record, or stops with the first converter error, as DecodeEach says |
| LsmOps.FillRecords | c_binding/lsm_mgmt.cpp:676-703 | an empty reply gives OK with count 0 and no array; a failed allocation gives NO_MEMORY and keeps the count; a converter error gives INTERNAL_ERROR, zeroes the count and logs the first failure's text; otherwise OK with every element's record, in order |
| LsmOps.Fill | c_binding/lsm_mgmt.cpp:676-703 | the array and count the method leaves are FillRecords's |
| LsmOps.PoolList | c_binding/lsm_mgmt.cpp:628-668 | argument checks with no request; the count is written only for an array reply, whose records fill the array |
| LsmOps.GetInitiatorArray | c_binding/lsm_mgmt.cpp:670-705 | the count is zeroed first; a successful array reply is filled as FillRecords says; anything else leaves no array |
| LsmOps.SystemList | c_binding/lsm_mgmt.cpp:1801-1850 | only a NULL array pointer is refused; otherwise as the pool list, with the allocation checked |
| LsmDiscovery.Scan | c_binding/lsm_mgmt.cpp:279-321 | the scan only appends to the list it started with, at most one string per entry |
| LsmDiscovery.DescribedAt | c_binding/lsm_mgmt.cpp:294-305 | the i-th string is entry i's description, separator and version |
| LsmDiscovery.ScanOnlySockets | c_binding/lsm_mgmt.cpp:285-286 | entries that are not sockets do not change the scan |
| LsmDiscovery.ScanStopsAtLoadFailure | c_binding/lsm_mgmt.cpp:313-315 | a socket that fails to load ends the scan: what follows it is never looked at |
| LsmDiscovery.ScanLoadFailure | c_binding/lsm_mgmt.cpp:289-321 | a socket that fails to load leaves a code that is not OK, whatever the sockets before it answered |
| LsmDiscovery.ScanNoSockets | c_binding/lsm_mgmt.cpp:279-286 | entries that are not sockets leave the code and the list unchanged |
| LsmDiscovery.ScanLastInfoFailure | c_binding/lsm_mgmt.cpp:289-321 | when the last socket loads but its information query fails, the scan ends with a code that is not OK |
| LsmDiscovery.ScanAnswering | c_binding/lsm_mgmt.cpp:279-321 | when no socket fails to load, the list is exactly the answering sockets' strings, in directory order; a socket whose information query fails adds nothing |
| LsmDiscovery.ScanAllAnswer | c_binding/lsm_mgmt.cpp:279-321 | when every socket answers, the list is exactly the sockets' strings, in directory order |
| LsmDiscovery.AvailablePluginsList | c_binding/lsm_mgmt.cpp:253-352 | argument errors, NO_MEMORY, INTERNAL_ERROR for an unreadable directory or failed close; otherwise the scan's code, and the list is handed back iff the code is OK; a socket that fails to load, or a last socket whose information query fails, discards the whole list; when every socket loads, a list handed back holds exactly the answering sockets' strings |
| Base16.Digit | lsm/lsm/data.py:361 | a nibble is written as one lowercase hexadecimal digit |
| Base16.HexEncode | lsm/lsm/data.py:359-362 | two lowercase hexadecimal digits per byte |
| Base16.HexDecode | lsm/lsm/data.py:366 | decoding gives half as many bytes as digits, and an odd length fails |
| Base16.DecodeEncode | lsm/lsm/data.py:359-366 | decoding the encoding of a table gives the table back |
| Base16.EncodeDecode | lsm/lsm/data.py:359-366 | re-encoding what decodes gives the same text in lowercase |
| PyData.ClassNamed | lsm/lsm/data.py:115-118 | a name found in the registry is that class's own name |
| PyData.ClassNameRoundTrip | lsm/lsm/data.py:93-120 | the name toDict writes finds the same class again |
| PyData.Strip | lsm/lsm/data.py:249 | stripping int()'s whitespace leaves no whitespace at either end |
| PyData.DigitsValue | lsm/lsm/data.py:249 | only a non-empty run of decimal digits has a value |
| PyData.ParseDecimal | lsm/lsm/data.py:249 | int() reads back any integer written in decimal, with or without a minus sign |
| Base16.DecodableIsAscii | lsm/lsm/data.py:364-368 | only ASCII text decodes as base16, so refusing non-ASCII text first never rejects a valid table |
| PyData.InitCap | lsm/lsm/data.py:364-368 | no argument gives 512 zero bytes; text gives its base16 decoding, which re-encodes to the text in lowercase; text with a character outside ASCII is a ValueError (UnicodeEncodeError), other text that is not base16 a TypeError, and a non-text an AttributeError |
| PyData.Construct | lsm/lsm/data.py:129-283 | unexpected or missing keywords are a TypeError; Volume, System, Pool, FileSystem and BlockRange store their keywords as given; Snapshot stores int(ts) or raises int()'s error; NfsExport fails exactly when fs_id or export_path is None; a record's attributes are exactly its parameters; Initiator's false name becomes "Unsupported" and a name without a length is a TypeError; AccessGroup defaults system_id to 'NA' |
| PyData.ConstructIdempotent | lsm/lsm/data.py:136-283 | building a record again from its own attributes gives the same record |
| PyData.ToDict | lsm/lsm/data.py:93-107 | 'class' is the class name; every attribute is kept, a record attribute turned into its own dictionary; Capabilities writes its table as base16 text |
| PyData.Factory | lsm/lsm/data.py:110-120 | no 'class' key gives None; a non-text or unknown class name fails; otherwise the named class is built from the other keys |
| PyData.FactoryInPlace | lsm/lsm/data.py:110-120 | the result is Factory's, and 'class' is deleted from the caller's dictionary |
| PyData.ToDictFlat | lsm/lsm/data.py:93-107 | toDict of a record without record attributes is its attributes plus the class tag |
| PyData.FactoryToDictCaps | lsm/lsm/data.py:359-368 | toDict then factory gives a capability table back |
| PyData.FactoryToDict | lsm/lsm/data.py:93-120 | toDict then factory gives back the record a constructor made, when no attribute is a record |
| PyData.DecodeFixesDecoded | lsm/lsm/data.py:39-78 | the decoder leaves a value with no 'class' dictionary outside records unchanged |
| PyData.DecodeYieldsDecoded | lsm/lsm/data.py:39-78 | every 'class' dictionary the decoder reaches becomes a record |
| PyData.DecodeIdempotent | lsm/lsm/data.py:39-78 | decoding twice is decoding once |
| PyData.ClassFreeIsDecoded | lsm/lsm/data.py:45-78 | a value without any 'class' dictionary decodes to itself |
| PyData.ProvStringToType | lsm/lsm/data.py:164-173 | total; a known result comes only from its own name, anything else is PROVISION_UNKNOWN |
| PyData.ProvRoundTrip | lsm/lsm/data.py:164-173 | each provisioning type is read back from its name |
| PyData.RepStringToType | lsm/lsm/data.py:175-188 | total; a known result comes only from its own name, anything else is REPLICATE_UNKNOWN |
| PyData.RepRoundTrip | lsm/lsm/data.py:175-188 | each replication type is read back from its name |
| PyData.AccessStringToType | lsm/lsm/data.py:193-198 | read-write exactly for "RW", read-only otherwise, never ACCESS_NONE |
| PyData.SizeBytes | lsm/lsm/data.py:210-215 | a Volume's size is its block_size times its num_of_blocks; it is zero exactly when one of them is, and a positive block size divides it into exactly the block count |
| PyData.ConstructedSize | lsm/lsm/data.py:200-215 | a Volume built from integer keyword arguments reports their product as its size |
| PyCapabilities.IdRoundTrip | lsm/lsm/data.py:298-357 | every capability (with VOLUME_COPY_RANGE at 29) has its own entry inside the 512-byte table |
| PyCapabilities.IdInjective | lsm/lsm/data.py:298-357 | no two capabilities share an entry |
| PyCapabilities.CopyRangeCollision | lsm/lsm/data.py:313-325 | as written, VOLUME_COPY_RANGE and ACCESS_GROUP_CREATE share entry 39, so setting one sets the other, and no capability has entry 29 |
| PyCapabilities.PyIndex | lsm/lsm/data.py:373-376 | Python indexing: in range iff in [-n, n), negative indices count from the end |
| PyCapabilities.Lookup | lsm/lsm/data.py:370-373 | as written: UNKNOWN past the length, the entry below it, IndexError exactly at the length or below -n |
| PyCapabilities.GetAtLengthFails | lsm/lsm/data.py:371-373 | asking for entry len(cap) raises IndexError, where UNKNOWN was meant |
| PyCapabilities.LookupGuarded | lsm/lsm/data.py:370-373 | corrected: UNKNOWN at or past the length, so a non-negative index never raises |
| PyCapabilities.LookupsAgreeElsewhere | lsm/lsm/data.py:370-373 | the corrected lookup differs from the written one only at index len(cap) |
| PyCapabilities.CapabilityLookup | lsm/lsm/data.py:370-373 | every named capability of a full table is answered from its entry |
| PyCapabilities.Store | lsm/lsm/data.py:375-377 | an out-of-range index is an IndexError, checked before the value; a value outside [0, 256) is a ValueError; the length is kept |
| PyCapabilities.GetAfterSet | lsm/lsm/data.py:370-377 | after a set, get of that entry gives the value stored and every other entry is unchanged |
| PyCapabilities.Capabilities.New | lsm/lsm/data.py:364-368 | construction fails as InitCap does; otherwise a fresh table holding InitCap's bytes, 512 UNSUPPORTED entries without an argument |
| PyCapabilities.Capabilities.GetAsWritten | lsm/lsm/data.py:370-373 | get on the object's table answers as the written lookup, raising IndexError at the length |
| PyCapabilities.Capabilities.GetCorrected | lsm/lsm/data.py:370-373 | get on the object's table answers as the corrected lookup |
| PyCapabilities.Capabilities.Set | lsm/lsm/data.py:375-377 | the table becomes Store's result, or is left alone when Store raises |
| PyCapabilities.Capabilities.EnableAll | lsm/lsm/data.py:379-381 | every entry becomes SUPPORTED and the length is kept |
| PyCapabilities.Capabilities.ToDict | lsm/lsm/data.py:359-362 | the dictionary has exactly 'class' and 'cap', and 'cap' is text of twice the table's length that decodes back to the table |

## Left out

- The transport behind `c->tp->rpc` is not part of this model. Its outcome is the `Reply` input.
- Plugin loading is not part of this model (`driver_load`, `connection_get`, `connection_free`, `uds_path`). Each is an input success or failure, plus the connection's `freed` flag.
- URI parsing (`xmlParseURI`) is an input: whether the URI has a scheme.
- The directory API (`opendir` / `readdir` / `closedir`) is an input sequence of entries. Failing to close the directory is an input too.
- The record converters (`value_to_*`, `*_to_value`) are parameters: total decoders that may report a ValueException.
- Allocation failures are inputs where the code checks them (`strdup` of a job id, record arrays, the string list, the connection). Per-record allocation inside a converter, `lsm_error_create` inside `logException`, `asprintf` failures, list-append failures and `connection_get` failing inside discovery are not modelled.
- The manual `free` calls and memory ownership are not modelled; "freed" is a flag.
- The façade calls that only forward a parameter map are not modelled beyond the representative few above: for example `lsm_access_group_grant`, `online_offline`, the snapshot calls, and `lsm_job_status_volume_get` / `lsm_job_status_ss_get`, which are the pool and fs getters with another converter.
- Thread safety of a connection is not modelled; one caller per connection is assumed, as the code assumes.
- LsmJobs.ParsedJob: requires an array reply to have at least two items, because the source indexes `r[0]` and `r[1]` unchecked and a shorter array is undefined behaviour.
- LsmJobs.StatusCall: requires an array reply to have at least three items, for the same reason (`j[0]`, `j[1]`, `j[2]`).
- LsmJobs.JobFree: a non-NULL job pointer whose id is NULL, the state a successful `lsm_job_free` leaves behind, reaches `strlen(NULL)` in the source. That is undefined behaviour and is not modelled: `job` is either a NULL pointer (None) or a pointer to an id.
- LsmOps.VolumeResize: requires a valid volume to have a non-zero block size, because the source divides by it unchecked.
- LsmOps.NfsExportFs: the converter is total. An exception from `value_to_nfs_export` would escape the call, and that is not modelled.
- LsmOps.PoolList: the record array's allocation is taken to succeed. The source does not check it, and a failure would be a NULL dereference.
- LsmOps.ValidPoolRaidType: the counts of 16 RAID types and 15 member types are not stated as set cardinalities. Membership in the listed sets is stated instead.
- Counts are mathematical integers; the `uint32_t` truncation of a count is not modelled.
- LsmConnection.LogException: the allocation of the error record by `lsm_error_create` is taken to succeed, so an error is always stored. When it fails, the code only returns the error code and stores nothing.
- LsmConnection.Rpc: "exactly one logged error" on each exception path holds only when the error record's allocation succeeds, as LogException assumes.
- LsmConnection.LogError: the INVALID_ERR branch is not modelled. Every error the library logs is built by `lsm_error_create`, so it is always valid.
- The text of the Value class's type-mismatch exception (`TYPE_MISMATCH`) is left unspecified, since the Value class is not part of this model.
- Python `json.loads` and `DataDecoder.decode`'s parsing step are not modelled; the decoder starts from a parsed value.
- The class lookup `get_class` is a closed registry of the record classes in this file.
- Floating-point values are not part of `PyValue`.
- PyData.ParseDecimal: Python 2 `int()` accepts more than is modelled, such as a space after the sign and a trailing `L`. Only an optional sign and a digit run inside whitespace are modelled.
- PyData.ProcessDict: when several values of a dictionary fail to decode, which exception surfaces depends on dictionary order. The model picks any one of them.
- `IData.__str__` and `Volume.__str__` only format text and are not modelled.
- PyData.SizeBytes: only integer attributes are modelled. Python's `*` on other types, such as floats, or a string repeated by an integer, is left out.
- PyCapabilities.Store: only integer values are modelled. A one-character string assigned to a bytearray entry, and the TypeError for other types, are left out.

## Findings

| source | as written | input that shows it | evidently intended | confidence | as-written member | corrected member |
|---|---|---|---|---|---|---|
| lsm/lsm/data.py:370-373 | `get` answers UNKNOWN only when the index is greater than `len(self.cap)`, then indexes the table | `get(512)` on a fresh table raises IndexError | UNKNOWN for every index at or past the end (`>=`) | high; not executed | PyCapabilities.GetAtLengthFails | PyCapabilities.LookupGuarded |
| lsm/lsm/data.py:313 | `VOLUME_COPY_RANGE = 39`, the same entry as `ACCESS_GROUP_CREATE` (line 325) | `set(VOLUME_COPY_RANGE, SUPPORTED)` makes `get(ACCESS_GROUP_CREATE)` answer SUPPORTED | 29, between `VOLUME_COPY_RANGE_BLOCK_SIZE = 28` and `VOLUME_COPY_RANGE_CLONE = 30` | high; not executed | PyCapabilities.CopyRangeCollision | PyCapabilities.IdInjective |
