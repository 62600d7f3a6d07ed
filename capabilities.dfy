/**
 * The Capabilities record of the Python client: a table of 512 bytes, one per
 * capability, each saying whether the array supports that operation.
 */
module PyCapabilities {
  import opened Wrappers
  import opened Base16
  import PyData

  // What a table entry says about its capability.
  const UNSUPPORTED: byte := 0
  const SUPPORTED: byte := 1
  const SUPPORTED_OFFLINE: byte := 2
  const NOT_IMPLEMENTED: byte := 3
  const UNKNOWN: byte := 4

  /** The capabilities the table has an entry for. */
  datatype Capability =
    // array wide
    | BlockSupport
    | FsSupport
    // block operations
    | Volumes
    | VolumeCreate
    | VolumeResize
    | VolumeReplicate
    | VolumeReplicateClone
    | VolumeReplicateCopy
    | VolumeReplicateMirrorAsync
    | VolumeReplicateMirrorSync
    | VolumeCopyRangeBlockSize
    | VolumeCopyRange
    | VolumeCopyRangeClone
    | VolumeCopyRangeCopy
    | VolumeDelete
    | VolumeOnline
    | VolumeOffline
    | AccessGroupGrant
    | AccessGroupRevoke
    | AccessGroupList
    | AccessGroupCreate
    | AccessGroupDelete
    | AccessGroupAddInitiator
    | AccessGroupDelInitiator
    | VolumesAccessibleByAccessGroup
    | AccessGroupsGrantedToVolume
    | VolumeChildDependency
    | VolumeChildDependencyRm
    // file systems
    | Fs
    | FsDelete
    | FsResize
    | FsCreate
    | FsClone
    | FileClone
    | Snapshots
    | SnapshotCreate
    | SnapshotCreateSpecificFiles
    | SnapshotDelete
    | SnapshotRevert
    | SnapshotRevertSpecificFiles
    | FsChildDependency
    | FsChildDependencyRm
    | FsChildDependencyRmSpecificFiles
    // NFS
    | ExportAuth
    | Exports
    | ExportFs
    | ExportRemove

  /**
   * The table index of each capability. VolumeCopyRange sits at 29, between the
   * block-size entry (28) and the clone entry (30); the source writes 39 there,
   * which IdAsWritten keeps.
   */
  function Id(c: Capability): nat
  {
    match c
    case BlockSupport => 0
    case FsSupport => 1
    case Volumes => 20
    case VolumeCreate => 21
    case VolumeResize => 22
    case VolumeReplicate => 23
    case VolumeReplicateClone => 24
    case VolumeReplicateCopy => 25
    case VolumeReplicateMirrorAsync => 26
    case VolumeReplicateMirrorSync => 27
    case VolumeCopyRangeBlockSize => 28
    case VolumeCopyRange => 29
    case VolumeCopyRangeClone => 30
    case VolumeCopyRangeCopy => 31
    case VolumeDelete => 33
    case VolumeOnline => 34
    case VolumeOffline => 35
    case AccessGroupGrant => 36
    case AccessGroupRevoke => 37
    case AccessGroupList => 38
    case AccessGroupCreate => 39
    case AccessGroupDelete => 40
    case AccessGroupAddInitiator => 41
    case AccessGroupDelInitiator => 42
    case VolumesAccessibleByAccessGroup => 43
    case AccessGroupsGrantedToVolume => 44
    case VolumeChildDependency => 45
    case VolumeChildDependencyRm => 46
    case Fs => 100
    case FsDelete => 101
    case FsResize => 102
    case FsCreate => 103
    case FsClone => 104
    case FileClone => 105
    case Snapshots => 106
    case SnapshotCreate => 107
    case SnapshotCreateSpecificFiles => 108
    case SnapshotDelete => 109
    case SnapshotRevert => 110
    case SnapshotRevertSpecificFiles => 111
    case FsChildDependency => 112
    case FsChildDependencyRm => 113
    case FsChildDependencyRmSpecificFiles => 114
    case ExportAuth => 120
    case Exports => 121
    case ExportFs => 122
    case ExportRemove => 123
  }

  /** The capability a table index stands for, if any. */
  function CapabilityAt(n: int): (r: Option<Capability>)
    ensures r.Some? ==> 0 <= n < 124
  {
    match n
    case 0 => Some(BlockSupport)
    case 1 => Some(FsSupport)
    case 20 => Some(Volumes)
    case 21 => Some(VolumeCreate)
    case 22 => Some(VolumeResize)
    case 23 => Some(VolumeReplicate)
    case 24 => Some(VolumeReplicateClone)
    case 25 => Some(VolumeReplicateCopy)
    case 26 => Some(VolumeReplicateMirrorAsync)
    case 27 => Some(VolumeReplicateMirrorSync)
    case 28 => Some(VolumeCopyRangeBlockSize)
    case 29 => Some(VolumeCopyRange)
    case 30 => Some(VolumeCopyRangeClone)
    case 31 => Some(VolumeCopyRangeCopy)
    case 33 => Some(VolumeDelete)
    case 34 => Some(VolumeOnline)
    case 35 => Some(VolumeOffline)
    case 36 => Some(AccessGroupGrant)
    case 37 => Some(AccessGroupRevoke)
    case 38 => Some(AccessGroupList)
    case 39 => Some(AccessGroupCreate)
    case 40 => Some(AccessGroupDelete)
    case 41 => Some(AccessGroupAddInitiator)
    case 42 => Some(AccessGroupDelInitiator)
    case 43 => Some(VolumesAccessibleByAccessGroup)
    case 44 => Some(AccessGroupsGrantedToVolume)
    case 45 => Some(VolumeChildDependency)
    case 46 => Some(VolumeChildDependencyRm)
    case 100 => Some(Fs)
    case 101 => Some(FsDelete)
    case 102 => Some(FsResize)
    case 103 => Some(FsCreate)
    case 104 => Some(FsClone)
    case 105 => Some(FileClone)
    case 106 => Some(Snapshots)
    case 107 => Some(SnapshotCreate)
    case 108 => Some(SnapshotCreateSpecificFiles)
    case 109 => Some(SnapshotDelete)
    case 110 => Some(SnapshotRevert)
    case 111 => Some(SnapshotRevertSpecificFiles)
    case 112 => Some(FsChildDependency)
    case 113 => Some(FsChildDependencyRm)
    case 114 => Some(FsChildDependencyRmSpecificFiles)
    case 120 => Some(ExportAuth)
    case 121 => Some(Exports)
    case 122 => Some(ExportFs)
    case 123 => Some(ExportRemove)
    case _ => None
  }

  /** Every capability has its own entry, inside the table. */
  lemma IdRoundTrip(c: Capability)
    ensures CapabilityAt(Id(c)) == Some(c) && Id(c) < PyData.CAP_NUM
  {
  }

  /** No two capabilities share an entry. */
  lemma {:induction false} IdInjective(a: Capability, b: Capability)
    requires Id(a) == Id(b)
    ensures a == b
  {
    IdRoundTrip(a);
    IdRoundTrip(b);
  }

  /** The indices as the source writes them: VOLUME_COPY_RANGE is 39. */
  function IdAsWritten(c: Capability): (n: nat)
    ensures c != VolumeCopyRange ==> n == Id(c)
  {
    if c == VolumeCopyRange then 39 else Id(c)
  }

  /**
   * As written, VOLUME_COPY_RANGE and ACCESS_GROUP_CREATE share entry 39, so
   * setting one capability also sets the other, and entry 29, which the
   * corrected table gives VOLUME_COPY_RANGE, belongs to none.
   */
  lemma CopyRangeCollision(table: seq<byte>, v: byte)
    requires |table| == PyData.CAP_NUM
    ensures IdAsWritten(VolumeCopyRange) == IdAsWritten(AccessGroupCreate)
    ensures Store(table, IdAsWritten(VolumeCopyRange), v).Ok?
    ensures Lookup(Store(table, IdAsWritten(VolumeCopyRange), v).value, IdAsWritten(AccessGroupCreate)) == Ok(v)
    ensures forall c :: IdAsWritten(c) != 29
    ensures CapabilityAt(29) == Some(VolumeCopyRange)
  {
    forall c
      ensures IdAsWritten(c) != 29
    {
      if c != VolumeCopyRange {
        IdRoundTrip(c);
      }
    }
  }

  /**
   * Python's index rule for a sequence of length n: a negative index counts from
   * the end; anything outside [-n, n) is out of range.
   */
  function PyIndex(n: nat, i: int): (r: Option<nat>)
    ensures r.Some? <==> 0 <= n + i && i < n
    ensures r.Some? ==> r.value < n && (r.value == i || r.value == n + i)
    ensures r.Some? && i >= 0 ==> r.value == i
  {
    if n + i < 0 || i >= n then None
    else if i < 0 then Some(n + i)
    else Some(i)
  }

  /**
   * Capabilities.get as written: an index greater than the table's length is
   * UNKNOWN, every other index is read from the table, so the index equal to the
   * length raises IndexError.
   */
  function Lookup(table: seq<byte>, i: int): (r: Result<byte, PyData.PyError>)
    ensures i > |table| ==> r == Ok(UNKNOWN)
    ensures 0 <= i < |table| ==> r == Ok(table[i])
    ensures r.Err? <==> i == |table| || i < -|table|
  {
    if i > |table| then Ok(UNKNOWN)
    else
      match PyIndex(|table|, i)
      case Some(k) => Ok(table[k])
      case None => Err(PyData.IndexError)
  }

  /** Asking for the entry just past the end raises IndexError instead of answering UNKNOWN. */
  lemma GetAtLengthFails(table: seq<byte>)
    ensures Lookup(table, |table|) == Err(PyData.IndexError)
    ensures LookupGuarded(table, |table|) == Ok(UNKNOWN)
  {
  }

  /**
   * Capabilities.get as intended: every index at or past the end of the table is
   * UNKNOWN.
   */
  function LookupGuarded(table: seq<byte>, i: int): (r: Result<byte, PyData.PyError>)
    ensures i >= |table| ==> r == Ok(UNKNOWN)
    ensures 0 <= i < |table| ==> r == Ok(table[i])
    ensures r.Err? <==> i < -|table|
  {
    if i >= |table| then Ok(UNKNOWN)
    else
      match PyIndex(|table|, i)
      case Some(k) => Ok(table[k])
      case None => Err(PyData.IndexError)
  }

  /**
   * The intended lookup differs from the written one only at the index equal to
   * the length: there is no capability index the written guard lets through that
   * the intended one answers differently.
   */
  lemma LookupsAgreeElsewhere(table: seq<byte>, i: int)
    requires i != |table|
    ensures Lookup(table, i) == LookupGuarded(table, i)
  {
  }

  /** Every capability of a full-size table is answered from its entry. */
  lemma CapabilityLookup(table: seq<byte>, c: Capability)
    requires |table| == PyData.CAP_NUM
    ensures LookupGuarded(table, Id(c)) == Ok(table[Id(c)])
  {
    IdRoundTrip(c);
  }

  /**
   * bytearray item assignment: an index out of range raises IndexError, checked
   * before the value; a value outside [0, 256) raises ValueError; otherwise the
   * entry at the (possibly negative) index is replaced.
   */
  function Store(table: seq<byte>, i: int, v: int): (r: Result<seq<byte>, PyData.PyError>)
    ensures r.Err? <==> !(-|table| <= i < |table|) || !(0 <= v < 256)
    ensures r.Err? ==> r.error == (if -|table| <= i < |table| then PyData.ValueError else PyData.IndexError)
    ensures r.Ok? ==> |r.value| == |table|
  {
    match PyIndex(|table|, i)
    case None => Err(PyData.IndexError)
    case Some(k) => if 0 <= v < 256 then Ok(table[k := v]) else Err(PyData.ValueError)
  }

  /**
   * After a successful set, get of the same entry returns the value stored, and
   * every other entry answers as before.
   */
  lemma {:induction false} GetAfterSet(table: seq<byte>, i: int, v: int, j: int)
    requires Store(table, i, v).Ok?
    ensures PyIndex(|table|, i) == PyIndex(|table|, j) ==> LookupGuarded(Store(table, i, v).value, j) == Ok(v)
    ensures PyIndex(|table|, i) != PyIndex(|table|, j) ==>
      LookupGuarded(Store(table, i, v).value, j) == LookupGuarded(table, j)
  {
    var k := PyIndex(|table|, i).value;
    var t := Store(table, i, v).value;
    assert t == table[k := v];
    if j < |table| {
      assert PyIndex(|t|, j) == PyIndex(|table|, j);
    }
  }

  /** A Capabilities object: the table is a bytearray that set and enable_all change in place. */
  class Capabilities {
    var cap: array<byte>

    /** A record holding the given table. */
    constructor FromTable(table: seq<byte>)
      ensures fresh(cap) && cap[..] == table
    {
      cap := new byte[|table|](i requires 0 <= i < |table| => table[i]);
    }

    /**
     * Capabilities.__init__: no argument gives 512 UNSUPPORTED entries; base16
     * text gives the bytes it encodes.
     */
    static method New(arg: PyData.PyValue) returns (r: Result<Capabilities, PyData.PyError>)
      ensures r.Ok? <==> PyData.InitCap(arg).Ok?
      ensures r.Err? ==> r.error == PyData.InitCap(arg).error
      ensures r.Ok? ==> fresh(r.value) && fresh(r.value.cap) && r.value.cap[..] == PyData.InitCap(arg).value
      ensures r.Ok? && arg.PNone? ==>
        r.value.cap.Length == PyData.CAP_NUM && (forall i :: 0 <= i < r.value.cap.Length ==> r.value.cap[i] == UNSUPPORTED)
    {
      var init := PyData.InitCap(arg);
      if init.Err? {
        return Err(init.error);
      }
      var c := new Capabilities.FromTable(init.value);
      r := Ok(c);
    }

    /**
     * Capabilities.get as the program has it: only an index greater than the
     * length answers UNKNOWN, so the index equal to the length raises IndexError.
     */
    method GetAsWritten(capability: int) returns (r: Result<byte, PyData.PyError>)
      ensures r == Lookup(cap[..], capability)
      ensures capability == cap.Length ==> r == Err(PyData.IndexError)
    {
      if capability > cap.Length {
        return Ok(UNKNOWN);
      }
      if capability == cap.Length || capability < -cap.Length {
        return Err(PyData.IndexError);
      }
      var k := if capability < 0 then cap.Length + capability else capability;
      r := Ok(cap[k]);
    }

    /** Capabilities.get with the corrected guard, which the rest of the model uses. */
    method GetCorrected(capability: int) returns (r: Result<byte, PyData.PyError>)
      ensures r == LookupGuarded(cap[..], capability)
    {
      if capability >= cap.Length {
        return Ok(UNKNOWN);
      }
      if capability < -cap.Length {
        return Err(PyData.IndexError);
      }
      var k := if capability < 0 then cap.Length + capability else capability;
      r := Ok(cap[k]);
    }

    /** Capabilities.set: the bytearray entry is assigned, or the assignment raises. */
    method Set(capability: int, value: int) returns (r: Result<(), PyData.PyError>)
      modifies cap
      ensures Store(old(cap[..]), capability, value).Ok? ==> r.Ok? && cap[..] == Store(old(cap[..]), capability, value).value
      ensures Store(old(cap[..]), capability, value).Err? ==>
        r == Err(Store(old(cap[..]), capability, value).error) && cap[..] == old(cap[..])
    {
      if capability < -cap.Length || capability >= cap.Length {
        return Err(PyData.IndexError);
      }
      if !(0 <= value < 256) {
        return Err(PyData.ValueError);
      }
      var k := if capability < 0 then cap.Length + capability else capability;
      cap[k] := value;
      r := Ok(());
    }

    /** Capabilities.enable_all: every entry becomes SUPPORTED; the table keeps its size. */
    method EnableAll()
      modifies cap
      ensures cap[..] == seq(cap.Length, _ => SUPPORTED)
    {
      var i := 0;
      while i < cap.Length
        invariant 0 <= i <= cap.Length
        invariant forall k :: 0 <= k < i ==> cap[k] == SUPPORTED
      {
        cap[i] := SUPPORTED;
        i := i + 1;
      }
    }

    /**
     * Capabilities.toDict: the class name and the table as base16 text, which
     * decodes back to the table.
     */
    function ToDict(): (r: map<string, PyData.PyValue>)
      reads this, cap
      ensures r.Keys == {"class", "cap"} && r["class"] == PyData.PStr("Capabilities")
      ensures r["cap"].PStr? && |r["cap"].s| == 2 * cap.Length && HexDecode(r["cap"].s) == Some(cap[..])
    {
      DecodeEncode(cap[..]);
      PyData.ToDict(PyData.PCaps(cap[..]))
    }
  }
}
