/**
 * The Python data model of the library: the values a parsed JSON document and
 * the record classes are made of, the record constructors (with their
 * defaulting and checks), IData.toDict / IData.factory, the recursive
 * DataDecoder walk, and the Volume string-to-enum conversions.
 *
 * The class registry is closed: a 'class' name outside RecordClass is refused
 * (NoSuchClass) where the program would look it up by reflection.
 */
module PyData {
  import opened Wrappers
  import opened Base16

  /** The record classes a 'class' key can name. */
  datatype RecordClass =
    | Initiator | Volume | System | Pool | FileSystem | Snapshot | NfsExport | BlockRange | AccessGroup
    | Capabilities

  /** A Python value as the data model sees it. */
  datatype PyValue =
    | PNone
    | PBool(b: bool)
    | PInt(i: int)
    | PStr(s: string)
    | PList(items: seq<PyValue>)
    | PDict(fields: map<string, PyValue>)
    | PObj(cls: RecordClass, attrs: map<string, PyValue>)  // a record; attrs is its __dict__
    | PCaps(cap: seq<byte>)                                // a Capabilities record; cap is its bytearray

  /** The exception a step raises. */
  datatype PyError = TypeError | ValueError | IndexError | AttributeError | AssertionError | NoSuchClass

  /** The class's name, as toDict writes it and factory reads it. */
  function ClassName(c: RecordClass): string
  {
    match c
    case Initiator => "Initiator"
    case Volume => "Volume"
    case System => "System"
    case Pool => "Pool"
    case FileSystem => "FileSystem"
    case Snapshot => "Snapshot"
    case NfsExport => "NfsExport"
    case BlockRange => "BlockRange"
    case AccessGroup => "AccessGroup"
    case Capabilities => "Capabilities"
  }

  /** The registry lookup: the class a name denotes, if any. */
  function ClassNamed(name: string): (r: Option<RecordClass>)
    ensures r.Some? ==> ClassName(r.value) == name
  {
    match name
    case "Initiator" => Some(Initiator)
    case "Volume" => Some(Volume)
    case "System" => Some(System)
    case "Pool" => Some(Pool)
    case "FileSystem" => Some(FileSystem)
    case "Snapshot" => Some(Snapshot)
    case "NfsExport" => Some(NfsExport)
    case "BlockRange" => Some(BlockRange)
    case "AccessGroup" => Some(AccessGroup)
    case "Capabilities" => Some(Capabilities)
    case _ => None
  }

  /** Every class is found again under its own name. */
  lemma ClassNameRoundTrip(c: RecordClass)
    ensures ClassNamed(ClassName(c)) == Some(c)
  {
  }

  /** The parameters of each class's __init__ without a default value. */
  function Required(c: RecordClass): set<string>
  {
    match c
    case Initiator => {"id", "type", "name"}
    case Volume => {"id", "name", "vpd83", "block_size", "num_of_blocks", "status", "system_id"}
    case System => {"id", "name"}
    case Pool => {"id", "name", "total_space", "free_space", "system_id"}
    case FileSystem => {"id", "name", "total_space", "free_space", "pool_id", "system_id"}
    case Snapshot => {"id", "name", "ts"}
    case NfsExport => {"id", "fs_id", "export_path", "auth", "root", "rw", "ro", "anonuid", "anongid", "options"}
    case BlockRange => {"src_block", "dest_block", "block_count"}
    case AccessGroup => {"id", "name", "initiators"}
    case Capabilities => {}
  }

  /** The parameters with a default value. */
  function Optional(c: RecordClass): set<string>
  {
    match c
    case AccessGroup => {"system_id"}
    case Capabilities => {"cap"}
    case _ => {}
  }

  /** Python truth: None, False, zero and empty containers are false. */
  predicate Falsy(v: PyValue)
  {
    match v
    case PNone => true
    case PBool(b) => !b
    case PInt(i) => i == 0
    case PStr(s) => |s| == 0
    case PList(items) => |items| == 0
    case PDict(fields) => |fields| == 0
    case _ => false
  }

  /** The values len() accepts. */
  predicate HasLen(v: PyValue)
  {
    v.PStr? || v.PList? || v.PDict?
  }

  /** Python's whitespace characters for int(). */
  predicate IsSpace(c: char)
  {
    c == ' ' || c == '\t' || c == '\n' || c == '\r' || c as int == 11 || c as int == 12
  }

  /** The text without leading and trailing whitespace. */
  function Strip(s: string): (r: string)
    ensures |r| <= |s|
    ensures |r| > 0 ==> !IsSpace(r[0]) && !IsSpace(r[|r| - 1])
    decreases |s|
  {
    if |s| > 0 && IsSpace(s[0]) then Strip(s[1..])
    else if |s| > 0 && IsSpace(s[|s| - 1]) then Strip(s[..|s| - 1])
    else s
  }

  /** The value of a non-empty run of decimal digits. */
  function DigitsValue(s: string): (r: Option<nat>)
    ensures r.Some? ==> |s| > 0 && forall i :: 0 <= i < |s| ==> '0' <= s[i] <= '9'
  {
    if |s| == 0 then None
    else if !('0' <= s[|s| - 1] <= '9') then None
    else if |s| == 1 then Some(s[0] as int - '0' as int)
    else
      match DigitsValue(s[..|s| - 1])
      case None => None
      case Some(high) => Some(high * 10 + (s[|s| - 1] as int - '0' as int))
  }

  /** int() of a text in base 10: optional whitespace around an optionally signed digit run. */
  function ParseInt(s: string): Result<int, PyError>
  {
    var t := Strip(s);
    if |t| > 0 && (t[0] == '-' || t[0] == '+') then
      match DigitsValue(t[1..])
      case Some(n) => Ok(if t[0] == '-' then -(n as int) else n)
      case None => Err(ValueError)
    else
      match DigitsValue(t)
      case Some(n) => Ok(n)
      case None => Err(ValueError)
  }

  /** The decimal digits of a natural number. */
  function DecimalString(n: nat): (s: string)
    ensures |s| > 0 && forall i :: 0 <= i < |s| ==> '0' <= s[i] <= '9'
  {
    if n < 10 then [('0' as int + n) as char] else DecimalString(n / 10) + [('0' as int + n % 10) as char]
  }

  /** Reading back the digits of a number gives the number. */
  lemma {:induction false} DigitsOfDecimal(n: nat)
    ensures DigitsValue(DecimalString(n)) == Some(n)
  {
    var s := DecimalString(n);
    if n >= 10 {
      DigitsOfDecimal(n / 10);
      assert s[..|s| - 1] == DecimalString(n / 10);
    }
  }

  /** A text without whitespace at either end is its own strip. */
  lemma StripNoSpace(s: string)
    requires |s| > 0 && !IsSpace(s[0]) && !IsSpace(s[|s| - 1])
    ensures Strip(s) == s
  {
  }

  /** An unsigned digit run with nothing around it parses as its value. */
  lemma ParseDigits(t: string)
    requires Strip(t) == t && DigitsValue(t).Some?
    ensures ParseInt(t) == Ok(DigitsValue(t).value)
  {
    assert '0' <= t[0] <= '9';
  }

  /** A minus sign before a digit run, with nothing around it, parses as the negated value. */
  lemma ParseNegative(t: string)
    requires Strip(t) == t && |t| > 0 && t[0] == '-' && DigitsValue(t[1..]).Some?
    ensures ParseInt(t) == Ok(-(DigitsValue(t[1..]).value as int))
  {
  }

  /** int() reads back the decimal digits of a natural number. */
  lemma ParseUnsigned(m: nat)
    ensures ParseInt(DecimalString(m)) == Ok(m)
  {
    var d := DecimalString(m);
    DigitsOfDecimal(m);
    StripNoSpace(d);
    ParseDigits(d);
  }

  /** int() reads back a minus sign followed by the decimal digits of a natural number. */
  lemma ParseMinus(m: nat)
    ensures ParseInt("-" + DecimalString(m)) == Ok(-(m as int))
  {
    var d := DecimalString(m);
    var t := "-" + d;
    DigitsOfDecimal(m);
    assert t[0] == '-' && t[|t| - 1] == d[|d| - 1] && t[1..] == d;
    StripNoSpace(t);
    ParseNegative(t);
  }

  /** int() reads back a timestamp written in decimal, with or without a minus sign. */
  lemma ParseDecimal(n: int)
    ensures ParseInt(if n < 0 then "-" + DecimalString(-n) else DecimalString(n)) == Ok(n)
  {
    if n < 0 {
      ParseMinus(-n);
    } else {
      ParseUnsigned(n);
    }
  }

  /** int(v): numbers and booleans convert, text is parsed, anything else is a TypeError. */
  function IntOf(v: PyValue): (r: Result<int, PyError>)
    ensures v.PInt? ==> r == Ok(v.i)
    ensures r.Err? ==> r.error in {TypeError, ValueError}
    ensures r.Err? && r.error == ValueError ==> v.PStr?
  {
    match v
    case PInt(i) => Ok(i)
    case PBool(b) => Ok(if b then 1 else 0)
    case PStr(s) => ParseInt(s)
    case _ => Err(TypeError)
  }

  /** The table a fresh Capabilities record holds: 512 UNSUPPORTED (0) entries. */
  const CAP_NUM: nat := 512

  /**
   * Capabilities.__init__'s table: no argument gives 512 zero bytes; a text is
   * decoded as base16. The text is a unicode string, which the codec first
   * encodes as ASCII, so a character outside ASCII raises UnicodeEncodeError
   * (a ValueError); ASCII text that is not base16 is a TypeError. Anything else
   * has no decode method (AttributeError).
   */
  function InitCap(cap: PyValue): (r: Result<seq<byte>, PyError>)
    ensures cap.PNone? ==> r == Ok(seq(CAP_NUM, _ => 0))
    ensures cap.PStr? ==> (r.Ok? <==> HexDecode(cap.s).Some?)
    ensures cap.PStr? && r.Ok? ==> |r.value| * 2 == |cap.s| && HexEncode(r.value) == Lower(cap.s)
    ensures cap.PStr? && !IsAscii(cap.s) ==> r == Err(ValueError)
    ensures r.Err? ==>
      (cap.PStr? && !IsAscii(cap.s) && r.error == ValueError) ||
      (cap.PStr? && IsAscii(cap.s) && r.error == TypeError) ||
      (!cap.PStr? && !cap.PNone? && r.error == AttributeError)
    ensures !cap.PStr? && !cap.PNone? ==> r == Err(AttributeError)
  {
    match cap
    case PNone => Ok(seq(CAP_NUM, _ => 0))
    case PStr(s) =>
      DecodableIsAscii(s);
      if !IsAscii(s) then Err(ValueError)
      else
        (match HexDecode(s)
         case Some(b) => EncodeDecode(s); Ok(b)
         case None => Err(TypeError))
    case _ => Err(AttributeError)
  }

  /**
   * The body of a class's __init__ once the keywords match its parameters:
   * Initiator replaces a false name by "Unsupported" (len() of a true value
   * without a length is a TypeError); Snapshot converts ts with int();
   * NfsExport asserts fs_id and export_path are not None; AccessGroup defaults
   * system_id to 'NA'; Capabilities builds its table. Every other argument is
   * stored as given.
   */
  function Build(c: RecordClass, kw: map<string, PyValue>): Result<PyValue, PyError>
    requires Required(c) <= kw.Keys
  {
    match c
    case Initiator =>
      if Falsy(kw["name"]) then Ok(PObj(Initiator, kw["name" := PStr("Unsupported")]))
      else if !HasLen(kw["name"]) then Err(TypeError)
      else Ok(PObj(Initiator, kw))
    case Snapshot =>
      (match IntOf(kw["ts"])
       case Ok(n) => Ok(PObj(Snapshot, kw["ts" := PInt(n)]))
       case Err(e) => Err(e))
    case NfsExport =>
      if kw["fs_id"].PNone? || kw["export_path"].PNone? then Err(AssertionError)
      else Ok(PObj(NfsExport, kw))
    case AccessGroup =>
      Ok(PObj(AccessGroup, if "system_id" in kw then kw else kw["system_id" := PStr("NA")]))
    case Capabilities =>
      (match InitCap(if "cap" in kw then kw["cap"] else PNone)
       case Ok(b) => Ok(PCaps(b))
       case Err(e) => Err(e))
    case _ => Ok(PObj(c, kw))
  }

  /**
   * c(**kw): an unexpected keyword or a missing required argument is a TypeError;
   * otherwise the constructor body runs. A record's attributes are exactly its
   * parameters.
   */
  function Construct(c: RecordClass, kw: map<string, PyValue>): (r: Result<PyValue, PyError>)
    ensures r.Ok? ==> kw.Keys <= Required(c) + Optional(c) && Required(c) <= kw.Keys
    ensures r.Ok? && c != Capabilities ==>
      r.value.PObj? && r.value.cls == c && r.value.attrs.Keys == Required(c) + Optional(c)
    ensures r.Ok? && c == Capabilities ==> r.value.PCaps?
    ensures r.Ok? && c == Initiator ==>
      r.value.attrs["id"] == kw["id"] && r.value.attrs["type"] == kw["type"] &&
      r.value.attrs["name"] == (if Falsy(kw["name"]) then PStr("Unsupported") else kw["name"]) &&
      !Falsy(r.value.attrs["name"])
    ensures c == Initiator && Required(c) <= kw.Keys <= Required(c) + Optional(c) ==>
      (r.Err? <==> !Falsy(kw["name"]) && !HasLen(kw["name"]))
    ensures r.Ok? && c == AccessGroup ==>
      r.value.attrs["system_id"] == (if "system_id" in kw then kw["system_id"] else PStr("NA"))
    ensures r.Ok? && c !in {Initiator, Snapshot, AccessGroup, Capabilities} ==> r.value.attrs == kw
    ensures !(Required(c) <= kw.Keys <= Required(c) + Optional(c)) ==> r == Err(TypeError)
    ensures Required(c) <= kw.Keys <= Required(c) + Optional(c) && c in {Volume, System, Pool, FileSystem, BlockRange} ==>
      r == Ok(PObj(c, kw))
    ensures c == Snapshot && Required(c) <= kw.Keys <= Required(c) + Optional(c) ==>
      r == (match IntOf(kw["ts"]) case Ok(n) => Ok(PObj(Snapshot, kw["ts" := PInt(n)])) case Err(e) => Err(e))
    ensures c == NfsExport && Required(c) <= kw.Keys <= Required(c) + Optional(c) ==>
      (r.Err? <==> kw["fs_id"].PNone? || kw["export_path"].PNone?)
  {
    if !(kw.Keys <= Required(c) + Optional(c)) || !(Required(c) <= kw.Keys) then Err(TypeError)
    else Build(c, kw)
  }

  /** A record's own value: what it is made of, without the class tag. */
  predicate IsRecord(v: PyValue)
  {
    v.PObj? || v.PCaps?
  }

  /**
   * Constructing a record again from its own attributes gives the same record:
   * every constructor's defaulting and conversion is idempotent.
   */
  lemma ConstructIdempotent(c: RecordClass, kw: map<string, PyValue>)
    requires c != Capabilities && Construct(c, kw).Ok?
    ensures Construct(c, Construct(c, kw).value.attrs) == Construct(c, kw)
  {
    var r := Construct(c, kw).value;
    if c == Initiator {
      assert r.attrs.Keys == kw.Keys;
    } else if c == Snapshot {
      assert r.attrs.Keys == kw.Keys;
      assert r.attrs["ts" := r.attrs["ts"]] == r.attrs;
    } else if c == NfsExport {
      assert r.attrs == kw;
    }
  }

  /**
   * IData.toDict: 'class' maps to the class name and every attribute to its
   * value, a record attribute being turned into its own dictionary. Capabilities
   * overrides it: the table is written as base16 text under 'cap'.
   */
  function ToDict(obj: PyValue): (r: map<string, PyValue>)
    requires IsRecord(obj)
    ensures obj.PObj? ==> r.Keys == obj.attrs.Keys + {"class"}
    ensures obj.PObj? ==>
      forall k :: k in obj.attrs && k != "class" ==>
        r[k] == if IsRecord(obj.attrs[k]) then PDict(ToDict(obj.attrs[k])) else obj.attrs[k]
    ensures obj.PCaps? ==> r == map["class" := PStr("Capabilities"), "cap" := PStr(HexEncode(obj.cap))]
    ensures "class" in r && r["class"] == PStr(ClassName(if obj.PObj? then obj.cls else Capabilities))
    decreases obj
  {
    if obj.PCaps? then map["class" := PStr("Capabilities"), "cap" := PStr(HexEncode(obj.cap))]
    else
      var converted := map k | k in obj.attrs ::
        if IsRecord(obj.attrs[k]) then PDict(ToDict(obj.attrs[k])) else obj.attrs[k];
      converted["class" := PStr(ClassName(obj.cls))]
  }

  /**
   * IData.factory: without a 'class' key the result is None; otherwise 'class' is
   * taken out, its value (which must be text) names the class, and the class is
   * constructed from the remaining keys.
   */
  function Factory(d: map<string, PyValue>): (r: Result<PyValue, PyError>)
    ensures "class" !in d ==> r == Ok(PNone)
    ensures "class" in d && !d["class"].PStr? ==> r == Err(TypeError)
    ensures "class" in d && d["class"].PStr? && ClassNamed(d["class"].s).None? ==> r == Err(NoSuchClass)
    ensures "class" in d && r.Ok? ==>
      d["class"].PStr? && ClassNamed(d["class"].s).Some? &&
      r == Construct(ClassNamed(d["class"].s).value, d - {"class"})
  {
    if "class" !in d then Ok(PNone)
    else if !d["class"].PStr? then Err(TypeError)
    else
      match ClassNamed(d["class"].s)
      case None => Err(NoSuchClass)
      case Some(c) => Construct(c, d - {"class"})
  }

  /**
   * IData.factory as the program runs it: 'class' is deleted from the caller's
   * dictionary in place before the class is constructed.
   */
  method FactoryInPlace(d: Dict) returns (r: Result<PyValue, PyError>)
    modifies d
    ensures r == Factory(old(d.entries))
    ensures d.entries == old(d.entries) - {"class"}
  {
    if "class" !in d.entries {
      return Ok(PNone);
    }
    var name := d.entries["class"];
    d.Delete("class");
    if !name.PStr? {
      return Err(TypeError);
    }
    match ClassNamed(name.s) {
      case None => r := Err(NoSuchClass);
      case Some(c) => r := Construct(c, d.entries);
    }
  }

  /** A Python dictionary object that can be changed in place. */
  class Dict {
    var entries: map<string, PyValue>

    constructor (entries: map<string, PyValue>)
      ensures this.entries == entries
    {
      this.entries := entries;
    }

    /** del d[k] when k is present (the caller checks). */
    method Delete(k: string)
      modifies this
      ensures entries == old(entries) - {k}
    {
      entries := entries - {k};
    }
  }

  /** No attribute of the record is itself a record. */
  predicate FlatRecord(obj: PyValue)
    requires obj.PObj?
  {
    forall k :: k in obj.attrs ==> !IsRecord(obj.attrs[k])
  }

  /** toDict of a record without record attributes is its attributes plus the class tag. */
  lemma ToDictFlat(obj: PyValue)
    requires obj.PObj? && FlatRecord(obj) && "class" !in obj.attrs
    ensures ToDict(obj) - {"class"} == obj.attrs
  {
    var d := ToDict(obj);
    assert forall k :: k in obj.attrs ==> d[k] == obj.attrs[k];
  }

  /** toDict then factory gives a capability table back. */
  lemma FactoryToDictCaps(cap: seq<byte>)
    ensures Factory(ToDict(PCaps(cap))) == Ok(PCaps(cap))
  {
    var d := ToDict(PCaps(cap));
    var rest := map["cap" := PStr(HexEncode(cap))];
    assert d - {"class"} == rest;
    assert ClassNamed("Capabilities") == Some(Capabilities);
    DecodeEncode(cap);
    assert InitCap(rest["cap"]) == Ok(cap);
    assert Construct(Capabilities, rest) == Ok(PCaps(cap));
  }

  /** toDict then factory gives back a record without record attributes. */
  lemma FactoryToDictFlat(obj: PyValue)
    requires obj.PObj? && FlatRecord(obj) && "class" !in obj.attrs
    ensures Factory(ToDict(obj)) == Construct(obj.cls, obj.attrs)
  {
    ClassNameRoundTrip(obj.cls);
    ToDictFlat(obj);
  }

  /**
   * toDict then factory gives the record back, for a record a constructor made
   * whose attributes are not records themselves (a record attribute comes back
   * as the dictionary toDict made of it).
   */
  lemma FactoryToDict(c: RecordClass, kw: map<string, PyValue>)
    requires Construct(c, kw).Ok?
    requires c != Capabilities ==> FlatRecord(Construct(c, kw).value)
    ensures Factory(ToDict(Construct(c, kw).value)) == Construct(c, kw)
  {
    var obj := Construct(c, kw).value;
    if c == Capabilities {
      FactoryToDictCaps(obj.cap);
      assert Construct(c, kw) == Ok(PCaps(obj.cap));
    } else {
      assert "class" !in Required(c) + Optional(c);
      FactoryToDictFlat(obj);
      ConstructIdempotent(c, kw);
    }
  }

  /**
   * DataDecoder.__decode: a dictionary is processed as a dictionary, a list as a
   * list, and anything else is returned unchanged.
   */
  ghost function Decode(e: PyValue): Result<PyValue, PyError>
    decreases e, 1
  {
    match e
    case PDict(d) => ProcessDict(d)
    case PList(items) =>
      (match ProcessList(items, 0)
       case Ok(out) => Ok(PList(out))
       case Err(err) => Err(err))
    case _ => Ok(e)
  }

  /**
   * DataDecoder.__process_dict: a dictionary with a 'class' key becomes a record
   * through factory, its values untouched; any other dictionary has each value
   * decoded. When several values fail, which exception surfaces depends on the
   * dictionary's iteration order, so the model picks any one of them.
   */
  ghost function ProcessDict(d: map<string, PyValue>): Result<PyValue, PyError>
    decreases PDict(d), 0
  {
    if "class" in d then Factory(d)
    else if exists k :: k in d && Decode(d[k]).Err? then
      var k :| k in d && Decode(d[k]).Err?;
      Err(Decode(d[k]).error)
    else
      Ok(PDict(map k | k in d :: Decode(d[k]).value))
  }

  /**
   * DataDecoder.__process_list from position i on: a list element is processed
   * as a list, a dictionary element as a dictionary, anything else is kept; the
   * first failing element's exception surfaces.
   */
  ghost function ProcessList(items: seq<PyValue>, i: nat): Result<seq<PyValue>, PyError>
    requires i <= |items|
    decreases PList(items), 0, |items| - i
  {
    if i == |items| then Ok([])
    else
      var v := items[i];
      var head :=
        if v.PList? then
          (match ProcessList(v.items, 0)
           case Ok(out) => Ok(PList(out))
           case Err(err) => Err(err))
        else if v.PDict? then ProcessDict(v.fields)
        else Ok(v);
      match head
      case Err(err) => Err(err)
      case Ok(h) =>
        match ProcessList(items, i + 1)
        case Ok(rest) => Ok([h] + rest)
        case Err(err) => Err(err)
  }

  /** No dictionary anywhere in the value carries a 'class' key. */
  predicate ClassFree(e: PyValue)
    decreases e
  {
    match e
    case PDict(d) => "class" !in d && forall k :: k in d ==> ClassFree(d[k])
    case PList(items) => forall i :: 0 <= i < |items| ==> ClassFree(items[i])
    case PObj(_, attrs) => forall k :: k in attrs ==> ClassFree(attrs[k])
    case _ => true
  }

  /**
   * No dictionary outside a record carries a 'class' key: the shape the decoder
   * leaves (a record's own attributes are whatever its constructor stored).
   */
  predicate Decoded(e: PyValue)
    decreases e
  {
    match e
    case PDict(d) => "class" !in d && forall k :: k in d ==> Decoded(d[k])
    case PList(items) => forall i :: 0 <= i < |items| ==> Decoded(items[i])
    case _ => true
  }

  /** The decoder changes nothing in a value already in decoded shape. */
  lemma {:induction false} DecodeFixesDecoded(e: PyValue)
    requires Decoded(e)
    ensures Decode(e) == Ok(e)
    decreases e, 1
  {
    match e
    case PDict(d) =>
      forall k | k in d
        ensures Decode(d[k]) == Ok(d[k])
      {
        DecodeFixesDecoded(d[k]);
      }
      assert !exists k :: k in d && Decode(d[k]).Err?;
      assert (map k | k in d :: Decode(d[k]).value) == d;
      assert ProcessDict(d) == Ok(PDict(d));
    case PList(items) =>
      ListFixesDecoded(items, 0);
      assert items[0..] == items;
    case _ =>
  }

  /** The list half of DecodeFixesDecoded. */
  lemma {:induction false} ListFixesDecoded(items: seq<PyValue>, i: nat)
    requires i <= |items|
    requires forall j :: 0 <= j < |items| ==> Decoded(items[j])
    ensures ProcessList(items, i) == Ok(items[i..])
    decreases PList(items), 0, |items| - i
  {
    if i < |items| {
      var v := items[i];
      DecodeFixesDecoded(v);
      if v.PList? {
        assert Decode(v) == Ok(v);
        assert ProcessList(v.items, 0) == Ok(v.items) by {
          ListFixesDecoded(v.items, 0);
          assert v.items[0..] == v.items;
        }
      }
      ListFixesDecoded(items, i + 1);
      assert items[i..] == [v] + items[i + 1..];
    }
  }

  /** Whatever the decoder returns is in decoded shape: every 'class' dictionary became a record. */
  lemma {:induction false} DecodeYieldsDecoded(e: PyValue)
    requires Decode(e).Ok?
    ensures Decoded(Decode(e).value)
    decreases e, 1
  {
    match e
    case PDict(d) =>
      if "class" !in d {
        forall k | k in d
          ensures Decoded(Decode(d[k]).value)
        {
          DecodeYieldsDecoded(d[k]);
        }
      }
    case PList(items) =>
      ListYieldsDecoded(items, 0);
    case _ =>
  }

  /** The list half of DecodeYieldsDecoded. */
  lemma {:induction false} ListYieldsDecoded(items: seq<PyValue>, i: nat)
    requires i <= |items|
    requires ProcessList(items, i).Ok?
    ensures forall j :: 0 <= j < |ProcessList(items, i).value| ==> Decoded(ProcessList(items, i).value[j])
    decreases PList(items), 0, |items| - i
  {
    if i < |items| {
      var v := items[i];
      if v.PList? {
        ListYieldsDecoded(v.items, 0);
      } else if v.PDict? {
        DecodeYieldsDecoded(v);
      }
      ListYieldsDecoded(items, i + 1);
    }
  }

  /** Decoding twice is decoding once. */
  lemma DecodeIdempotent(e: PyValue)
    requires Decode(e).Ok?
    ensures Decode(Decode(e).value) == Decode(e)
  {
    DecodeYieldsDecoded(e);
    DecodeFixesDecoded(Decode(e).value);
  }

  /** A value without any 'class' dictionary decodes to itself. */
  lemma {:induction false} ClassFreeIsDecoded(e: PyValue)
    requires ClassFree(e)
    ensures Decoded(e) && Decode(e) == Ok(e)
    decreases e
  {
    match e
    case PDict(d) =>
      forall k | k in d
        ensures Decoded(d[k])
      {
        ClassFreeIsDecoded(d[k]);
      }
      DecodeFixesDecoded(e);
    case PList(items) =>
      forall j | 0 <= j < |items|
        ensures Decoded(items[j])
      {
        ClassFreeIsDecoded(items[j]);
      }
      DecodeFixesDecoded(e);
    case _ =>
  }

  // Volume's replication, provisioning and access constants
  const REPLICATE_UNKNOWN: int := -1
  const REPLICATE_SNAPSHOT: int := 1
  const REPLICATE_CLONE: int := 2
  const REPLICATE_COPY: int := 3
  const REPLICATE_MIRROR_SYNC: int := 4
  const REPLICATE_MIRROR_ASYNC: int := 5
  const PROVISION_UNKNOWN: int := -1
  const PROVISION_THIN: int := 1
  const PROVISION_FULL: int := 2
  const PROVISION_DEFAULT: int := 3
  const ACCESS_READ_ONLY: int := 1
  const ACCESS_READ_WRITE: int := 2
  const ACCESS_NONE: int := 3

  /** The names the provisioning types are written with. */
  function ProvName(t: int): string
    requires t in {PROVISION_THIN, PROVISION_FULL, PROVISION_DEFAULT}
  {
    if t == PROVISION_THIN then "THIN" else if t == PROVISION_FULL then "FULL" else "DEFAULT"
  }

  /** Volume.prov_string_to_type: the three names, anything else (of any type) PROVISION_UNKNOWN. */
  function ProvStringToType(v: PyValue): (t: int)
    ensures t in {PROVISION_UNKNOWN, PROVISION_THIN, PROVISION_FULL, PROVISION_DEFAULT}
    ensures t != PROVISION_UNKNOWN ==> v == PStr(ProvName(t))
  {
    if v == PStr("DEFAULT") then PROVISION_DEFAULT
    else if v == PStr("FULL") then PROVISION_FULL
    else if v == PStr("THIN") then PROVISION_THIN
    else PROVISION_UNKNOWN
  }

  /** Every provisioning type is read back from its name. */
  lemma ProvRoundTrip(t: int)
    requires t in {PROVISION_THIN, PROVISION_FULL, PROVISION_DEFAULT}
    ensures ProvStringToType(PStr(ProvName(t))) == t
  {
  }

  /** The names the replication types are written with. */
  function RepName(t: int): string
    requires REPLICATE_SNAPSHOT <= t <= REPLICATE_MIRROR_ASYNC
  {
    if t == REPLICATE_SNAPSHOT then "SNAPSHOT"
    else if t == REPLICATE_CLONE then "CLONE"
    else if t == REPLICATE_COPY then "COPY"
    else if t == REPLICATE_MIRROR_SYNC then "MIRROR_SYNC"
    else "MIRROR_ASYNC"
  }

  /** Volume.rep_String_to_type: the five names, anything else REPLICATE_UNKNOWN. */
  function RepStringToType(v: PyValue): (t: int)
    ensures t == REPLICATE_UNKNOWN || REPLICATE_SNAPSHOT <= t <= REPLICATE_MIRROR_ASYNC
    ensures t != REPLICATE_UNKNOWN ==> v == PStr(RepName(t))
  {
    if v == PStr("SNAPSHOT") then REPLICATE_SNAPSHOT
    else if v == PStr("CLONE") then REPLICATE_CLONE
    else if v == PStr("COPY") then REPLICATE_COPY
    else if v == PStr("MIRROR_SYNC") then REPLICATE_MIRROR_SYNC
    else if v == PStr("MIRROR_ASYNC") then REPLICATE_MIRROR_ASYNC
    else REPLICATE_UNKNOWN
  }

  /** Every replication type is read back from its name. */
  lemma RepRoundTrip(t: int)
    requires REPLICATE_SNAPSHOT <= t <= REPLICATE_MIRROR_ASYNC
    ensures RepStringToType(PStr(RepName(t))) == t
  {
  }

  /** Volume.access_string_to_type: "RW" is read-write, anything else read-only; never ACCESS_NONE. */
  function AccessStringToType(v: PyValue): (t: int)
    ensures t in {ACCESS_READ_ONLY, ACCESS_READ_WRITE} && t != ACCESS_NONE
    ensures t == ACCESS_READ_WRITE <==> v == PStr("RW")
  {
    if v == PStr("RW") then ACCESS_READ_WRITE else ACCESS_READ_ONLY
  }

  /** A Volume record whose block_size and num_of_blocks are both integers. */
  predicate IntegerSized(vol: PyValue)
  {
    vol.PObj? && vol.cls == Volume && "block_size" in vol.attrs && "num_of_blocks" in vol.attrs &&
    vol.attrs["block_size"].PInt? && vol.attrs["num_of_blocks"].PInt?
  }

  /**
   * Volume.size_bytes on a record with integer attributes: the product of its
   * block size and block count, which is zero exactly when one of them is, and
   * which a positive block size divides into exactly the block count.
   */
  function SizeBytes(vol: PyValue): (r: int)
    requires IntegerSized(vol)
    ensures r == vol.attrs["block_size"].i * vol.attrs["num_of_blocks"].i
    ensures r == 0 <==> vol.attrs["block_size"].i == 0 || vol.attrs["num_of_blocks"].i == 0
    ensures vol.attrs["block_size"].i > 0 ==>
      r / vol.attrs["block_size"].i == vol.attrs["num_of_blocks"].i && r % vol.attrs["block_size"].i == 0
  {
    var b, n := vol.attrs["block_size"].i, vol.attrs["num_of_blocks"].i;
    ZeroProduct(b, n);
    if b > 0 then WholeBlocks(b, n); b * n else b * n
  }

  /** A Volume built from integer keyword arguments reports their product as its size. */
  lemma ConstructedSize(kw: map<string, PyValue>)
    requires Construct(Volume, kw).Ok?
    requires kw["block_size"].PInt? && kw["num_of_blocks"].PInt?
    ensures IntegerSized(Construct(Volume, kw).value)
    ensures SizeBytes(Construct(Volume, kw).value) == kw["block_size"].i * kw["num_of_blocks"].i
  {
  }

  /** A product is zero exactly when a factor is. */
  lemma ZeroProduct(b: int, n: int)
    ensures b * n == 0 <==> b == 0 || n == 0
  {
  }

  /** A whole number of blocks divides back into exactly that many blocks. */
  lemma {:induction false} WholeBlocks(b: nat, n: int)
    requires b > 0
    ensures (b * n) / b == n && (b * n) % b == 0
  {
    var q, r := (b * n) / b, (b * n) % b;
    assert b * (n - q) == b * n - b * q;
    SmallMultiple(b, n - q);
  }

  /** The only multiple of b in [0, b) is zero. */
  lemma {:induction false} SmallMultiple(b: nat, k: int)
    requires b > 0 && 0 <= b * k < b
    ensures k == 0
  {
    if k >= 1 {
      MulAtLeast(b, k);
    } else if k <= -1 {
      MulAtLeast(b, -k);
    }
  }

  /** A positive multiple is at least the factor. */
  lemma {:induction false} MulAtLeast(b: nat, k: int)
    requires k >= 1
    ensures b * k >= b
  {
    assert b * k == b + b * (k - 1);
  }
}
