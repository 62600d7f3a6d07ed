/**
 * lsm_available_plugins_list: scan the socket directory, load each plugin
 * socket, ask it for its description and version, and collect
 * "desc + sep + version" strings.
 *
 * The directory is an input sequence of entries; what connecting to a socket
 * (driver_load) and asking it (lsm_plugin_info_get) return is part of each entry.
 */
module LsmDiscovery {
  import opened Wrappers
  import opened LsmErrors
  import opened LsmConnection

  /**
   * One directory entry: its name, whether it is a socket, the code driver_load
   * returns for it, and the code and strings lsm_plugin_info_get returns.
   */
  datatype DirEntry = DirEntry(name: string, isSocket: bool, loadRc: int, infoRc: int,
                               desc: string, version: string)

  /** The string a plugin contributes to the list. */
  function Describe(e: DirEntry, sep: string): string
  {
    e.desc + sep + e.version
  }

  /**
   * The scan from the current entry on, given the running code and list: a
   * non-socket is skipped; a socket that does not load ends the scan with the
   * load code; a socket whose information query fails sets the code and the scan
   * goes on; a socket that answers appends its string and resets the code to OK.
   */
  function Scan(entries: seq<DirEntry>, sep: string, rc: int, acc: seq<string>): (r: (int, seq<string>))
    ensures |acc| <= |r.1| <= |acc| + |entries| && r.1[..|acc|] == acc
    ensures |entries| == 0 ==> r == (rc, acc)
  {
    if |entries| == 0 then (rc, acc)
    else
      var e := entries[0];
      if !e.isSocket then Scan(entries[1..], sep, rc, acc)
      else if e.loadRc != OK then (e.loadRc, acc)
      else if e.infoRc != OK then Scan(entries[1..], sep, e.infoRc, acc)
      else Scan(entries[1..], sep, OK, acc + [Describe(e, sep)])
  }

  /** The socket entries, in directory order. */
  function Sockets(entries: seq<DirEntry>): (r: seq<DirEntry>)
    ensures |r| <= |entries|
  {
    if |entries| == 0 then []
    else if entries[0].isSocket then [entries[0]] + Sockets(entries[1..])
    else Sockets(entries[1..])
  }

  /** The strings contributed by a sequence of entries. */
  function Described(entries: seq<DirEntry>, sep: string): (r: seq<string>)
    ensures |r| == |entries|
  {
    if |entries| == 0 then [] else [Describe(entries[0], sep)] + Described(entries[1..], sep)
  }

  /** The i-th string is the i-th entry's description, separator and version. */
  lemma {:induction false} DescribedAt(entries: seq<DirEntry>, sep: string, i: nat)
    requires i < |entries|
    ensures Described(entries, sep)[i] == entries[i].desc + sep + entries[i].version
  {
    if i > 0 {
      DescribedAt(entries[1..], sep, i - 1);
    }
  }

  /** Only socket entries matter: dropping every other entry does not change the scan. */
  lemma {:induction false} ScanOnlySockets(entries: seq<DirEntry>, sep: string, rc: int, acc: seq<string>)
    ensures Scan(entries, sep, rc, acc) == Scan(Sockets(entries), sep, rc, acc)
  {
    if |entries| > 0 {
      ScanOnlySockets(entries[1..], sep, rc, acc);
      var e := entries[0];
      if e.isSocket {
        assert Sockets(entries)[0] == e && Sockets(entries)[1..] == Sockets(entries[1..]);
        if e.loadRc == OK {
          ScanOnlySockets(entries[1..], sep, if e.infoRc != OK then e.infoRc else OK,
                          if e.infoRc != OK then acc else acc + [Describe(e, sep)]);
        }
      }
    }
  }

  /**
   * A socket that fails to load ends the scan: nothing after it is looked at, so
   * the plugins that follow it are never listed.
   */
  lemma {:induction false} ScanStopsAtLoadFailure(before: seq<DirEntry>, bad: DirEntry, after1: seq<DirEntry>,
                                                  after2: seq<DirEntry>, sep: string, rc: int, acc: seq<string>)
    requires bad.isSocket && bad.loadRc != OK
    ensures Scan(before + [bad] + after1, sep, rc, acc) == Scan(before + [bad] + after2, sep, rc, acc)
  {
    if |before| == 0 {
      assert (before + [bad] + after1)[0] == bad && (before + [bad] + after2)[0] == bad;
    } else {
      var e := before[0];
      assert (before + [bad] + after1)[1..] == before[1..] + [bad] + after1;
      assert (before + [bad] + after2)[1..] == before[1..] + [bad] + after2;
      ScanStopsAtLoadFailure(before[1..], bad, after1, after2, sep, if e.infoRc != OK then e.infoRc else OK,
                             if e.infoRc != OK then acc else acc + [Describe(e, sep)]);
      ScanStopsAtLoadFailure(before[1..], bad, after1, after2, sep, rc, acc);
    }
  }

  /**
   * A socket that fails to load anywhere in the directory leaves a code that is
   * not OK, whatever the sockets before it answered: the whole list is discarded.
   */
  lemma {:induction false} ScanLoadFailure(entries: seq<DirEntry>, sep: string, rc: int, acc: seq<string>, k: nat)
    requires k < |entries| && entries[k].isSocket && entries[k].loadRc != OK
    ensures Scan(entries, sep, rc, acc).0 != OK
  {
    var e := entries[0];
    if k > 0 && !(e.isSocket && e.loadRc != OK) {
      ScanLoadFailure(entries[1..], sep, if e.infoRc != OK then e.infoRc else OK,
                      if e.infoRc != OK then acc else acc + [Describe(e, sep)], k - 1);
      ScanLoadFailure(entries[1..], sep, rc, acc, k - 1);
    }
  }

  /** Entries that are not sockets leave the code and the list as they are. */
  lemma {:induction false} ScanNoSockets(entries: seq<DirEntry>, sep: string, rc: int, acc: seq<string>)
    requires forall j :: 0 <= j < |entries| ==> !entries[j].isSocket
    ensures Scan(entries, sep, rc, acc) == (rc, acc)
  {
    if |entries| > 0 {
      ScanNoSockets(entries[1..], sep, rc, acc);
    }
  }

  /**
   * When the last socket of the directory loads but its information query fails,
   * the scan ends with that failure's code (or an earlier load failure's), so
   * the list gathered before it is discarded too.
   */
  lemma {:induction false} ScanLastInfoFailure(entries: seq<DirEntry>, sep: string, rc: int, acc: seq<string>, k: nat)
    requires k < |entries| && entries[k].isSocket && entries[k].infoRc != OK
    requires forall j :: k < j < |entries| ==> !entries[j].isSocket
    ensures Scan(entries, sep, rc, acc).0 != OK
  {
    var e := entries[0];
    if k == 0 {
      if e.loadRc == OK {
        ScanNoSockets(entries[1..], sep, e.infoRc, acc);
      }
    } else if !(e.isSocket && e.loadRc != OK) {
      ScanLastInfoFailure(entries[1..], sep, if e.infoRc != OK then e.infoRc else OK,
                          if e.infoRc != OK then acc else acc + [Describe(e, sep)], k - 1);
      ScanLastInfoFailure(entries[1..], sep, rc, acc, k - 1);
    }
  }

  /** Some socket among the entries fails to load. */
  predicate SomeLoadFails(entries: seq<DirEntry>)
  {
    exists k :: 0 <= k < |entries| && entries[k].isSocket && entries[k].loadRc != OK
  }

  /** The last socket among the entries fails its information query. */
  predicate LastInfoFails(entries: seq<DirEntry>)
  {
    exists k :: 0 <= k < |entries| && entries[k].isSocket && entries[k].infoRc != OK &&
      forall j :: k < j < |entries| ==> !entries[j].isSocket
  }

  /** Every socket among the entries loads and answers its information query. */
  predicate AllAnswer(entries: seq<DirEntry>)
  {
    |entries| == 0 ||
    ((entries[0].isSocket ==> entries[0].loadRc == OK && entries[0].infoRc == OK) && AllAnswer(entries[1..]))
  }

  /**
   * When every socket loads and answers, the scan ends with OK (or the starting
   * code, if there is no socket) and appends exactly the sockets' strings, in order.
   */
  lemma {:induction false} ScanAllAnswer(entries: seq<DirEntry>, sep: string, rc: int, acc: seq<string>)
    requires AllAnswer(entries)
    ensures Scan(entries, sep, rc, acc).1 == acc + Described(Sockets(entries), sep)
    ensures Scan(entries, sep, rc, acc).0 == if |Sockets(entries)| == 0 then rc else OK
  {
    if |entries| == 0 {
      assert acc + [] == acc;
    } else {
      var e, rest := entries[0], entries[1..];
      if e.isSocket {
        var d := Describe(e, sep);
        ScanAllAnswer(rest, sep, OK, acc + [d]);
        assert Sockets(entries) == [e] + Sockets(rest);
        assert Described(Sockets(entries), sep) == [d] + Described(Sockets(rest), sep);
        assert acc + [d] + Described(Sockets(rest), sep) == acc + ([d] + Described(Sockets(rest), sep));
      } else {
        ScanAllAnswer(rest, sep, rc, acc);
      }
    }
  }

  /** Every socket among the entries loads (its information query may still fail). */
  predicate AllLoad(entries: seq<DirEntry>)
  {
    |entries| == 0 || ((entries[0].isSocket ==> entries[0].loadRc == OK) && AllLoad(entries[1..]))
  }

  /** The sockets that load and answer their information query, in directory order. */
  function Answering(entries: seq<DirEntry>): (r: seq<DirEntry>)
    ensures |r| <= |entries|
  {
    if |entries| == 0 then []
    else if entries[0].isSocket && entries[0].loadRc == OK && entries[0].infoRc == OK then
      [entries[0]] + Answering(entries[1..])
    else Answering(entries[1..])
  }

  /**
   * When no socket fails to load, each socket that answers appends exactly its
   * "desc + sep + version", in directory order, and a socket whose information
   * query fails appends nothing.
   */
  lemma {:induction false} ScanAnswering(entries: seq<DirEntry>, sep: string, rc: int, acc: seq<string>)
    requires AllLoad(entries)
    ensures Scan(entries, sep, rc, acc).1 == acc + Described(Answering(entries), sep)
  {
    if |entries| == 0 {
      assert acc + [] == acc;
    } else {
      var e, rest := entries[0], entries[1..];
      if e.isSocket && e.infoRc == OK {
        var d := Describe(e, sep);
        ScanAnswering(rest, sep, OK, acc + [d]);
        assert Answering(entries) == [e] + Answering(rest);
        assert Described(Answering(entries), sep) == [d] + Described(Answering(rest), sep);
        assert acc + [d] + Described(Answering(rest), sep) == acc + ([d] + Described(Answering(rest), sep));
      } else if e.isSocket {
        ScanAnswering(rest, sep, e.infoRc, acc);
      } else {
        ScanAnswering(rest, sep, rc, acc);
      }
    }
  }

  /**
   * lsm_available_plugins_list. `dir` is the directory's entries (None: it cannot
   * be opened); `listAllocOk` whether the empty string list is allocated, and
   * `closeOk` whether closing the directory succeeds. The list is handed back
   * only when the final code is OK.
   */
  method AvailablePluginsList(sep: Option<string>, pluginsSlot: OutSlot, flags: nat, listAllocOk: bool,
                              dir: Option<seq<DirEntry>>, closeOk: bool)
    returns (rc: int, plugins: Option<seq<string>>)
    ensures CheckStr(sep) || CheckRp(pluginsSlot) || FlagUnused(flags) ==> rc == INVALID_ARGUMENT && plugins == None
    ensures !(CheckStr(sep) || CheckRp(pluginsSlot) || FlagUnused(flags)) && !listAllocOk ==>
      rc == NO_MEMORY && plugins == None
    ensures !(CheckStr(sep) || CheckRp(pluginsSlot) || FlagUnused(flags)) && listAllocOk && dir.None? ==>
      rc == INTERNAL_ERROR && plugins == None
    ensures !(CheckStr(sep) || CheckRp(pluginsSlot) || FlagUnused(flags)) && listAllocOk && dir.Some? ==>
      var scan := Scan(dir.value, sep.value, OK, []);
      rc == (if closeOk then scan.0 else INTERNAL_ERROR) &&
      plugins == (if rc == OK then Some(scan.1) else None)
    ensures plugins.Some? <==> rc == OK
    ensures !(CheckStr(sep) || CheckRp(pluginsSlot) || FlagUnused(flags)) && listAllocOk && dir.Some? &&
            (SomeLoadFails(dir.value) || LastInfoFails(dir.value)) ==>
      rc != OK && plugins == None
    ensures !(CheckStr(sep) || CheckRp(pluginsSlot) || FlagUnused(flags)) && listAllocOk && dir.Some? &&
            AllLoad(dir.value) && rc == OK ==>
      plugins == Some(Described(Answering(dir.value), sep.value))
  {
    plugins := None;
    if CheckStr(sep) || CheckRp(pluginsSlot) || FlagUnused(flags) {
      return INVALID_ARGUMENT, plugins;
    }
    if !listAllocOk {
      return NO_MEMORY, plugins;
    }
    if dir.None? {
      return INTERNAL_ERROR, plugins;
    }
    var entries := dir.value;
    var list: seq<string> := [];
    rc := OK;
    var i := 0;
    while i < |entries|
      invariant 0 <= i <= |entries|
      invariant Scan(entries[i..], sep.value, rc, list) == Scan(entries, sep.value, OK, [])
    {
      var e := entries[i];
      assert entries[i..][1..] == entries[i + 1..];
      if e.isSocket {
        rc := e.loadRc;
        if rc != OK {
          break;
        }
        rc := e.infoRc;
        if rc == OK {
          list := list + [Describe(e, sep.value)];
        }
      }
      i := i + 1;
    }
    if AllLoad(entries) {
      ScanAnswering(entries, sep.value, OK, []);
      assert [] + Described(Answering(entries), sep.value) == Described(Answering(entries), sep.value);
    }
    if SomeLoadFails(entries) {
      var k :| 0 <= k < |entries| && entries[k].isSocket && entries[k].loadRc != OK;
      ScanLoadFailure(entries, sep.value, OK, [], k);
    }
    if LastInfoFails(entries) {
      var k :| 0 <= k < |entries| && entries[k].isSocket && entries[k].infoRc != OK &&
               forall j :: k < j < |entries| ==> !entries[j].isSocket;
      ScanLastInfoFailure(entries, sep.value, OK, [], k);
    }
    if !closeOk {
      rc := INTERNAL_ERROR;
    }
    if rc == OK {
      plugins := Some(list);
    }
  }
}
