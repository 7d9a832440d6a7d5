/**
 * The OS-backed system-info gateway of the codex example: the server address is
 * the first usable IPv4 address among the network interfaces, or the loopback
 * address when there is none. The interface table is an input here.
 */
module OsSystemInfoGateway {
  import opened Wrappers

  /** One address entry of an interface, as the OS reports it. */
  datatype NetworkInterfaceInfo = NetworkInterfaceInfo(address: string, family: string, internal: bool)

  /**
   * The interface table in enumeration order: each interface's name and its
   * entry list, which the OS may leave undefined (None).
   */
  type InterfaceTable = seq<(string, Option<seq<NetworkInterfaceInfo>>)>

  const Loopback := "127.0.0.1"

  /** An entry the gateway may report: IPv4, not internal, with an address. */
  predicate Qualifies(info: NetworkInterfaceInfo) {
    info.family == "IPv4" && !info.internal && info.address != ""
  }

  /** The address of the first qualifying entry of one interface's list. */
  function FirstInList(infos: seq<NetworkInterfaceInfo>): Option<string> {
    if infos == [] then None
    else if Qualifies(infos[0]) then Some(infos[0].address)
    else FirstInList(infos[1..])
  }

  /** The address of the first qualifying entry, interfaces in order, then entries in order. */
  function FirstInTable(table: InterfaceTable): Option<string> {
    if table == [] then None
    else match table[0].1
      case None => FirstInTable(table[1..])
      case Some(infos) =>
        match FirstInList(infos)
        case Some(address) => Some(address)
        case None => FirstInTable(table[1..])
  }

  /** The address `getServerIp()` resolves to for `table`. */
  function ServerIp(table: InterfaceTable): string {
    match FirstInTable(table)
    case Some(address) => address
    case None => Loopback
  }

  /** Entry `j` of interface `i` exists and qualifies. */
  ghost predicate QualifiesAt(table: InterfaceTable, i: int, j: int) {
    && 0 <= i < |table| && table[i].1.Some?
    && 0 <= j < |table[i].1.value| && Qualifies(table[i].1.value[j])
  }

  /** Position (i', j') comes before (i, j) in enumeration order. */
  predicate Before(i': int, j': int, i: int, j: int) {
    i' < i || (i' == i && j' < j)
  }

  /**
   * `getServerIp()`: scans interfaces in order, skips undefined entry lists,
   * returns the first qualifying address, and falls back to the loopback
   * address.
   */
  method GetServerIp(table: InterfaceTable) returns (ip: string)
    ensures ip == ServerIp(table)
  {
    var i := 0;
    while i < |table|
      invariant 0 <= i <= |table|
      invariant FirstInTable(table) == FirstInTable(table[i..])
    {
      var infos := table[i].1;
      if infos.None? {
        assert table[i..][1..] == table[i + 1..];
        i := i + 1;
        continue;
      }
      var list := infos.value;
      var j := 0;
      while j < |list|
        invariant 0 <= j <= |list|
        invariant FirstInList(list) == FirstInList(list[j..])
      {
        var info := list[j];
        if Qualifies(info) {
          return info.address;
        }
        assert list[j..][1..] == list[j + 1..];
        j := j + 1;
      }
      assert table[i..][1..] == table[i + 1..];
      i := i + 1;
    }
    return Loopback;
  }

  /** A list with a qualifying entry yields the first one; a list without one yields nothing. */
  lemma {:induction false} FirstInListIsFirstQualifying(infos: seq<NetworkInterfaceInfo>)
    ensures FirstInList(infos).None? <==> forall j :: 0 <= j < |infos| ==> !Qualifies(infos[j])
    ensures FirstInList(infos).Some? ==>
      exists j :: 0 <= j < |infos| && Qualifies(infos[j])
        && infos[j].address == FirstInList(infos).value
        && forall j' :: 0 <= j' < j ==> !Qualifies(infos[j'])
  {
    if infos != [] && !Qualifies(infos[0]) {
      FirstInListIsFirstQualifying(infos[1..]);
      assert forall j :: 1 <= j < |infos| ==> infos[j] == infos[1..][j - 1];
      if FirstInList(infos).Some? {
        var j :| 0 <= j < |infos[1..]| && Qualifies(infos[1..][j])
          && infos[1..][j].address == FirstInList(infos).value
          && forall j' :: 0 <= j' < j ==> !Qualifies(infos[1..][j']);
        assert infos[j + 1] == infos[1..][j];
        assert forall j' :: 0 <= j' < j + 1 ==> !Qualifies(infos[j']) by {
          forall j' | 0 <= j' < j + 1 ensures !Qualifies(infos[j']) {
            if j' > 0 { assert infos[j'] == infos[1..][j' - 1]; }
          }
        }
      }
    } else if infos != [] {
      assert Qualifies(infos[0]);
    }
  }

  /** No qualifying entry anywhere exactly when the scan finds none. */
  lemma {:induction false} NoneFoundIffNoneQualifies(table: InterfaceTable)
    ensures FirstInTable(table).None? <==> forall i, j :: !QualifiesAt(table, i, j)
  {
    if table != [] {
      NoneFoundIffNoneQualifies(table[1..]);
      forall i, j | QualifiesAt(table[1..], i, j) ensures QualifiesAt(table, i + 1, j) {
        assert table[1..][i] == table[i + 1];
      }
      forall i, j | QualifiesAt(table, i, j) && i > 0 ensures QualifiesAt(table[1..], i - 1, j) {
        assert table[1..][i - 1] == table[i];
      }
      if table[0].1.Some? {
        FirstInListIsFirstQualifying(table[0].1.value);
        if FirstInList(table[0].1.value).Some? {
          var j :| 0 <= j < |table[0].1.value| && Qualifies(table[0].1.value[j]);
          assert QualifiesAt(table, 0, j);
        }
      }
    }
  }

  /**
   * When the scan finds an address, it is the address of a qualifying entry
   * and no qualifying entry comes before that one.
   */
  lemma {:induction false} FoundIsFirstQualifying(table: InterfaceTable)
    requires FirstInTable(table).Some?
    ensures exists i, j ::
              && QualifiesAt(table, i, j)
              && table[i].1.value[j].address == FirstInTable(table).value
              && forall i', j' :: Before(i', j', i, j) ==> !QualifiesAt(table, i', j')
  {
    var found := FirstInTable(table).value;
    if table[0].1.Some? && FirstInList(table[0].1.value).Some? {
      var infos := table[0].1.value;
      FirstInListIsFirstQualifying(infos);
      var j :| 0 <= j < |infos| && Qualifies(infos[j]) && infos[j].address == found
        && forall j' :: 0 <= j' < j ==> !Qualifies(infos[j']);
      assert QualifiesAt(table, 0, j);
      assert forall i', j' :: Before(i', j', 0, j) ==> !QualifiesAt(table, i', j');
    } else {
      var rest := table[1..];
      FoundIsFirstQualifying(rest);
      var i, j :| QualifiesAt(rest, i, j) && rest[i].1.value[j].address == found
        && forall i', j' :: Before(i', j', i, j) ==> !QualifiesAt(rest, i', j');
      assert rest[i] == table[i + 1];
      assert QualifiesAt(table, i + 1, j);
      forall i', j' | Before(i', j', i + 1, j) ensures !QualifiesAt(table, i', j') {
        if i' == 0 {
          if table[0].1.Some? {
            FirstInListIsFirstQualifying(table[0].1.value);
          }
        } else if 0 < i' < |table| {
          assert rest[i' - 1] == table[i'];
          assert !QualifiesAt(rest, i' - 1, j');
        }
      }
    }
  }

  /**
   * The gateway never fails and never returns an empty address: the result is
   * the loopback address or the address of a qualifying entry of the table.
   */
  lemma ServerIpIsTotal(table: InterfaceTable)
    ensures ServerIp(table) != ""
    ensures ServerIp(table) == Loopback
      || exists i, j :: QualifiesAt(table, i, j) && table[i].1.value[j].address == ServerIp(table)
  {
    if FirstInTable(table).Some? {
      FoundIsFirstQualifying(table);
    }
  }

  /** The fallback applies exactly when no entry qualifies, including an empty table. */
  lemma LoopbackWhenNothingQualifies(table: InterfaceTable)
    requires forall i, j :: !QualifiesAt(table, i, j)
    ensures ServerIp(table) == "127.0.0.1"
  {
    NoneFoundIffNoneQualifies(table);
  }

  /** Internal and IPv6 entries are passed over: lo then eth0 with an IPv6 and an IPv4 entry. */
  lemma SkipsInternalAndIpv6()
    ensures ServerIp([
      ("lo", Some([NetworkInterfaceInfo("127.0.0.1", "IPv4", true)])),
      ("eth0", Some([NetworkInterfaceInfo("fe80::1", "IPv6", false),
                     NetworkInterfaceInfo("172.16.0.10", "IPv4", false)]))
    ]) == "172.16.0.10"
  {
  }

  /** An interface whose entry list is undefined is skipped. */
  lemma SkipsUndefinedLists()
    ensures ServerIp([("eth0", None)]) == "127.0.0.1"
    ensures ServerIp([]) == "127.0.0.1"
  {
  }
}
