/** The combined scanner: the device table built from BLE advertising
    reports and classic inquiry results, the vendor lookup in the IEEE OUI
    list, the service summaries made from `sdptool` and `gatttool` output,
    and the truncation of the printed columns. The tool outputs are inputs,
    already split into lines where the program reads them line by line. */
module ScanAll {
  import opened Base
  import opened AdvReport
  import opened AdParser

  const UNKNOWN_NAME: string := "[Unknown]"
  const BLE_TYPE: string := "BLE"
  const CLASSIC_TYPE: string := "BT"

  // ---- The name in an advertisement ----------------------------------------------

  /** The first shortened or complete name among the structures, or "[Unknown]". */
  function FirstName(fs: seq<Field>): (name: string)
    ensures (forall i :: 0 <= i < |fs| ==> fs[i].adType !in {AD_NAME_SHORT, AD_NAME_COMPLETE}) ==> name == UNKNOWN_NAME
    ensures fs != [] && fs[0].adType in {AD_NAME_SHORT, AD_NAME_COMPLETE} ==> name == BytesToString(fs[0].value)
  {
    if fs == [] then UNKNOWN_NAME
    else if fs[0].adType == AD_NAME_SHORT || fs[0].adType == AD_NAME_COMPLETE then BytesToString(fs[0].value)
    else
      assert forall i :: 1 <= i < |fs| ==> fs[i] == fs[1..][i - 1];
      FirstName(fs[1..])
  }

  /** The first name wins: every structure before it is something else. */
  lemma {:induction false} FirstNameIsFirst(fs: seq<Field>, i: nat)
    requires i < |fs| && fs[i].adType in {AD_NAME_SHORT, AD_NAME_COMPLETE}
    requires forall j :: 0 <= j < i ==> fs[j].adType !in {AD_NAME_SHORT, AD_NAME_COMPLETE}
    ensures FirstName(fs) == BytesToString(fs[i].value)
    decreases i
  {
    if i > 0 {
      assert forall j :: 1 <= j < |fs| ==> fs[j] == fs[1..][j - 1];
      FirstNameIsFirst(fs[1..], i - 1);
    }
  }

  /** The name loop of the BLE scan: the same cursor, length and
      truncation stops as the AD parser, leaving at the first name. */
  method ExtractName(data: seq<byte>) returns (name: string)
    ensures name == FirstName(Fields(data, 0))
  {
    name := UNKNOWN_NAME;
    var pos: nat := 0;
    while pos < |data|
      invariant FirstName(Fields(data, pos)) == FirstName(Fields(data, 0))
      decreases |data| - pos
    {
      var len := data[pos];
      if len == 0 {
        break;
      }
      if pos + 1 + len > |data| {
        break;
      }
      var adType := data[pos + 1];
      if adType == AD_NAME_SHORT || adType == AD_NAME_COMPLETE {
        name := BytesToString(data[pos + 2..pos + 1 + len]);
        break;
      }
      pos := pos + len + 1;
    }
  }

  // ---- The device table ---------------------------------------------------------------

  /** One row of the table. */
  datatype DeviceInfo = DeviceInfo(mac: string, name: string, rssi: int, deviceType: string, services: string, vendor: string)

  /** The row after a BLE report: a new device is added as "BLE" with its
      vendor; a known one takes the new RSSI, and the new name unless it is
      "[Unknown]". */
  function MergedBle(old_: Option<DeviceInfo>, mac: string, name: string, rssi: int, vendor: string): (d: DeviceInfo)
    ensures d.rssi == rssi
    ensures old_.None? ==> d == DeviceInfo(mac, name, rssi, BLE_TYPE, "", vendor)
    ensures old_.Some? ==> (d.mac == old_.value.mac && d.deviceType == old_.value.deviceType
                            && d.services == old_.value.services && d.vendor == old_.value.vendor)
    ensures old_.Some? ==> d.name == (if name != UNKNOWN_NAME then name else old_.value.name)
  {
    match old_
    case None => DeviceInfo(mac, name, rssi, BLE_TYPE, "", vendor)
    case Some(e) => e.(rssi := rssi, name := if name != UNKNOWN_NAME then name else e.name)
  }

  /** The row after a classic inquiry result: a new device is added as
      "BT" with RSSI 0; a known one is never replaced, and takes the new
      name only when it is a BLE row and the name is not "[Unknown]". */
  function MergedClassic(old_: Option<DeviceInfo>, mac: string, name: string, vendor: string): (d: DeviceInfo)
    ensures old_.None? ==> d == DeviceInfo(mac, name, 0, CLASSIC_TYPE, "", vendor)
    ensures old_.Some? ==> d == (if old_.value.deviceType == BLE_TYPE && name != UNKNOWN_NAME
                                 then old_.value.(name := name) else old_.value)
  {
    match old_
    case None => DeviceInfo(mac, name, 0, CLASSIC_TYPE, "", vendor)
    case Some(e) => if e.deviceType == BLE_TYPE && name != UNKNOWN_NAME then e.(name := name) else e
  }

  function Lookup(m: map<string, DeviceInfo>, mac: string): Option<DeviceInfo>
  {
    if mac in m then Some(m[mac]) else None
  }

  /** A classic result never turns a row into a classic one, nor changes its RSSI. */
  lemma ClassicKeepsRow(e: DeviceInfo, mac: string, name: string, vendor: string)
    ensures MergedClassic(Some(e), mac, name, vendor).deviceType == e.deviceType
    ensures MergedClassic(Some(e), mac, name, vendor).rssi == e.rssi
    ensures e.deviceType != BLE_TYPE ==> MergedClassic(Some(e), mac, name, vendor) == e
  {
  }

  /** The table of the scan, keyed by the address text. */
  class DeviceTable {
    var devices: map<string, DeviceInfo>

    constructor ()
      ensures devices == map[]
    {
      devices := map[];
    }

    /** The table update for one BLE report; `vendor` is what the vendor
        lookup gives for the address, used only for a new row. */
    method MergeBle(mac: string, name: string, rssi: int, vendor: string)
      modifies this
      ensures devices == old(devices)[mac := MergedBle(Lookup(old(devices), mac), mac, name, rssi, vendor)]
    {
      if mac !in devices {
        devices := devices[mac := DeviceInfo(mac, name, rssi, BLE_TYPE, "", vendor)];
      } else {
        var e := devices[mac];
        e := e.(rssi := rssi);
        if name != UNKNOWN_NAME {
          e := e.(name := name);
        }
        devices := devices[mac := e];
      }
    }

    /** The table update for one classic inquiry result. */
    method MergeClassic(mac: string, name: string, vendor: string)
      modifies this
      ensures devices == old(devices)[mac := MergedClassic(Lookup(old(devices), mac), mac, name, vendor)]
    {
      if mac !in devices {
        devices := devices[mac := DeviceInfo(mac, name, 0, CLASSIC_TYPE, "", vendor)];
      } else if devices[mac].deviceType == BLE_TYPE && name != UNKNOWN_NAME {
        devices := devices[mac := devices[mac].(name := name)];
      }
    }

    /** The BLE scan's handling of one event: each report merged in turn,
        with the name found in its AD data; `vendorOf` gives the vendor
        lookup's answer for an address. */
    method RecordEvent(buf: seq<byte>, vendorOf: string -> string)
      modifies this
      ensures devices == BleRows(old(devices), EventReports(buf), vendorOf)
    {
      var reports := AdvertisingReports(buf);
      var i := 0;
      while i < |reports|
        invariant 0 <= i <= |reports|
        invariant BleRows(devices, reports[i..], vendorOf) == BleRows(old(devices), reports, vendorOf)
      {
        assert reports[i..][1..] == reports[i + 1..];
        var r := reports[i];
        var mac := Ba2Str(r.addr);
        var name := ExtractName(r.data);
        MergeBle(mac, name, r.rssi, vendorOf(mac));
        i := i + 1;
      }
    }

    /** The classic scan: the inquiry length it asks for, then each result
        merged in turn. A result whose remote name cannot be read is named
        "[Unknown]". */
    method ScanClassic(durationSec: int, results: seq<Inquiry>, vendorOf: string -> string) returns (inquiryLength: int)
      modifies this
      ensures inquiryLength == ClampInquiryLength(durationSec)
      ensures devices == ClassicRows(old(devices), results, vendorOf)
    {
      inquiryLength := durationSec;
      if inquiryLength < 1 {
        inquiryLength := 1;
      }
      if inquiryLength > 30 {
        inquiryLength := 30;
      }
      var i := 0;
      while i < |results|
        invariant 0 <= i <= |results|
        invariant ClassicRows(devices, results[i..], vendorOf) == ClassicRows(old(devices), results, vendorOf)
      {
        assert results[i..][1..] == results[i + 1..];
        var res := results[i];
        var mac := Ba2Str(res.addr);
        MergeClassic(mac, InquiryName(res), vendorOf(mac));
        i := i + 1;
      }
    }

    /** The service probe of every row; `outputOf` gives the lines of the
        probe command's output for an address. Each row is probed once and
        the result does not depend on the order of the rows. */
    method ProbeAll(outputOf: string -> seq<string>)
      modifies this
      ensures devices == Probed(old(devices), outputOf)
    {
      var todo := devices.Keys;
      while todo != {}
        invariant todo <= devices.Keys && devices.Keys == old(devices).Keys
        invariant forall mac :: mac in todo ==> devices[mac] == old(devices)[mac]
        invariant forall mac :: mac in devices && mac !in todo ==>
          devices[mac] == old(devices)[mac].(services := Services(old(devices)[mac], outputOf(mac)))
        decreases todo
      {
        var mac :| mac in todo;
        RecordServices(mac, outputOf(mac));
        todo := todo - {mac};
      }
    }

    /** The probe of one row: its service summary, from `sdptool` output
        for a classic row and from `gatttool` output otherwise. */
    method RecordServices(mac: string, lines: seq<string>)
      requires mac in devices
      modifies this
      ensures devices == old(devices)[mac := old(devices)[mac].(services := Services(old(devices)[mac], lines))]
    {
      var d := devices[mac];
      var summary;
      if d.deviceType == CLASSIC_TYPE {
        summary := SummarizeClassic(lines);
      } else {
        summary := SummarizeBle(lines);
      }
      devices := devices[mac := d.(services := summary)];
    }
  }

  /** The table after the service probe: every row keeps its key and
      fields and takes the summary of its tool's output. */
  function Probed(m: map<string, DeviceInfo>, outputOf: string -> seq<string>): (p: map<string, DeviceInfo>)
    ensures p.Keys == m.Keys
    ensures forall mac :: mac in m ==> p[mac] == m[mac].(services := Services(m[mac], outputOf(mac)))
  {
    map mac | mac in m :: m[mac].(services := Services(m[mac], outputOf(mac)))
  }

  /** The table after merging a run of BLE reports. */
  function BleRows(m: map<string, DeviceInfo>, rs: seq<Report>, vendorOf: string -> string): map<string, DeviceInfo>
    decreases |rs|
  {
    if rs == [] then m
    else
      var mac := Ba2Str(rs[0].addr);
      BleRows(m[mac := MergedBle(Lookup(m, mac), mac, FirstName(Fields(rs[0].data, 0)), rs[0].rssi, vendorOf(mac))], rs[1..], vendorOf)
  }

  /** The addresses of a run of reports, as text. */
  function ReportAddrs(rs: seq<Report>): (addrs: set<string>)
    ensures forall i :: 0 <= i < |rs| ==> Ba2Str(rs[i].addr) in addrs
    decreases |rs|
  {
    if rs == [] then {} else {Ba2Str(rs[0].addr)} + ReportAddrs(rs[1..])
  }

  /** Merging reports only adds rows: the rows are those before and one per
      reporting address. */
  lemma {:induction false} BleRowsKeys(m: map<string, DeviceInfo>, rs: seq<Report>, vendorOf: string -> string)
    ensures BleRows(m, rs, vendorOf).Keys == m.Keys + ReportAddrs(rs)
    decreases |rs|
  {
    if rs != [] {
      var mac := Ba2Str(rs[0].addr);
      var m1 := m[mac := MergedBle(Lookup(m, mac), mac, FirstName(Fields(rs[0].data, 0)), rs[0].rssi, vendorOf(mac))];
      BleRowsKeys(m1, rs[1..], vendorOf);
    }
  }

  /** One classic inquiry result: the address and the remote name, when it could be read. */
  datatype Inquiry = Inquiry(addr: Bdaddr, remoteName: Option<string>)

  function InquiryName(res: Inquiry): string
  {
    match res.remoteName
    case None => UNKNOWN_NAME
    case Some(n) => n
  }

  /** The table after merging a run of classic results. */
  function ClassicRows(m: map<string, DeviceInfo>, results: seq<Inquiry>, vendorOf: string -> string): map<string, DeviceInfo>
    decreases |results|
  {
    if results == [] then m
    else
      var mac := Ba2Str(results[0].addr);
      ClassicRows(m[mac := MergedClassic(Lookup(m, mac), mac, InquiryName(results[0]), vendorOf(mac))], results[1..], vendorOf)
  }

  /** A classic scan never changes the type or RSSI of a row that was there. */
  lemma {:induction false} ClassicRowsKeepOld(m: map<string, DeviceInfo>, results: seq<Inquiry>, vendorOf: string -> string, mac: string)
    requires mac in m
    ensures mac in ClassicRows(m, results, vendorOf)
    ensures ClassicRows(m, results, vendorOf)[mac].deviceType == m[mac].deviceType
    ensures ClassicRows(m, results, vendorOf)[mac].rssi == m[mac].rssi
    decreases |results|
  {
    if results != [] {
      var k := Ba2Str(results[0].addr);
      var m1 := m[k := MergedClassic(Lookup(m, k), k, InquiryName(results[0]), vendorOf(k))];
      ClassicRowsKeepOld(m1, results[1..], vendorOf, mac);
    }
  }

  /** The inquiry length: the scan duration clamped to [1, 30]. */
  function ClampInquiryLength(durationSec: int): (len: int)
    ensures 1 <= len <= 30
    ensures 1 <= durationSec <= 30 ==> len == durationSec
    ensures durationSec < 1 ==> len == 1
    ensures durationSec > 30 ==> len == 30
  {
    if durationSec < 1 then 1 else if durationSec > 30 then 30 else durationSec
  }

  // ---- The vendor lookup ---------------------------------------------------------------

  /** The OUI list's form of the first three octets: ':' becomes '-', letters upper case. */
  function OuiPrefix(mac: string): (p: string)
    requires |mac| >= 8
    ensures |p| == 8
    ensures forall i :: 0 <= i < 8 ==> p[i] != ':' && !('a' <= p[i] <= 'z')
    ensures forall i :: 0 <= i < 8 && mac[i] == ':' ==> p[i] == '-'
    ensures forall i :: 0 <= i < 8 && mac[i] != ':' ==> p[i] == UpperChar(mac[i])
  {
    seq(8, i requires 0 <= i < 8 => UpperChar(if mac[i] == ':' then '-' else mac[i]))
  }

  /** The in-place replacement and upper-casing of the first eight characters. */
  method VendorPrefix(mac: string) returns (prefix: string)
    requires |mac| >= 8
    ensures prefix == OuiPrefix(mac)
  {
    prefix := mac[..8];
    var i := 0;
    while i < 8
      invariant 0 <= i <= 8 && |prefix| == 8
      invariant forall j :: 0 <= j < i ==> prefix[j] == if mac[j] == ':' then '-' else mac[j]
      invariant forall j :: i <= j < 8 ==> prefix[j] == mac[j]
    {
      if prefix[i] == ':' {
        prefix := prefix[i := '-'];
      }
      i := i + 1;
    }
    i := 0;
    while i < 8
      invariant 0 <= i <= 8 && |prefix| == 8
      invariant forall j :: 0 <= j < i ==> prefix[j] == OuiPrefix(mac)[j]
      invariant forall j :: i <= j < 8 ==> prefix[j] == if mac[j] == ':' then '-' else mac[j]
    {
      prefix := prefix[i := UpperChar(prefix[i])];
      i := i + 1;
    }
  }

  /** The command that looks the prefix up in the OUI list. */
  function GrepCommand(prefix: string): (cmd: string)
    ensures |cmd| > 10 + |prefix| && cmd[10..10 + |prefix|] == prefix
    ensures cmd[9] == '^'
  {
    "grep -i \"^" + prefix + ".*(hex)\" /usr/share/ieee-data/oui.txt"
  }

  const LEADING_BLANKS: set<char> := {' ', '\t'}
  const TRAILING_BLANKS: set<char> := {' ', '\t', '\n', '\r'}

  /** `find_first_not_of`: the first index whose character is outside `cs`. */
  function FirstNotIn(s: string, cs: set<char>): (r: Option<nat>)
    ensures r.Some? ==> r.value < |s| && s[r.value] !in cs && forall j :: 0 <= j < r.value ==> s[j] in cs
    ensures r.None? ==> forall j :: 0 <= j < |s| ==> s[j] in cs
  {
    if s == [] then None
    else if s[0] !in cs then Some(0)
    else
      match FirstNotIn(s[1..], cs)
      case None => None
      case Some(i) => Some(i + 1)
  }

  /** `find_last_not_of`: the last index whose character is outside `cs`. */
  function LastNotIn(s: string, cs: set<char>): (r: Option<nat>)
    ensures r.Some? ==> r.value < |s| && s[r.value] !in cs && forall j :: r.value < j < |s| ==> s[j] in cs
    ensures r.None? ==> forall j :: 0 <= j < |s| ==> s[j] in cs
  {
    if s == [] then None
    else if s[|s| - 1] !in cs then Some(|s| - 1)
    else LastNotIn(s[..|s| - 1], cs)
  }

  /** The text after the first "(hex)" in the lookup's output, or `None`. */
  function AfterHex(output: string): Option<string>
  {
    match Find(output, "(hex)")
    case None => None
    case Some(p) => Some(output[p + 5..])
  }

  /** The trimming of the text after "(hex)": without leading spaces and
      tabs and without trailing spaces, tabs, CRs and LFs; empty when only
      such blanks are there. */
  function TrimVendor(rest: string): (v: string)
    ensures v != [] ==> v[0] !in LEADING_BLANKS && v[|v| - 1] !in TRAILING_BLANKS
    ensures v == [] <==> forall j :: 0 <= j < |rest| ==> rest[j] in TRAILING_BLANKS
  {
    match FirstNotIn(rest, LEADING_BLANKS)
    case None => ""
    case Some(first) =>
      match LastNotIn(rest, TRAILING_BLANKS)
      case None => ""
      case Some(last) => rest[first..last + 1]
  }

  /** The trimmed vendor is a slice of the text after "(hex)" with only
      leading spaces and tabs before it and only trailing blanks after it. */
  lemma TrimVendorIsSlice(rest: string)
    ensures TrimVendor(rest) != [] ==>
      exists a, b ::
        && 0 <= a < b <= |rest| && TrimVendor(rest) == rest[a..b]
        && (forall j :: 0 <= j < a ==> rest[j] in LEADING_BLANKS)
        && (forall j :: b <= j < |rest| ==> rest[j] in TRAILING_BLANKS)
  {
    var first := FirstNotIn(rest, LEADING_BLANKS);
    var last := LastNotIn(rest, TRAILING_BLANKS);
    if first.Some? && last.Some? {
      assert rest[last.value] !in LEADING_BLANKS;
      assert first.value <= last.value;
      assert TrimVendor(rest) == rest[first.value..last.value + 1];
    }
  }

  /** The vendor in the lookup's output, empty when "(hex)" is missing. */
  function VendorName(output: string): (v: string)
    ensures AfterHex(output).None? ==> v == ""
    ensures AfterHex(output).Some? ==> v == TrimVendor(AfterHex(output).value)
  {
    match AfterHex(output)
    case None => ""
    case Some(rest) => TrimVendor(rest)
  }

  /** `get_vendor`: nothing for an address shorter than 8 characters or an
      empty lookup output, the vendor name otherwise. */
  function Vendor(mac: string, output: string): (v: string)
    ensures |mac| < 8 || output == "" || AfterHex(output).None? ==> v == ""
    ensures |mac| >= 8 && output != "" ==> v == VendorName(output)
  {
    if |mac| < 8 || output == "" then "" else VendorName(output)
  }

  const NPOS: int := 0xFFFF_FFFF_FFFF_FFFF

  /** A count reduced to 64-bit `size_t`: unchanged when it fits, and
      `npos + 1` wraps to 0. */
  function Wrap64(x: int): (r: int)
    ensures 0 <= r <= NPOS
    ensures 0 <= x <= NPOS ==> r == x
    ensures x == NPOS + 1 ==> r == 0
  {
    x % (NPOS + 1)
  }

  /** The trimming as written: `find_last_not_of` yields `npos` when only
      blanks follow, and `last - first + 1` wraps around in 64-bit unsigned
      arithmetic before `substr` clips the count. */
  function TrimVendorAsWritten(rest: string): string
  {
    match FirstNotIn(rest, LEADING_BLANKS)
    case None => ""
    case Some(first) =>
      var last := match LastNotIn(rest, TRAILING_BLANKS) case None => NPOS case Some(l) => l;
      var count := Wrap64(last - first + 1);
      rest[first..if first + count <= |rest| then first + count else |rest|]
  }

  /** Whenever a character other than a blank follows "(hex)", the code as
      written gives the vendor name. */
  lemma VendorAsWrittenAgrees(rest: string)
    requires |rest| < NPOS
    requires exists j :: 0 <= j < |rest| && rest[j] !in TRAILING_BLANKS
    ensures TrimVendorAsWritten(rest) == TrimVendor(rest)
  {
    var j :| 0 <= j < |rest| && rest[j] !in TRAILING_BLANKS;
    assert rest[j] !in LEADING_BLANKS;
    var first := FirstNotIn(rest, LEADING_BLANKS).value;
    var last := LastNotIn(rest, TRAILING_BLANKS).value;
    assert first <= j <= last;
  }

  /** After "(hex)", a space and a line feed: the code as written returns
      the line feed, the intended trimming returns nothing. */
  lemma VendorNewlineOnly()
    ensures TrimVendorAsWritten(" \n") == "\n"
    ensures TrimVendor(" \n") == ""
  {
    assert FirstNotIn(" \n", LEADING_BLANKS) == Some(1);
    assert LastNotIn(" \n", TRAILING_BLANKS) == None;
  }

  // ---- Service summaries -------------------------------------------------------------

  /** What one `sdptool` line adds: for a service name, the text after
      its first ':' and "; "; for a channel, "Ch", the same text and a
      space; both when both appear. */
  function ClassicLinePart(line: string): string
  {
    var colon := Find(line, ":");
    (if Contains(line, "Service Name:") && colon.Some? then line[colon.value + 1..] + "; " else "")
      + (if Contains(line, "Channel:") && colon.Some? then "Ch" + line[colon.value + 1..] + " " else "")
  }

  /** A line holding a key that ends in ':' always has a ':' to cut at,
      so the guard on the second search never fails. */
  lemma KeyLineHasColon(line: string, key: string)
    requires key != [] && key[|key| - 1] == ':' && Contains(line, key)
    ensures Contains(line, ":")
  {
    var p := Find(line, key).value;
    assert line[p + |key| - 1..p + |key|] == [key[|key| - 1]];
    assert ":" <= line[p + |key| - 1..];
  }

  /** A service line always contributes its text and "; ", and a line with
      neither key contributes nothing. */
  lemma ClassicLineRule(line: string)
    ensures Contains(line, "Service Name:") ==>
      Contains(line, ":") && line[Find(line, ":").value + 1..] + "; " <= ClassicLinePart(line)
    ensures !Contains(line, "Service Name:") && !Contains(line, "Channel:") ==> ClassicLinePart(line) == ""
  {
    if Contains(line, "Service Name:") {
      KeyLineHasColon(line, "Service Name:");
    }
  }

  /** The summary of a tool's output: what each line adds, in order. */
  function Summary(lines: seq<string>, part: string -> string): string
    decreases |lines|
  {
    if lines == [] then "" else Summary(lines[..|lines| - 1], part) + part(lines[|lines| - 1])
  }

  function ClassicSummary(lines: seq<string>): string
  {
    Summary(lines, ClassicLinePart)
  }

  method SummarizeClassic(lines: seq<string>) returns (summary: string)
    ensures summary == ClassicSummary(lines)
  {
    summary := "";
    var i := 0;
    while i < |lines|
      invariant 0 <= i <= |lines|
      invariant summary == ClassicSummary(lines[..i])
    {
      assert lines[..i + 1][..i] == lines[..i];
      var part := ClassicLinePart(lines[i]);
      summary := summary + part;
      i := i + 1;
    }
    assert lines[..i] == lines;
  }

  /** `s` with every space removed. */
  function RemoveSpaces(s: string): (r: string)
    ensures |r| <= |s| && ' ' !in r
    ensures (' ' !in s) ==> r == s
  {
    if s == [] then ""
    else (if s[0] == ' ' then "" else [s[0]]) + RemoveSpaces(s[1..])
  }

  /** Removing the spaces keeps the other characters in their order: the
      removal distributes over concatenation. */
  lemma {:induction false} RemoveSpacesAppend(a: string, b: string)
    ensures RemoveSpaces(a + b) == RemoveSpaces(a) + RemoveSpaces(b)
    decreases |a|
  {
    if a == [] {
      assert a + b == b;
    } else {
      assert (a + b)[0] == a[0] && (a + b)[1..] == a[1..] + b;
      RemoveSpacesAppend(a[1..], b);
    }
  }

  /** Removing the spaces drops exactly the spaces: every other character
      stays as often as it was there. */
  lemma {:induction false} RemoveSpacesKeepsOthers(s: string)
    ensures multiset(RemoveSpaces(s)) == multiset(s)[' ' := 0]
    decreases |s|
  {
    if s != [] {
      assert s == [s[0]] + s[1..];
      RemoveSpacesKeepsOthers(s[1..]);
    }
  }

  /** What one `gatttool` line adds: the UUID after "uuid:" with its spaces
      removed, cut to four characters and ".. " when longer, otherwise
      followed by a space. */
  function BleLinePart(line: string): (part: string)
    ensures |part| <= 7
    ensures !Contains(line, "uuid:") ==> part == ""
    ensures Contains(line, "uuid:") ==>
      var uuid := RemoveSpaces(line[Find(line, "uuid:").value + 5..]);
      && (|uuid| > 4 ==> part == uuid[..4] + ".. ")
      && (|uuid| <= 4 ==> part == uuid + " ")
  {
    match Find(line, "uuid:")
    case None => ""
    case Some(p) =>
      var uuid := RemoveSpaces(line[p + 5..]);
      if |uuid| > 4 then uuid[..4] + ".. " else uuid + " "
  }

  function BleSummary(lines: seq<string>): string
  {
    Summary(lines, BleLinePart)
  }

  /** A BLE summary holds at most seven characters per line of output. */
  lemma {:induction false} BleSummaryBound(lines: seq<string>)
    ensures |BleSummary(lines)| <= 7 * |lines|
    decreases |lines|
  {
    if lines != [] {
      BleSummaryBound(lines[..|lines| - 1]);
    }
  }

  method SummarizeBle(lines: seq<string>) returns (summary: string)
    ensures summary == BleSummary(lines)
  {
    summary := "";
    var i := 0;
    while i < |lines|
      invariant 0 <= i <= |lines|
      invariant summary == BleSummary(lines[..i])
    {
      assert lines[..i + 1][..i] == lines[..i];
      var part := BleLinePart(lines[i]);
      summary := summary + part;
      i := i + 1;
    }
    assert lines[..i] == lines;
  }

  /** The probe command for a row: `sdptool` for a classic row,
      `gatttool` under a five-second timeout otherwise. */
  function ProbeCommand(d: DeviceInfo): (cmd: string)
    ensures d.deviceType == CLASSIC_TYPE ==> cmd == "sdptool browse " + d.mac
    ensures d.deviceType != CLASSIC_TYPE ==> cmd == "timeout 5s gatttool -b " + d.mac + " --primary"
  {
    if d.deviceType == CLASSIC_TYPE then "sdptool browse " + d.mac
    else "timeout 5s " + ("gatttool -b " + d.mac + " --primary")
  }

  /** A row's service summary, by its type. */
  function Services(d: DeviceInfo, lines: seq<string>): string
  {
    if d.deviceType == CLASSIC_TYPE then ClassicSummary(lines) else BleSummary(lines)
  }

  /** Summaries of consecutive outputs concatenate. */
  lemma {:induction false} SummaryAppend(a: seq<string>, b: seq<string>, part: string -> string)
    ensures Summary(a + b, part) == Summary(a, part) + Summary(b, part)
    decreases |b|
  {
    if b == [] {
      assert a + b == a;
    } else {
      assert (a + b)[..|a + b| - 1] == a + b[..|b| - 1];
      SummaryAppend(a, b[..|b| - 1], part);
    }
  }

  // ---- Printed columns -----------------------------------------------------------

  /** A column cut to `limit` characters: longer text keeps its first
      `keep` characters and gains "...". */
  function Ellipsize(s: string, limit: nat, keep: nat): (r: string)
    requires keep + 3 <= limit
    ensures |r| <= limit
    ensures |s| <= limit ==> r == s
    ensures |s| > limit ==> r == s[..keep] + "..."
  {
    if |s| > limit then s[..keep] + "..." else s
  }

  /** The vendor column of the device list: at most 30 characters. */
  function ListVendorColumn(vendor: string): (r: string)
    ensures |r| <= 30
    ensures |vendor| <= 30 ==> r == vendor
    ensures |vendor| > 30 ==> r == vendor[..27] + "..."
  {
    Ellipsize(vendor, 30, 27)
  }

  /** The vendor column of the final report: at most 24 characters. */
  function ReportVendorColumn(vendor: string): (r: string)
    ensures |r| <= 24
    ensures |vendor| <= 24 ==> r == vendor
    ensures |vendor| > 24 ==> r == vendor[..21] + "..."
  {
    Ellipsize(vendor, 24, 21)
  }

  /** The name column of the final report: the first 19 characters. */
  function NameColumn(name: string): (r: string)
    ensures |r| <= 19 && r <= name
    ensures |name| <= 19 ==> r == name
    ensures |name| > 19 ==> r == name[..19]
  {
    if |name| <= 19 then name else name[..19]
  }

  /** The services column: line feeds become spaces, then at most 55 characters. */
  function ServicesColumn(services: string): (r: string)
    ensures |r| <= 55 && '\n' !in r
    ensures |services| <= 55 ==> |r| == |services|
    ensures |services| > 55 ==> |r| == 55 && r[52..] == "..."
    ensures forall i :: 0 <= i < |r| && (|services| <= 55 || i < 52) ==>
      r[i] == if services[i] == '\n' then ' ' else services[i]
  {
    Ellipsize(seq(|services|, i requires 0 <= i < |services| => if services[i] == '\n' then ' ' else services[i]), 55, 52)
  }

  /** The in-place replacement of line feeds, then the cut. */
  method CleanServices(services: string) returns (clean: string)
    ensures clean == ServicesColumn(services)
  {
    clean := services;
    var i := 0;
    while i < |clean|
      invariant 0 <= i <= |clean| == |services|
      invariant forall j :: 0 <= j < i ==> clean[j] == if services[j] == '\n' then ' ' else services[j]
      invariant forall j :: i <= j < |clean| ==> clean[j] == services[j]
    {
      if clean[i] == '\n' {
        clean := clean[i := ' '];
      }
      i := i + 1;
    }
    if |clean| > 55 {
      clean := clean[..52] + "...";
    }
  }
}
