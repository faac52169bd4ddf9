/** HCI LE Advertising Report events (Bluetooth Core Specification v5.x,
    Vol 4, Part E, section 7.7.65.2) as the daemon and the scanners read
    them: the event header, the reports laid out one after another, the
    textual device address, and the RSSI scan `read_ble_rssi_scan` runs
    over the events that arrive while it listens. */
module AdvReport {
  import opened Base

  /** Offset of the LE Meta subevent code: packet type, event code, parameter length. */
  const SUBEVENT_OFFSET: nat := 3
  /** Offset of the report count; the first report follows it. */
  const NUM_REPORTS_OFFSET: nat := 4
  const FIRST_REPORT_OFFSET: nat := 5
  /** The LE Meta subevent code of an advertising report. */
  const LE_ADVERTISING_REPORT: byte := 0x02
  /** Size of the buffer events are read into. */
  const HCI_MAX_EVENT_SIZE: nat := 260
  /** The RSSI reported when no reading was obtained. */
  const NO_RSSI: int := -255

  /** A Bluetooth device address, least significant octet first. */
  type Bdaddr = a: seq<byte> | |a| == 6 witness [0, 0, 0, 0, 0, 0]

  // ---- ba2str ------------------------------------------------------------

  function HexDigit(n: nat): (c: char)
    requires n < 16
    ensures '0' <= c <= '9' || 'A' <= c <= 'F'
  {
    if n < 10 then ('0' as int + n) as char else ('A' as int + n - 10) as char
  }

  /** An octet as two upper-case hexadecimal digits. */
  function Hex2(b: byte): (s: string)
    ensures |s| == 2
  {
    [HexDigit(b / 16), HexDigit(b % 16)]
  }

  /** The `k`-th character of an address's text: a colon after every two digits. */
  function AddrChar(a: Bdaddr, k: nat): char
    requires k < 17
  {
    if k % 3 == 2 then ':' else Hex2(a[5 - k / 3])[k % 3]
  }

  /** `ba2str`: the address most significant octet first, as
      "XX:XX:XX:XX:XX:XX" with upper-case digits. */
  function Ba2Str(a: Bdaddr): (s: string)
    ensures |s| == 17
  {
    seq(17, k requires 0 <= k < 17 => AddrChar(a, k))
  }

  lemma Hex2Injective(x: byte, y: byte)
    requires Hex2(x) == Hex2(y)
    ensures x == y
  {
    assert Hex2(x)[0] == Hex2(y)[0] && Hex2(x)[1] == Hex2(y)[1];
    assert x / 16 == y / 16 && x % 16 == y % 16;
  }

  /** Two addresses print the same text exactly when they are the same
      address, so comparing `ba2str` output with a configured MAC compares
      addresses. */
  lemma Ba2StrInjective(a: Bdaddr, b: Bdaddr)
    ensures Ba2Str(a) == Ba2Str(b) <==> a == b
  {
    if Ba2Str(a) == Ba2Str(b) {
      forall i | 0 <= i < 6
        ensures a[i] == b[i]
      {
        var k := 3 * (5 - i);
        assert Ba2Str(a)[k] == AddrChar(a, k) && Ba2Str(a)[k + 1] == AddrChar(a, k + 1);
        assert Ba2Str(b)[k] == AddrChar(b, k) && Ba2Str(b)[k + 1] == AddrChar(b, k + 1);
        assert Hex2(a[i]) == Hex2(b[i]);
        Hex2Injective(a[i], b[i]);
      }
    }
  }

  // ---- Reports -----------------------------------------------------------

  /** One advertising report: event type, address type, address, AD data, RSSI. */
  datatype Report = Report(evtType: byte, addrType: byte, addr: Bdaddr, data: seq<byte>, rssi: int8)

  datatype Parsed = Parsed(report: Report, next: nat)

  /** The report starting at offset `o`: evt_type(1), addr_type(1),
      addr(6), length(1), data(length), rssi(1); the next report starts
      10 + length bytes later. `None` when the report does not fit in the
      bytes read. */
  function ReportAt(buf: seq<byte>, o: nat): (r: Option<Parsed>)
    ensures r.Some? <==> o + 9 <= |buf| && o + 10 + buf[o + 8] <= |buf|
    ensures r.Some? ==>
      var len := buf[o + 8];
      && r.value.next == o + 10 + len
      && r.value.report.evtType == buf[o] && r.value.report.addrType == buf[o + 1]
      && r.value.report.addr == buf[o + 2..o + 8]
      && r.value.report.data == buf[o + 9..o + 9 + len]
      && r.value.report.rssi == SignedByte(buf[o + 9 + len])
  {
    if o + 9 > |buf| then None
    else
      var len := buf[o + 8];
      if o + 10 + len > |buf| then None
      else Some(Parsed(Report(buf[o], buf[o + 1], buf[o + 2..o + 8], buf[o + 9..o + 9 + len], SignedByte(buf[o + 9 + len])), o + 10 + len))
  }

  /** Up to `n` reports from offset `o`, stopping at the first that does not fit. */
  function Walk(buf: seq<byte>, o: nat, n: nat): (rs: seq<Report>)
    ensures |rs| <= n
    decreases n
  {
    if n == 0 then []
    else
      match ReportAt(buf, o)
      case None => []
      case Some(p) => [p.report] + Walk(buf, p.next, n - 1)
  }

  /** Whether the event is an LE advertising report with its count present. */
  predicate IsAdvertisingEvent(buf: seq<byte>)
  {
    |buf| > NUM_REPORTS_OFFSET && buf[SUBEVENT_OFFSET] == LE_ADVERTISING_REPORT
  }

  /** The reports of an event, as many as the event says and the bytes read hold. */
  function EventReports(buf: seq<byte>): (rs: seq<Report>)
    ensures IsAdvertisingEvent(buf) ==> |rs| <= buf[NUM_REPORTS_OFFSET]
    ensures !IsAdvertisingEvent(buf) ==> rs == []
  {
    if IsAdvertisingEvent(buf) then Walk(buf, FIRST_REPORT_OFFSET, buf[NUM_REPORTS_OFFSET]) else []
  }

  /** The walk over an event's reports, advancing an offset. */
  method AdvertisingReports(buf: seq<byte>) returns (reports: seq<Report>)
    ensures reports == EventReports(buf)
  {
    reports := [];
    if !IsAdvertisingEvent(buf) {
      return;
    }
    var n := buf[NUM_REPORTS_OFFSET];
    var offset := FIRST_REPORT_OFFSET;
    var i := 0;
    while i < n
      invariant 0 <= i <= n
      invariant reports + Walk(buf, offset, n - i) == EventReports(buf)
    {
      var p := ReportAt(buf, offset);
      if p.None? {
        break;
      }
      reports := reports + [p.value.report];
      offset := p.value.next;
      i := i + 1;
    }
  }

  // ---- Looking for one device -----------------------------------------------

  /** Whether a report comes from the device whose address prints as `target`. */
  predicate From(r: Report, target: string)
  {
    Ba2Str(r.addr) == target
  }

  /** The position of the first report from `target`. */
  function MatchIndex(rs: seq<Report>, target: string): (r: Option<nat>)
    ensures r.Some? ==> r.value < |rs| && From(rs[r.value], target)
    ensures r.Some? ==> forall j :: 0 <= j < r.value ==> !From(rs[j], target)
    ensures r.None? ==> forall j :: 0 <= j < |rs| ==> !From(rs[j], target)
  {
    if rs == [] then None
    else if From(rs[0], target) then Some(0)
    else
      match MatchIndex(rs[1..], target)
      case None => None
      case Some(i) => Some(i + 1)
  }

  /** The RSSI of the first report from `target`. */
  function FirstMatch(rs: seq<Report>, target: string): Option<int8>
  {
    match MatchIndex(rs, target)
    case None => None
    case Some(i) => Some(rs[i].rssi)
  }

  /** There is a match exactly when some report comes from `target`. */
  lemma FirstMatchFound(rs: seq<Report>, target: string)
    ensures FirstMatch(rs, target).Some? <==> exists i :: 0 <= i < |rs| && From(rs[i], target)
  {
  }

  /** The target device's RSSI in an event: any report of the event can match. */
  function ScanMatch(buf: seq<byte>, target: string): Option<int8>
  {
    FirstMatch(EventReports(buf), target)
  }

  /** The first match among up to `k` reports from offset `o`, found
      report by report as the walk goes. */
  function MatchFrom(buf: seq<byte>, o: nat, k: nat, target: string): Option<int8>
    decreases k
  {
    if k == 0 then None
    else
      match ReportAt(buf, o)
      case None => None
      case Some(p) => if From(p.report, target) then Some(p.report.rssi) else MatchFrom(buf, p.next, k - 1, target)
  }

  /** Testing each report as the walk reaches it finds the first match of the walk. */
  lemma {:induction false} MatchFromWalk(buf: seq<byte>, o: nat, k: nat, target: string)
    ensures MatchFrom(buf, o, k, target) == FirstMatch(Walk(buf, o, k), target)
    decreases k
  {
    if k > 0 {
      match ReportAt(buf, o)
      case None =>
      case Some(p) =>
        assert Walk(buf, o, k) == [p.report] + Walk(buf, p.next, k - 1);
        MatchFromWalk(buf, p.next, k - 1, target);
        FirstMatchCons(p.report, Walk(buf, p.next, k - 1), target);
    }
  }

  /** The walk and the address test in one loop, leaving it at the first match. */
  method MatchTarget(buf: seq<byte>, target: string) returns (found: Option<int8>)
    ensures found == ScanMatch(buf, target)
  {
    found := None;
    if !IsAdvertisingEvent(buf) {
      return;
    }
    var n := buf[NUM_REPORTS_OFFSET];
    MatchFromWalk(buf, FIRST_REPORT_OFFSET, n, target);
    var offset := FIRST_REPORT_OFFSET;
    var i := 0;
    while i < n
      invariant 0 <= i <= n
      invariant MatchFrom(buf, offset, n - i, target) == MatchFrom(buf, FIRST_REPORT_OFFSET, n, target)
    {
      var p := ReportAt(buf, offset);
      if p.None? {
        return;
      }
      if From(p.value.report, target) {
        found := Some(p.value.report.rssi);
        return;
      }
      offset := p.value.next;
      i := i + 1;
    }
  }

  /** The first match in a list is its head's RSSI when the head matches,
      and the first match of the rest otherwise. */
  lemma FirstMatchCons(r: Report, rs: seq<Report>, target: string)
    ensures FirstMatch([r] + rs, target) == if From(r, target) then Some(r.rssi) else FirstMatch(rs, target)
  {
    assert ([r] + rs)[1..] == rs;
  }

  // ---- The scan over a run of events ------------------------------------------

  /** What one pass of the listening loop sees. */
  datatype PollOutcome =
    | NoData              // the poll timed out or reported no input
    | PollFailed          // the poll failed
    | ReadFailed          // the read failed with an error other than EAGAIN/EINTR
    | Received(bytes: seq<byte>)

  /** Before position `k` the listening loop neither stopped on an error
      nor heard the target. */
  predicate Undecided(events: seq<PollOutcome>, target: string, k: nat)
    requires k <= |events|
  {
    forall j :: 0 <= j < k ==>
      events[j].NoData? || (events[j].Received? && ScanMatch(events[j].bytes, target).None?)
  }

  /** The RSSI the listening loop ends with: the first event carrying a
      report from `target` decides it; an error or the end of the listening
      time gives the sentinel. */
  function ScanEvents(events: seq<PollOutcome>, target: string): (r: int)
    ensures r == NO_RSSI || -128 <= r < 128
    ensures r != NO_RSSI ==> exists i :: 0 <= i < |events| && events[i].Received? && ScanMatch(events[i].bytes, target) == Some(r)
  {
    if events == [] then NO_RSSI
    else
      match events[0]
      case PollFailed => NO_RSSI
      case ReadFailed => NO_RSSI
      case NoData =>
        var r := ScanEvents(events[1..], target);
        assert forall i :: 1 <= i < |events| ==> events[i] == events[1..][i - 1];
        r
      case Received(bytes) =>
        match ScanMatch(bytes, target)
        case Some(rssi) => rssi
        case None =>
          var r := ScanEvents(events[1..], target);
          assert forall i :: 1 <= i < |events| ==> events[i] == events[1..][i - 1];
          r
  }

  /** Past an undecided first event, the scan goes on with the rest. */
  lemma UndecidedTail(events: seq<PollOutcome>, target: string, k: nat)
    requires 1 <= k <= |events| && Undecided(events, target, k)
    ensures Undecided(events[1..], target, k - 1)
    ensures ScanEvents(events, target) == ScanEvents(events[1..], target)
  {
    forall j | 0 <= j < k - 1
      ensures events[1..][j].NoData? || (events[1..][j].Received? && ScanMatch(events[1..][j].bytes, target).None?)
    {
      assert events[1..][j] == events[j + 1];
    }
  }

  /** The first event that carries a report from the target, with no error
      before it, decides the scan: its RSSI is the result. */
  lemma {:induction false} FirstHeardDecides(events: seq<PollOutcome>, target: string, k: nat)
    requires k < |events| && Undecided(events, target, k)
    requires events[k].Received? && ScanMatch(events[k].bytes, target).Some?
    ensures ScanEvents(events, target) == ScanMatch(events[k].bytes, target).value as int
    decreases k
  {
    if k > 0 {
      UndecidedTail(events, target, k);
      assert events[1..][k - 1] == events[k];
      FirstHeardDecides(events[1..], target, k - 1);
    }
  }

  /** A failed poll or read before the target is heard ends the scan with
      the sentinel. */
  lemma {:induction false} FailureEndsScan(events: seq<PollOutcome>, target: string, k: nat)
    requires k < |events| && Undecided(events, target, k)
    requires events[k].PollFailed? || events[k].ReadFailed?
    ensures ScanEvents(events, target) == NO_RSSI
    decreases k
  {
    if k > 0 {
      UndecidedTail(events, target, k);
      assert events[1..][k - 1] == events[k];
      FailureEndsScan(events[1..], target, k - 1);
    }
  }

  /** No event carries a report from the target. */
  predicate Unheard(events: seq<PollOutcome>, target: string)
  {
    forall i :: 0 <= i < |events| && events[i].Received? ==> ScanMatch(events[i].bytes, target).None?
  }

  /** When no event carries a report from the target, the scan gives the sentinel. */
  lemma {:induction false} NoMatchNoRssi(events: seq<PollOutcome>, target: string)
    requires Unheard(events, target)
    ensures ScanEvents(events, target) == NO_RSSI
    decreases |events|
  {
    if events != [] {
      assert forall i :: 1 <= i < |events| ==> events[i] == events[1..][i - 1];
      NoMatchNoRssi(events[1..], target);
    }
  }

  /** The scan's result and whether it cleaned up (restored the old socket
      filter and disabled scanning). */
  datatype ScanOutcome = ScanOutcome(rssi: int, cleanedUp: bool)

  /** `read_ble_rssi_scan`: a failed filter read or install returns the
      sentinel at once; once the filter is installed, every exit cleans up. */
  function BleRssiScan(getFilterOk: bool, setFilterOk: bool, events: seq<PollOutcome>, target: string): (r: ScanOutcome)
    ensures r.cleanedUp <==> getFilterOk && setFilterOk
    ensures !r.cleanedUp ==> r.rssi == NO_RSSI
    ensures r.rssi == NO_RSSI || -128 <= r.rssi < 128
    ensures r.cleanedUp ==> r.rssi == ScanEvents(events, target)
  {
    if !getFilterOk || !setFilterOk then ScanOutcome(NO_RSSI, false)
    else ScanOutcome(ScanEvents(events, target), true)
  }

  /** The listening loop over the events that arrive. */
  method ReadBleRssiScan(getFilterOk: bool, setFilterOk: bool, events: seq<PollOutcome>, target: string)
    returns (outcome: ScanOutcome)
    ensures outcome == BleRssiScan(getFilterOk, setFilterOk, events, target)
  {
    if !getFilterOk || !setFilterOk {
      return ScanOutcome(NO_RSSI, false);
    }
    var found := NO_RSSI;
    var k := 0;
    while k < |events|
      invariant 0 <= k <= |events|
      invariant ScanEvents(events[k..], target) == ScanEvents(events, target)
    {
      assert events[k..][1..] == events[k + 1..];
      var e := events[k];
      if e.PollFailed? || e.ReadFailed? {
        break;
      }
      if e.Received? {
        var m := MatchTarget(e.bytes, target);
        if m.Some? {
          found := m.value;
          break;
        }
      }
      k := k + 1;
    }
    outcome := ScanOutcome(found, true);
  }

  // ---- The code as written ---------------------------------------------------

  /** The as-written test: an event is searched only when its FIRST report's
      address (bytes 7..12) prints as the target; the reports are then
      searched from the first. */
  function GateAsWritten(buf: seq<byte>, target: string): (r: Option<int8>)
    ensures r.Some? ==> EventReports(buf) != [] && r == Some(EventReports(buf)[0].rssi)
  {
    if |buf| < FIRST_REPORT_OFFSET + 8 || !IsAdvertisingEvent(buf) then None
    else if Ba2Str(buf[FIRST_REPORT_OFFSET + 2..FIRST_REPORT_OFFSET + 8]) != target then None
    else
      var rs := EventReports(buf);
      if rs != [] then
        assert rs[0].addr == buf[FIRST_REPORT_OFFSET + 2..FIRST_REPORT_OFFSET + 8];
        FirstMatch(rs, target)
      else None
  }

  /** An event with two reports, from 06:05:04:03:02:01 (RSSI -60) and from
      16:15:14:13:12:11 (RSSI -80), both without AD data. */
  function TwoReports(): seq<byte>
  {
    [0x04, 0x3E, 22, LE_ADVERTISING_REPORT, 2,
     0, 0, 1, 2, 3, 4, 5, 6, 0, 0xC4,
     0, 0, 0x11, 0x12, 0x13, 0x14, 0x15, 0x16, 0, 0xB0]
  }

  /** The address of the second report of `TwoReports`. */
  const SECOND_ADDR: Bdaddr := [0x11, 0x12, 0x13, 0x14, 0x15, 0x16]

  lemma TwoReportsFirst()
    ensures ReportAt(TwoReports(), 5) == Some(Parsed(Report(0, 0, [1, 2, 3, 4, 5, 6], [], -60), 15))
  {
    var buf := TwoReports();
    assert buf[7..13] == [1, 2, 3, 4, 5, 6] && buf[14..14] == [] && SignedByte(buf[14]) == -60;
  }

  lemma TwoReportsSecond()
    ensures ReportAt(TwoReports(), 15) == Some(Parsed(Report(0, 0, SECOND_ADDR, [], -80), 25))
  {
    var buf := TwoReports();
    assert buf[17..23] == SECOND_ADDR && buf[24..24] == [] && SignedByte(buf[24]) == -80;
  }

  /** The reports of `TwoReports`, in order. */
  lemma TwoReportsWalk()
    ensures EventReports(TwoReports()) ==
      [Report(0, 0, [1, 2, 3, 4, 5, 6], [], -60), Report(0, 0, SECOND_ADDR, [], -80)]
  {
    TwoReportsFirst();
    TwoReportsSecond();
    assert Walk(TwoReports(), 25, 0) == [];
  }

  /** The as-written test misses a device whose report is not the first in
      its event; searching every report finds it. */
  lemma GateMissesSecondReport()
    ensures GateAsWritten(TwoReports(), Ba2Str(SECOND_ADDR)) == None
    ensures ScanMatch(TwoReports(), Ba2Str(SECOND_ADDR)) == Some(-80)
  {
    GateRejectsTwoReports();
    ScanFindsSecondReport();
  }

  lemma GateRejectsTwoReports()
    ensures GateAsWritten(TwoReports(), Ba2Str(SECOND_ADDR)) == None
  {
    var buf := TwoReports();
    assert buf[7..13] == [1, 2, 3, 4, 5, 6];
    Ba2StrInjective(buf[7..13], SECOND_ADDR);
    assert Ba2Str(buf[FIRST_REPORT_OFFSET + 2..FIRST_REPORT_OFFSET + 8]) != Ba2Str(SECOND_ADDR);
  }

  lemma ScanFindsSecondReport()
    ensures ScanMatch(TwoReports(), Ba2Str(SECOND_ADDR)) == Some(-80)
  {
    var rs := EventReports(TwoReports());
    TwoReportsWalk();
    Ba2StrInjective([1, 2, 3, 4, 5, 6], SECOND_ADDR);
    assert !From(rs[0], Ba2Str(SECOND_ADDR)) && From(rs[1], Ba2Str(SECOND_ADDR));
    assert rs[1..] == [rs[1]];
    assert MatchIndex(rs[1..], Ba2Str(SECOND_ADDR)) == Some(0);
  }

  /** The RSSI offsets the as-written walk reads for `n` reports from offset
      `o` of the event buffer `mem`, with no test against the number of
      bytes read (followed while the length byte lies inside the buffer). */
  function RssiOffsetsAsWritten(mem: seq<byte>, o: nat, n: nat): (offs: seq<nat>)
    ensures |offs| <= n
    decreases n
  {
    if n == 0 || o + 9 > |mem| then []
    else [o + 9 + mem[o + 8]] + RssiOffsetsAsWritten(mem, o + 10 + mem[o + 8], n - 1)
  }

  /** A 14-byte event announcing one report whose length byte says 31,
      read into a buffer whose remaining bytes are left over. */
  function TruncatedEvent(): seq<byte>
  {
    [0x04, 0x3E, 11, LE_ADVERTISING_REPORT, 1, 0, 0, 1, 2, 3, 4, 5, 6, 31]
  }

  /** The as-written walk reads the RSSI at offset 45 of an event of which
      14 bytes were read; the bounds-checked walk yields no report. */
  lemma WalkReadsPastEvent()
    ensures var mem := TruncatedEvent() + seq(HCI_MAX_EVENT_SIZE - 14, _ => 0);
      RssiOffsetsAsWritten(mem, FIRST_REPORT_OFFSET, mem[NUM_REPORTS_OFFSET]) == [45]
    ensures 45 >= |TruncatedEvent()|
    ensures EventReports(TruncatedEvent()) == []
  {
    var mem := TruncatedEvent() + seq(HCI_MAX_EVENT_SIZE - 14, _ => 0);
    assert mem[NUM_REPORTS_OFFSET] == 1 && mem[13] == 31;
    assert RssiOffsetsAsWritten(mem, 46, 0) == [];
  }
}
