/** The per-device monitor: a ring buffer of RSSI samples and its average,
    the RFCOMM connection used to read a classic device's RSSI, the lookup
    of the connection handle, the BLE scan, and the keep-alive schedule.
    Every socket, ioctl and controller call is an input: `Radio` holds what
    each would return during one update. */
module DeviceMonitor {
  import opened Base
  import opened AdvReport

  /** The sample recorded when no reading was obtained. */
  const NO_SAMPLE: int := -255
  /** Seconds between two keep-alives on an open RFCOMM stream. */
  const KEEPALIVE_INTERVAL: int := 25
  /** Connections the handle lookup asks the controller for. */
  const MAX_CONNS: nat := 10

  /** The settings a monitor uses. */
  datatype MonitorConfig = MonitorConfig(macAddress: string, channel: int32, bufferSize: int32, isBle: bool)

  /** One entry of the controller's connection list. */
  datatype ConnInfo = ConnInfo(bdaddr: Bdaddr, handle: nat)

  /** What the calls made during one update return. */
  datatype Radio = Radio(
    reopenDevId: int, reopenSocket: int,                          // hci_get_route, hci_open_dev
    getFilterOk: bool, setFilterOk: bool, events: seq<PollOutcome>, // the BLE scan
    newSocket: int, connectStatus: int,                           // socket, connect
    allocOk: bool, ioctlOk: bool, conns: seq<ConnInfo>,           // the connection list
    readOk: bool, reading: int8)                                  // hci_read_rssi

  /** The descriptors a monitor holds. */
  datatype Link = Link(socketFd: int, hciSocket: int, devId: int)

  // ---- Connection handle -----------------------------------------------------

  /** The entries the controller reports: at most ten. */
  function Reported(conns: seq<ConnInfo>): (cs: seq<ConnInfo>)
    ensures |cs| <= MAX_CONNS && cs <= conns
  {
    if |conns| <= MAX_CONNS then conns else conns[..MAX_CONNS]
  }

  /** The position of the first entry whose address prints as `addr`. */
  function ConnIndex(cs: seq<ConnInfo>, addr: string): (r: Option<nat>)
    ensures r.Some? ==> r.value < |cs| && Ba2Str(cs[r.value].bdaddr) == addr
    ensures r.Some? ==> forall j :: 0 <= j < r.value ==> Ba2Str(cs[j].bdaddr) != addr
    ensures r.None? ==> forall j :: 0 <= j < |cs| ==> Ba2Str(cs[j].bdaddr) != addr
  {
    if cs == [] then None
    else if Ba2Str(cs[0].bdaddr) == addr then Some(0)
    else
      match ConnIndex(cs[1..], addr)
      case None => None
      case Some(i) => Some(i + 1)
  }

  /** `get_hci_conn_handle`: -1 for a negative device id, a failed
      allocation, a failed ioctl or an address not in the list; otherwise
      the handle of the first entry with the address. */
  function ConnHandle(devId: int, allocOk: bool, ioctlOk: bool, conns: seq<ConnInfo>, addr: string): (h: int)
    ensures devId < 0 || !allocOk || !ioctlOk ==> h == -1
    ensures h == -1 || exists i :: 0 <= i < |Reported(conns)| && Reported(conns)[i].handle == h
    ensures devId >= 0 && allocOk && ioctlOk ==>
      (ConnIndex(Reported(conns), addr).None? <==> h == -1)
      && (ConnIndex(Reported(conns), addr).Some? ==> h == Reported(conns)[ConnIndex(Reported(conns), addr).value].handle)
  {
    if devId < 0 || !allocOk || !ioctlOk then -1
    else
      match ConnIndex(Reported(conns), addr)
      case None => -1
      case Some(i) => Reported(conns)[i].handle
  }

  /** The lookup as the loop performs it: entry by entry from position `i`. */
  function HandleFrom(cs: seq<ConnInfo>, i: nat, addr: string): int
    decreases |cs| - i
  {
    if i >= |cs| then -1
    else if Ba2Str(cs[i].bdaddr) == addr then cs[i].handle
    else HandleFrom(cs, i + 1, addr)
  }

  /** Looking entry by entry from `i` finds the first matching entry of
      the suffix. */
  lemma {:induction false} HandleFromIndex(cs: seq<ConnInfo>, i: nat, addr: string)
    requires i <= |cs|
    ensures HandleFrom(cs, i, addr) == match ConnIndex(cs[i..], addr) case None => -1 case Some(k) => cs[i + k].handle
    decreases |cs| - i
  {
    if i < |cs| && Ba2Str(cs[i].bdaddr) != addr {
      HandleFromIndex(cs, i + 1, addr);
      assert cs[i..][1..] == cs[i + 1..];
    }
  }

  /** The lookup loop over the reported entries. */
  method GetHciConnHandle(devId: int, allocOk: bool, ioctlOk: bool, conns: seq<ConnInfo>, addr: string)
    returns (h: int)
    ensures h == ConnHandle(devId, allocOk, ioctlOk, conns, addr)
  {
    if devId < 0 || !allocOk || !ioctlOk {
      return -1;
    }
    var cs := Reported(conns);
    HandleFromIndex(cs, 0, addr);
    assert cs[0..] == cs;
    var i := 0;
    while i < |cs|
      invariant 0 <= i <= |cs|
      invariant HandleFrom(cs, i, addr) == HandleFrom(cs, 0, addr)
    {
      if Ba2Str(cs[i].bdaddr) == addr {
        return cs[i].handle;
      }
      i := i + 1;
    }
    return -1;
  }

  // ---- One update's sample -----------------------------------------------------

  /** `disconnect`: an open stream is closed and forgotten. */
  function Disconnected(l: Link): (r: Link)
    ensures r.socketFd < 0 && r.hciSocket == l.hciSocket && r.devId == l.devId
    ensures l.socketFd < 0 ==> r == l
  {
    if l.socketFd >= 0 then l.(socketFd := -1) else l
  }

  /** `connect`: an open stream is kept; otherwise a new socket is made and
      connected, and is given up when the connection fails. */
  function Connected(l: Link, r: Radio): (res: (Link, bool))
    ensures res.1 <==> res.0.socketFd >= 0
    ensures l.socketFd >= 0 ==> res == (l, true)
    ensures res.0.hciSocket == l.hciSocket && res.0.devId == l.devId
  {
    if l.socketFd >= 0 then (l, true)
    else if r.newSocket < 0 then (l.(socketFd := r.newSocket), false)
    else if r.connectStatus < 0 then (l.(socketFd := -1), false)
    else (l.(socketFd := r.newSocket), true)
  }

  /** `read_rssi`: the controller's reading, or `None` when the HCI socket
      is closed, the handle lookup fails or the read fails. */
  function RssiReading(l: Link, mac: string, r: Radio): (v: Option<int8>)
    ensures v.Some? <==> l.hciSocket >= 0 && ConnHandle(l.devId, r.allocOk, r.ioctlOk, r.conns, mac) >= 0 && r.readOk
  {
    if l.hciSocket < 0 then None
    else if ConnHandle(l.devId, r.allocOk, r.ioctlOk, r.conns, mac) < 0 then None
    else if !r.readOk then None
    else Some(r.reading)
  }

  /** The descriptors after one update's RSSI step and the sample it records. */
  function Sample(cfg: MonitorConfig, l: Link, r: Radio): (res: (Link, int))
    ensures res.1 == NO_SAMPLE || -128 <= res.1 < 128
    ensures cfg.isBle ==> res.0.socketFd == l.socketFd
    ensures !cfg.isBle && Connected(l, r).1 && RssiReading(Connected(l, r).0, cfg.macAddress, r).Some? ==>
      res.1 == r.reading as int
    ensures cfg.isBle && (l.hciSocket >= 0 || r.reopenSocket >= 0) ==>
      res.1 == BleRssiScan(r.getFilterOk, r.setFilterOk, r.events, cfg.macAddress).rssi
  {
    if cfg.isBle then
      if l.hciSocket >= 0 then (l, BleRssiScan(r.getFilterOk, r.setFilterOk, r.events, cfg.macAddress).rssi)
      else
        var reopened := l.(devId := r.reopenDevId, hciSocket := r.reopenSocket);
        if r.reopenSocket >= 0 then (reopened, BleRssiScan(r.getFilterOk, r.setFilterOk, r.events, cfg.macAddress).rssi)
        else (reopened, NO_SAMPLE)
    else
      var (c, ok) := Connected(l, r);
      if !ok then (c, NO_SAMPLE)
      else
        match RssiReading(c, cfg.macAddress, r)
        case None => (Disconnected(c), NO_SAMPLE)
        case Some(v) => (c, v)
  }

  /** Every failure path records the sentinel: a classic connection that
      cannot be made, a failed classic read, a BLE adapter still closed
      after the reopen attempt, and a BLE scan that hears no report from
      the device. */
  lemma FailuresRecordSentinel(cfg: MonitorConfig, l: Link, r: Radio)
    ensures !cfg.isBle && !Connected(l, r).1 ==> Sample(cfg, l, r).1 == NO_SAMPLE
    ensures !cfg.isBle && Connected(l, r).1 && RssiReading(Connected(l, r).0, cfg.macAddress, r).None? ==>
      Sample(cfg, l, r).1 == NO_SAMPLE
    ensures cfg.isBle && l.hciSocket < 0 && r.reopenSocket < 0 ==> Sample(cfg, l, r).1 == NO_SAMPLE
    ensures cfg.isBle && (l.hciSocket >= 0 || r.reopenSocket >= 0) && Unheard(r.events, cfg.macAddress) ==>
      Sample(cfg, l, r).1 == NO_SAMPLE
  {
    if cfg.isBle && (l.hciSocket >= 0 || r.reopenSocket >= 0) && Unheard(r.events, cfg.macAddress) {
      NoMatchNoRssi(r.events, cfg.macAddress);
    }
  }

  /** A BLE update whose filter is installed records the RSSI of the first
      event that hears the device, when no error comes before it. */
  lemma BleSampleIsFirstHeard(cfg: MonitorConfig, l: Link, r: Radio, k: nat)
    requires cfg.isBle && (l.hciSocket >= 0 || r.reopenSocket >= 0) && r.getFilterOk && r.setFilterOk
    requires k < |r.events| && Undecided(r.events, cfg.macAddress, k)
    requires r.events[k].Received? && ScanMatch(r.events[k].bytes, cfg.macAddress).Some?
    ensures Sample(cfg, l, r).1 == ScanMatch(r.events[k].bytes, cfg.macAddress).value as int
  {
    FirstHeardDecides(r.events, cfg.macAddress, k);
  }

  /** A failed classic read is the only way an update closes an open stream. */
  lemma OnlyReadFailureCloses(cfg: MonitorConfig, l: Link, r: Radio)
    requires l.socketFd >= 0 && Sample(cfg, l, r).0.socketFd < 0
    ensures !cfg.isBle && RssiReading(l, cfg.macAddress, r).None?
    ensures Sample(cfg, l, r).1 == NO_SAMPLE
  {
  }

  /** `disconnect` twice is `disconnect` once. */
  lemma DisconnectIdempotent(l: Link)
    ensures Disconnected(Disconnected(l)) == Disconnected(l)
  {
  }

  // ---- The samples and their average ---------------------------------------------

  function Sum(s: seq<int>): int
  {
    if s == [] then 0 else Sum(s[..|s| - 1]) + s[|s| - 1]
  }

  /** The average of the buffer: the sum of every slot, sentinels included,
      over the buffer size. */
  function Average(s: seq<int>): real
    requires |s| >= 1
  {
    Sum(s) as real / |s| as real
  }

  lemma {:induction false} SumBounds(s: seq<int>, lo: int, hi: int)
    requires forall i :: 0 <= i < |s| ==> lo <= s[i] <= hi
    ensures |s| * lo <= Sum(s) <= |s| * hi
    decreases |s|
  {
    if s != [] {
      var init := s[..|s| - 1];
      SumBounds(init, lo, hi);
      assert Sum(s) == Sum(init) + s[|s| - 1];
      assert |s| * lo == |init| * lo + lo && |s| * hi == |init| * hi + hi;
    }
  }

  /** With every slot a sample or the sentinel, the average lies between
      the sentinel and the largest signed octet. */
  lemma AverageBounds(s: seq<int>)
    requires |s| >= 1 && forall i :: 0 <= i < |s| ==> NO_SAMPLE <= s[i] < 128
    ensures NO_SAMPLE as real <= Average(s) <= 127.0
  {
    SumBounds(s, NO_SAMPLE, 127);
    var n := |s| as real;
    assert n * (NO_SAMPLE as real) <= Sum(s) as real <= n * 127.0;
  }

  /** A buffer of three slots holding -50 and two sentinels averages -560/3. */
  lemma AverageExample()
    ensures Average([-50, NO_SAMPLE, NO_SAMPLE]) == -560.0 / 3.0
  {
    assert [-50][..0] == [];
    assert Sum([-50]) == -50;
    assert [-50, NO_SAMPLE][..1] == [-50];
    assert Sum([-50, NO_SAMPLE]) == -305;
    assert [-50, NO_SAMPLE, NO_SAMPLE][..2] == [-50, NO_SAMPLE];
    assert Sum([-50, NO_SAMPLE, NO_SAMPLE]) == -560;
  }

  /** The buffer size a monitor uses: at least one slot. */
  function ClampedSize(bufferSize: int32): (n: int32)
    ensures n >= 1 && (bufferSize >= 1 ==> n == bufferSize)
  {
    if bufferSize < 1 then 1 else bufferSize
  }

  /** The RSSI monitor for one configured device. */
  class Monitor {
    const config: MonitorConfig
    const rssiBuffer: array<int>
    var pos: nat
    var socketFd: int
    var hciSocket: int
    var devId: int
    var lastKeepalive: int

    function Descriptors(): Link
      reads this
    {
      Link(socketFd, hciSocket, devId)
    }

    /** The buffer has the configured size, at least one slot, the write
        position lies inside it, and every slot holds a signed reading or
        the sentinel. */
    predicate Valid()
      reads this, rssiBuffer
    {
      && config.bufferSize >= 1 && rssiBuffer.Length == config.bufferSize && pos < rssiBuffer.Length
      && forall i :: 0 <= i < rssiBuffer.Length ==> NO_SAMPLE <= rssiBuffer[i] < 128
    }

    /** A monitor with every slot at the sentinel; `route` and `hciOpen` are
        what `hci_get_route` and `hci_open_dev` return. */
    constructor (cfg: MonitorConfig, route: int, hciOpen: int)
      ensures Valid() && fresh(rssiBuffer)
      ensures config == cfg.(bufferSize := ClampedSize(cfg.bufferSize))
      ensures forall i :: 0 <= i < rssiBuffer.Length ==> rssiBuffer[i] == NO_SAMPLE
      ensures pos == 0 && lastKeepalive == 0
      ensures Descriptors() == Link(-1, hciOpen, route)
    {
      config := cfg.(bufferSize := ClampedSize(cfg.bufferSize));
      rssiBuffer := new int[ClampedSize(cfg.bufferSize)](_ => NO_SAMPLE);
      pos := 0;
      socketFd := -1;
      hciSocket := hciOpen;
      devId := route;
      lastKeepalive := 0;
    }

    method Disconnect()
      modifies this
      ensures Descriptors() == Disconnected(old(Descriptors()))
      ensures pos == old(pos) && lastKeepalive == old(lastKeepalive)
    {
      if socketFd >= 0 {
        socketFd := -1;
      }
    }

    method Connect(r: Radio) returns (ok: bool)
      modifies this
      ensures (Descriptors(), ok) == Connected(old(Descriptors()), r)
      ensures pos == old(pos) && lastKeepalive == old(lastKeepalive)
    {
      if socketFd >= 0 {
        return true;
      }
      socketFd := r.newSocket;
      if socketFd < 0 {
        return false;
      }
      if r.connectStatus < 0 {
        socketFd := -1;
        return false;
      }
      return true;
    }

    /** `read_rssi`: 0 and the reading, or -1 when no reading was obtained. */
    method ReadRssi(r: Radio) returns (status: int, value: int)
      ensures status == 0 || status == -1
      ensures status == 0 <==> RssiReading(Descriptors(), config.macAddress, r).Some?
      ensures status == 0 ==> value == RssiReading(Descriptors(), config.macAddress, r).value
    {
      value := 0;
      if hciSocket < 0 {
        return -1, value;
      }
      var handle := GetHciConnHandle(devId, r.allocOk, r.ioctlOk, r.conns, config.macAddress);
      if handle < 0 {
        return -1, value;
      }
      if !r.readOk {
        return -1, value;
      }
      return 0, r.reading;
    }

    /** The RSSI step of `update`. */
    method Measure(r: Radio) returns (rssi: int)
      modifies this
      ensures (Descriptors(), rssi) == Sample(config, old(Descriptors()), r)
      ensures pos == old(pos) && lastKeepalive == old(lastKeepalive)
    {
      rssi := NO_SAMPLE;
      if config.isBle {
        if hciSocket >= 0 {
          var outcome := ReadBleRssiScan(r.getFilterOk, r.setFilterOk, r.events, config.macAddress);
          rssi := outcome.rssi;
        } else {
          devId := r.reopenDevId;
          hciSocket := r.reopenSocket;
          if hciSocket >= 0 {
            var outcome := ReadBleRssiScan(r.getFilterOk, r.setFilterOk, r.events, config.macAddress);
            rssi := outcome.rssi;
          }
        }
      } else {
        var ok := Connect(r);
        if ok {
          var status, value := ReadRssi(r);
          if status < 0 {
            Disconnect();
            rssi := NO_SAMPLE;
          } else {
            rssi := value;
          }
        } else {
          rssi := NO_SAMPLE;
        }
      }
    }

    /** One update: record this tick's sample in the slot at the write
        position, advance the position around the buffer, and send a
        keep-alive on a classic stream still open when 25 seconds have
        passed since the last one. Returns the sample and whether a
        keep-alive was sent. */
    method Update(r: Radio, now: int) returns (sample: int, keepalive: bool)
      requires Valid()
      modifies this, rssiBuffer
      ensures Valid()
      ensures (Descriptors(), sample) == Sample(config, old(Descriptors()), r)
      ensures rssiBuffer[..] == old(rssiBuffer[..])[old(pos) := sample]
      ensures pos == (old(pos) + 1) % config.bufferSize
      ensures keepalive <==> !config.isBle && socketFd >= 0 && now - old(lastKeepalive) >= KEEPALIVE_INTERVAL
      ensures lastKeepalive == if keepalive then now else old(lastKeepalive)
    {
      sample := Measure(r);
      rssiBuffer[pos] := sample;
      pos := (pos + 1) % config.bufferSize;
      keepalive := false;
      if !config.isBle && socketFd >= 0 {
        if now - lastKeepalive >= KEEPALIVE_INTERVAL {
          keepalive := true;
          lastKeepalive := now;
        }
      }
    }

    /** `get_average_rssi`: the sum of the slots over the buffer size. */
    method GetAverageRssi() returns (avg: real)
      requires Valid()
      ensures avg == Average(rssiBuffer[..])
      ensures NO_SAMPLE as real <= avg <= 127.0
    {
      var sum := 0;
      var i := 0;
      while i < rssiBuffer.Length
        invariant 0 <= i <= rssiBuffer.Length
        invariant sum == Sum(rssiBuffer[..i])
      {
        assert rssiBuffer[..i + 1][..i] == rssiBuffer[..i];
        sum := sum + rssiBuffer[i];
        i := i + 1;
      }
      assert rssiBuffer[..i] == rssiBuffer[..];
      avg := sum as real / config.bufferSize as real;
      AverageBounds(rssiBuffer[..]);
    }
  }

  // ---- The constructor as written ----------------------------------------------

  /** The buffer size and the member size the constructor as written
      leaves: the clamp applies to the parameter, which shadows the member,
      so the buffer has at least one slot while the member keeps the
      configured value. */
  function ConstructedAsWritten(cfg: MonitorConfig): (sizes: (int32, int32))
    ensures sizes.0 == ClampedSize(cfg.bufferSize) && sizes.1 == cfg.bufferSize
  {
    (ClampedSize(cfg.bufferSize), cfg.bufferSize)
  }

  /** `(rssi_buffer_pos + 1) % config.buffer_size` as written: the `int`
      size converts to a 64-bit unsigned value; `None` for a division by zero. */
  function NextPosAsWritten(pos: nat, memberSize: int32): Option<nat>
  {
    if memberSize == 0 then None
    else Some((pos + 1) % (memberSize % 0x1_0000_0000_0000_0000))
  }

  /** `sum / config.buffer_size` as written; `None` for a division by zero. */
  function AverageAsWritten(s: seq<int>, memberSize: int32): Option<real>
  {
    if memberSize == 0 then None else Some(Sum(s) as real / memberSize as real)
  }

  /** With a configured size of -1, the buffer has one slot but the write
      position after the first update is 1, outside it, and the average of
      a -60 sample comes out as +60; with a size of 0 the first update
      divides by zero. The clamped size keeps the position in range and
      gives the true average. */
  lemma UnclampedMemberSize()
    ensures var sizes := ConstructedAsWritten(MonitorConfig("", 1, -1, false));
      sizes == (1, -1) && NextPosAsWritten(0, sizes.1) == Some(1) && AverageAsWritten([-60], sizes.1) == Some(60.0)
    ensures NextPosAsWritten(0, ConstructedAsWritten(MonitorConfig("", 1, 0, false)).1) == None
    ensures (0 + 1) % ClampedSize(-1) == 0 && Average([-60]) == -60.0
  {
    assert [-60][..0] == [];
  }
}
