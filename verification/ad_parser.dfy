/** The advertising-data parser of the BLE scanner: AD structures
    (Bluetooth Core Specification Vol 3, Part C, section 11) are a length
    octet, a type octet and `length - 1` value octets; the parser keeps the
    local name (Core Specification Supplement Part A, section 1.2) and the
    TX power level (section 1.5). */
module AdParser {
  import opened Base
  import opened AdvReport

  const AD_NAME_SHORT: byte := 0x08
  const AD_NAME_COMPLETE: byte := 0x09
  const AD_TX_POWER: byte := 0x0A

  /** What the scanner prints for one report. `txPower` means something
      only when `hasTxPower` holds. */
  datatype DeviceData = DeviceData(mac: string, name: string, rssi: int, txPower: int, hasTxPower: bool)

  /** One AD structure: its type and value. */
  datatype Field = Field(adType: byte, value: seq<byte>)

  // ---- Decoding --------------------------------------------------------------

  /** The AD structures from offset `pos`: decoding stops at a zero length
      octet and before a structure that would run past the end. */
  function Fields(data: seq<byte>, pos: nat): (fs: seq<Field>)
    decreases |data| - pos
  {
    if pos >= |data| then []
    else
      var len := data[pos];
      if len == 0 || pos + 1 + len > |data| then []
      else [Field(data[pos + 1], data[pos + 2..pos + 1 + len])] + Fields(data, pos + 1 + len)
  }

  /** The octets a list of structures occupies. */
  function Size(fs: seq<Field>): nat
  {
    if fs == [] then 0 else |fs[0].value| + 2 + Size(fs[1..])
  }

  /** Every octet the decoder reads lies inside the data: the structures it
      returns occupy at most the octets from `pos` on. */
  lemma {:induction false} FieldsInBounds(data: seq<byte>, pos: nat)
    ensures pos <= |data| ==> pos + Size(Fields(data, pos)) <= |data|
    decreases |data| - pos
  {
    if pos < |data| && data[pos] != 0 && pos + 1 + data[pos] <= |data| {
      FieldsInBounds(data, pos + 1 + data[pos]);
    }
  }

  /** What one structure does to the record: a complete name always
      replaces the name, a shortened name only fills an empty one, a TX
      power level with a one-octet value is kept as a signed octet; any
      other structure changes nothing. */
  function ApplyField(dev: DeviceData, f: Field): (r: DeviceData)
    ensures r.mac == dev.mac && r.rssi == dev.rssi
    ensures f.adType == AD_NAME_COMPLETE ==> r == dev.(name := BytesToString(f.value))
    ensures f.adType == AD_NAME_SHORT ==> r == if dev.name == [] then dev.(name := BytesToString(f.value)) else dev
    ensures f.adType == AD_TX_POWER ==>
      r == if |f.value| == 1 then dev.(txPower := SignedByte(f.value[0]), hasTxPower := true) else dev
    ensures f.adType !in {AD_NAME_SHORT, AD_NAME_COMPLETE, AD_TX_POWER} ==> r == dev
  {
    if f.adType == AD_NAME_SHORT || f.adType == AD_NAME_COMPLETE then
      if dev.name == [] || f.adType == AD_NAME_COMPLETE then dev.(name := BytesToString(f.value)) else dev
    else if f.adType == AD_TX_POWER then
      if |f.value| == 1 then dev.(txPower := SignedByte(f.value[0]), hasTxPower := true) else dev
    else dev
  }

  /** The record after the structures, in order. */
  function ApplyAll(dev: DeviceData, fs: seq<Field>): DeviceData
    decreases |fs|
  {
    if fs == [] then dev else ApplyAll(ApplyField(dev, fs[0]), fs[1..])
  }

  /** `parse_ad_data`: the record after the structures of `data`. */
  function ParseAd(data: seq<byte>, dev: DeviceData): DeviceData
  {
    ApplyAll(dev, Fields(data, 0))
  }

  /** The cursor loop. */
  method ParseAdData(data: seq<byte>, dev: DeviceData) returns (d: DeviceData)
    ensures d == ParseAd(data, dev)
  {
    d := dev;
    var pos: nat := 0;
    while pos < |data|
      invariant ApplyAll(d, Fields(data, pos)) == ParseAd(data, dev)
      decreases |data| - pos
    {
      var length := data[pos];
      if length == 0 {
        break;
      }
      if pos + 1 + length > |data| {
        break;
      }
      var adType := data[pos + 1];
      var value := data[pos + 2..pos + 1 + length];
      ghost var before := d;
      if adType == AD_NAME_SHORT || adType == AD_NAME_COMPLETE {
        if d.name == [] || adType == AD_NAME_COMPLETE {
          d := d.(name := BytesToString(value));
        }
      } else if adType == AD_TX_POWER {
        if |value| == 1 {
          d := d.(txPower := SignedByte(value[0]), hasTxPower := true);
        }
      }
      assert d == ApplyField(before, Field(adType, value));
      pos := pos + length + 1;
    }
  }

  // ---- Encoding -------------------------------------------------------------

  /** Structures that can be written: each value fits a length octet. */
  predicate Encodable(fs: seq<Field>)
  {
    forall i :: 0 <= i < |fs| ==> |fs[i].value| <= 254
  }

  /** The octets of one structure: length, type, value. */
  function EncodeField(f: Field): (bs: seq<byte>)
    requires |f.value| <= 254
    ensures |bs| == |f.value| + 2 && bs[0] == |f.value| + 1 && bs[1] == f.adType
  {
    [|f.value| + 1, f.adType] + f.value
  }

  /** The advertising data holding the structures, one after another. */
  function Encode(fs: seq<Field>): (bs: seq<byte>)
    requires Encodable(fs)
    ensures |bs| == Size(fs)
  {
    if fs == [] then [] else EncodeField(fs[0]) + Encode(fs[1..])
  }

  /** Decoding ignores what comes before the offset it starts from. */
  lemma {:induction false} FieldsShift(prefix: seq<byte>, data: seq<byte>, pos: nat)
    ensures Fields(prefix + data, |prefix| + pos) == Fields(data, pos)
    decreases |data| - pos
  {
    var all := prefix + data;
    if pos < |data| {
      assert all[|prefix| + pos] == data[pos];
      var len := data[pos];
      if len != 0 && pos + 1 + len <= |data| {
        assert all[|prefix| + pos + 1] == data[pos + 1];
        assert all[|prefix| + pos + 2..|prefix| + pos + 1 + len] == data[pos + 2..pos + 1 + len];
        FieldsShift(prefix, data, pos + 1 + len);
      }
    }
  }

  /** Decoding an encoded structure followed by any octets gives that
      structure, then what the octets decode to. */
  lemma DecodeEncodeField(f: Field, tail: seq<byte>)
    requires |f.value| <= 254
    ensures Fields(EncodeField(f) + tail, 0) == [f] + Fields(tail, 0)
  {
    var head := EncodeField(f);
    var all := head + tail;
    assert all[0] == |f.value| + 1 && all[1] == f.adType;
    assert all[2..|f.value| + 2] == f.value;
    FieldsShift(head, tail, 0);
  }

  /** Decoding the encoding of some structures followed by any octets gives
      those structures followed by what the octets decode to. */
  lemma {:induction false} DecodeEncode(fs: seq<Field>, rest: seq<byte>)
    requires Encodable(fs)
    ensures Fields(Encode(fs) + rest, 0) == fs + Fields(rest, 0)
    decreases |fs|
  {
    if fs == [] {
      assert Encode(fs) + rest == rest;
    } else {
      DecodeEncodeHead(fs, rest);
      DecodeEncode(fs[1..], rest);
      assert fs == [fs[0]] + fs[1..];
    }
  }

  /** Decoding an encoding reads its first structure, then goes on with the rest's. */
  lemma DecodeEncodeHead(fs: seq<Field>, rest: seq<byte>)
    requires Encodable(fs) && fs != []
    ensures Encodable(fs[1..])
    ensures Fields(Encode(fs) + rest, 0) == [fs[0]] + Fields(Encode(fs[1..]) + rest, 0)
  {
    EncodeCons(fs, rest);
    DecodeEncodeField(fs[0], Encode(fs[1..]) + rest);
  }

  /** The encoding of a non-empty list is its first structure's octets, then the rest's. */
  lemma EncodeCons(fs: seq<Field>, rest: seq<byte>)
    requires Encodable(fs) && fs != []
    ensures Encodable(fs[1..]) && |fs[0].value| <= 254
    ensures Encode(fs) + rest == EncodeField(fs[0]) + (Encode(fs[1..]) + rest)
  {
    assert Encodable(fs[1..]) by {
      forall i | 0 <= i < |fs[1..]| ensures |fs[1..][i].value| <= 254 {
        assert fs[1..][i] == fs[i + 1];
      }
    }
  }

  /** Decoding inverts encoding. */
  lemma RoundTrip(fs: seq<Field>)
    requires Encodable(fs)
    ensures Fields(Encode(fs), 0) == fs
  {
    DecodeEncode(fs, []);
    assert Encode(fs) + [] == Encode(fs);
  }

  /** A zero length octet ends the data: the structures before it are kept
      and nothing after it is read. */
  lemma StopsAtZeroLength(fs: seq<Field>, rest: seq<byte>)
    requires Encodable(fs)
    ensures Fields(Encode(fs) + [0] + rest, 0) == fs
  {
    assert Encode(fs) + [0] + rest == Encode(fs) + ([0] + rest);
    DecodeEncode(fs, [0] + rest);
  }

  /** A structure whose length runs past the end ends the data; the
      structures before it are kept. */
  lemma StopsAtTruncation(fs: seq<Field>, rest: seq<byte>)
    requires Encodable(fs)
    requires rest != [] && 1 + rest[0] > |rest|
    ensures Fields(Encode(fs) + rest, 0) == fs
  {
    DecodeEncode(fs, rest);
    assert fs + [] == fs;
  }

  // ---- What the record ends with ---------------------------------------------

  /** ApplyAll over two lists is ApplyAll over each in turn. */
  lemma {:induction false} ApplyAllAppend(dev: DeviceData, a: seq<Field>, b: seq<Field>)
    ensures ApplyAll(dev, a + b) == ApplyAll(ApplyAll(dev, a), b)
    decreases |a|
  {
    if a == [] {
      assert a + b == b;
    } else {
      assert (a + b)[0] == a[0] && (a + b)[1..] == a[1..] + b;
      ApplyAllAppend(ApplyField(dev, a[0]), a[1..], b);
    }
  }

  /** The MAC and RSSI of the record are never changed by the structures. */
  lemma {:induction false} ApplyAllKeepsIdentity(dev: DeviceData, fs: seq<Field>)
    ensures ApplyAll(dev, fs).mac == dev.mac && ApplyAll(dev, fs).rssi == dev.rssi
    decreases |fs|
  {
    if fs != [] {
      ApplyAllKeepsIdentity(ApplyField(dev, fs[0]), fs[1..]);
    }
  }

  /** A complete name beats every other structure: the record's name is
      the last complete name among the structures, unless that name is
      empty and a shortened name follows it (an empty name is filled by a
      shortened one). */
  lemma {:induction false} LastCompleteNameWins(dev: DeviceData, fs: seq<Field>, i: nat)
    requires i < |fs| && fs[i].adType == AD_NAME_COMPLETE
    requires forall j :: i < j < |fs| ==> fs[j].adType != AD_NAME_COMPLETE
    requires fs[i].value != [] || forall j :: i < j < |fs| ==> fs[j].adType != AD_NAME_SHORT
    ensures ApplyAll(dev, fs).name == BytesToString(fs[i].value)
    decreases |fs|
  {
    assert forall j :: 1 <= j < |fs| ==> fs[j] == fs[1..][j - 1];
    if i == 0 {
      NoCompleteKeepsName(ApplyField(dev, fs[0]), fs[1..], fs[0].value);
    } else {
      LastCompleteNameWins(ApplyField(dev, fs[0]), fs[1..], i - 1);
    }
  }

  /** Without complete names, a non-empty name is never replaced (a
      shortened name only fills an empty one). */
  lemma {:induction false} NoCompleteKeepsName(dev: DeviceData, fs: seq<Field>, v: seq<byte>)
    requires dev.name == BytesToString(v)
    requires forall j :: 0 <= j < |fs| ==> fs[j].adType != AD_NAME_COMPLETE
    requires v != [] || forall j :: 0 <= j < |fs| ==> fs[j].adType != AD_NAME_SHORT
    ensures ApplyAll(dev, fs).name == BytesToString(v)
    decreases |fs|
  {
    if fs != [] {
      assert forall j :: 1 <= j < |fs| ==> fs[j] == fs[1..][j - 1];
      NoCompleteKeepsName(ApplyField(dev, fs[0]), fs[1..], v);
    }
  }

  /** A TX power structure the parser keeps: its value is one octet. */
  predicate IsTxPower(f: Field)
  {
    f.adType == AD_TX_POWER && |f.value| == 1
  }

  /** The TX power level is recorded exactly when some TX power structure
      has a one-octet value, and it is the signed value of the last such. */
  lemma {:induction false} TxPowerRule(dev: DeviceData, fs: seq<Field>)
    ensures ApplyAll(dev, fs).hasTxPower <==> dev.hasTxPower || exists j :: 0 <= j < |fs| && IsTxPower(fs[j])
    ensures forall i :: 0 <= i < |fs| && IsTxPower(fs[i]) && (forall j :: i < j < |fs| ==> !IsTxPower(fs[j])) ==>
      ApplyAll(dev, fs).txPower == SignedByte(fs[i].value[0])
    ensures (forall j :: 0 <= j < |fs| ==> !IsTxPower(fs[j])) ==> ApplyAll(dev, fs).txPower == dev.txPower
    decreases |fs|
  {
    if fs != [] {
      TxPowerRule(ApplyField(dev, fs[0]), fs[1..]);
      assert forall j :: 1 <= j < |fs| ==> fs[j] == fs[1..][j - 1];
    }
  }

  // ---- The scanner's report loop ----------------------------------------------

  /** The record the scanner prints for one report: the address, the
      report's RSSI, no TX power yet, and what the AD data adds. */
  function ReportRecord(r: Report): (d: DeviceData)
    ensures d.mac == Ba2Str(r.addr) && d.rssi == r.rssi
  {
    ApplyAllKeepsIdentity(DeviceData(Ba2Str(r.addr), "", r.rssi, 0, false), Fields(r.data, 0));
    ParseAd(r.data, DeviceData(Ba2Str(r.addr), "", r.rssi, 0, false))
  }

  /** The records of an event, one per report. */
  function EventRecords(buf: seq<byte>): (ds: seq<DeviceData>)
    ensures |ds| == |EventReports(buf)|
    ensures forall i :: 0 <= i < |ds| ==> ds[i] == ReportRecord(EventReports(buf)[i])
  {
    var rs := EventReports(buf);
    seq(|rs|, i requires 0 <= i < |rs| => ReportRecord(rs[i]))
  }

  /** The scanner's handling of one event: each report's record in turn. */
  method ScanEvent(buf: seq<byte>) returns (records: seq<DeviceData>)
    ensures records == EventRecords(buf)
  {
    var reports := AdvertisingReports(buf);
    records := [];
    var i := 0;
    while i < |reports|
      invariant 0 <= i <= |reports|
      invariant records == EventRecords(buf)[..i]
    {
      var r := reports[i];
      var dev := DeviceData(Ba2Str(r.addr), "", r.rssi, 0, false);
      dev := ParseAdData(r.data, dev);
      records := records + [dev];
      i := i + 1;
    }
  }
}
