/** The `KEY=VALUE` configuration file: `ConfigFile::load` as a line parser
    over the file's lines and `ConfigFile::save` as the lines it writes. */
module ConfigFile {
  import opened Base
  import opened IntText

  datatype DeviceConfig = DeviceConfig(mac: string, name: string, isBle: bool, channel: int32)

  datatype GlobalConfig = GlobalConfig(
    lockDistance: int32,
    unlockDistance: int32,
    lockDuration: int32,
    unlockDuration: int32,
    lockCmd: string,
    unlockCmd: string,
    proxCmd: string,
    proxInterval: int32,
    bufferSize: int32,
    debug: bool,
    desktopEnvironment: string,
    display: string,
    xauthority: string,
    devices: seq<DeviceConfig>)

  const DEFAULT_LOCK_CMD: string := "loginctl lock-session"
  const DEFAULT_UNLOCK_CMD: string := "loginctl unlock-session"
  const DEFAULT_PROX_CMD: string := "xset dpms force on"
  const DEVICE_HEADER: string := "[DEVICE]"

  /** The member initialisers of `GlobalConfig`, with the three commands
      that `load` sets before it opens the file. */
  function Defaults(): (c: GlobalConfig)
    ensures c.lockCmd == DEFAULT_LOCK_CMD && c.unlockCmd == DEFAULT_UNLOCK_CMD
    ensures c.proxCmd == DEFAULT_PROX_CMD && c.devices == []
  {
    GlobalConfig(7, 4, 6, 2, DEFAULT_LOCK_CMD, DEFAULT_UNLOCK_CMD, DEFAULT_PROX_CMD,
                 60, 1, false, "", "", "", [])
  }

  /** The device a `[DEVICE]` line starts: channel 1, classic transport. */
  function FreshDevice(): DeviceConfig
  {
    DeviceConfig("", "", false, 1)
  }

  /** `load`'s local variables between two lines. */
  datatype LoadState = LoadState(config: GlobalConfig, current: DeviceConfig, inDevice: bool)

  function InitialState(): LoadState
  {
    LoadState(Defaults(), FreshDevice(), false)
  }

  /** `getline(ss, key, '=')` then `getline(ss, val)`: the key is the text
      before the first '=', the value everything after it. */
  function SplitKeyValue(line: string): (kv: (string, string))
    ensures '=' !in kv.0
    ensures '=' in line ==> kv.0 + "=" + kv.1 == line
    ensures '=' !in line ==> kv == (line, "")
  {
    if line == [] then ([], [])
    else if line[0] == '=' then ([], line[1..])
    else
      var rest := SplitKeyValue(line[1..]);
      assert line == [line[0]] + line[1..];
      ([line[0]] + rest.0, rest.1)
  }

  /** The booleans `debug` and `is_ble`: true exactly for "1" and "true". */
  predicate ParseBool(val: string)
  {
    val == "1" || val == "true"
  }

  /** The configuration `load` keeps so far, including the device being read
      if it has a mac address. */
  function Flush(st: LoadState): (c: GlobalConfig)
    ensures c == st.config.(devices := c.devices)
    ensures c.devices == st.config.devices + (if st.inDevice && st.current.mac != [] then [st.current] else [])
  {
    if st.inDevice && st.current.mac != [] then st.config.(devices := st.config.devices + [st.current])
    else st.config
  }

  /** The keys `load` recognises inside a `[DEVICE]` section. */
  datatype DeviceKey = Mac | Name | Channel | IsBle

  function DeviceKeyName(k: DeviceKey): string
  {
    match k
    case Mac => "mac"
    case Name => "name"
    case Channel => "channel"
    case IsBle => "is_ble"
  }

  /** The device key a line's key text selects, tried in `load`'s order. */
  function ParseDeviceKey(key: string): (r: Option<DeviceKey>)
    ensures r.Some? ==> DeviceKeyName(r.value) == key
    ensures r.None? ==> forall k :: DeviceKeyName(k) != key
  {
    if key == "mac" then Some(Mac)
    else if key == "name" then Some(Name)
    else if key == "channel" then Some(Channel)
    else if key == "is_ble" then Some(IsBle)
    else None
  }

  /** A device key's value stored into the device being read. */
  function SetDeviceField(st: LoadState, k: DeviceKey, val: string): (r: Result<LoadState, StoiError>)
    ensures r.Ok? ==> r.value.config == st.config && r.value.inDevice == st.inDevice
    ensures r.Err? <==> k == Channel && Stoi(val).Err?
  {
    var d := st.current;
    match k
    case Mac => Ok(st.(current := d.(mac := val)))
    case Name => Ok(st.(current := d.(name := val)))
    case Channel =>
      (match Stoi(val)
       case Ok(n) => Ok(st.(current := d.(channel := n)))
       case Err(e) => Err(e))
    case IsBle => Ok(st.(current := d.(isBle := ParseBool(val))))
  }

  /** A `key=value` line inside a `[DEVICE]` section; other keys are ignored. */
  function ApplyDeviceKey(st: LoadState, key: string, val: string): (r: Result<LoadState, StoiError>)
    ensures r.Ok? ==> r.value.config == st.config && r.value.inDevice == st.inDevice
    ensures ParseDeviceKey(key).None? ==> r == Ok(st)
  {
    match ParseDeviceKey(key)
    case None => Ok(st)
    case Some(k) => SetDeviceField(st, k, val)
  }

  /** The keys `load` recognises before the first `[DEVICE]` line. */
  datatype GlobalKey =
    | LockDistance | UnlockDistance | LockDuration | UnlockDuration
    | LockCmd | UnlockCmd | ProxCmd | ProxInterval | BufferSize | Debug
    | DesktopEnvironment | Display | Xauthority
  {
    /** The keys whose value goes through `std::stoi`. */
    predicate IsInt()
    {
      this in {LockDistance, UnlockDistance, LockDuration, UnlockDuration, ProxInterval, BufferSize}
    }
  }

  function GlobalKeyName(k: GlobalKey): string
  {
    match k
    case LockDistance => "lock_distance"
    case UnlockDistance => "unlock_distance"
    case LockDuration => "lock_duration"
    case UnlockDuration => "unlock_duration"
    case LockCmd => "lock_cmd"
    case UnlockCmd => "unlock_cmd"
    case ProxCmd => "prox_cmd"
    case ProxInterval => "prox_interval"
    case BufferSize => "buffer_size"
    case Debug => "debug"
    case DesktopEnvironment => "desktop_environment"
    case Display => "display"
    case Xauthority => "xauthority"
  }

  /** The global key a line's key text selects, tried in `load`'s order. */
  function ParseGlobalKey(key: string): (r: Option<GlobalKey>)
    ensures r.Some? ==> GlobalKeyName(r.value) == key
    ensures r.None? ==> forall k :: GlobalKeyName(k) != key
  {
    if key == "lock_distance" then Some(LockDistance)
    else if key == "unlock_distance" then Some(UnlockDistance)
    else if key == "lock_duration" then Some(LockDuration)
    else if key == "unlock_duration" then Some(UnlockDuration)
    else if key == "lock_cmd" then Some(LockCmd)
    else if key == "unlock_cmd" then Some(UnlockCmd)
    else if key == "prox_cmd" then Some(ProxCmd)
    else if key == "prox_interval" then Some(ProxInterval)
    else if key == "buffer_size" then Some(BufferSize)
    else if key == "debug" then Some(Debug)
    else if key == "desktop_environment" then Some(DesktopEnvironment)
    else if key == "display" then Some(Display)
    else if key == "xauthority" then Some(Xauthority)
    else None
  }

  /** A global key's value stored into the configuration. */
  function SetGlobalField(st: LoadState, k: GlobalKey, val: string): (r: Result<LoadState, StoiError>)
    ensures r.Ok? ==> r.value.current == st.current && r.value.inDevice == st.inDevice
    ensures r.Ok? ==> r.value.config.devices == st.config.devices
    ensures r.Err? <==> k.IsInt() && Stoi(val).Err?
  {
    var c := st.config;
    match k
    case LockDistance =>
      (match Stoi(val) case Ok(n) => Ok(st.(config := c.(lockDistance := n))) case Err(e) => Err(e))
    case UnlockDistance =>
      (match Stoi(val) case Ok(n) => Ok(st.(config := c.(unlockDistance := n))) case Err(e) => Err(e))
    case LockDuration =>
      (match Stoi(val) case Ok(n) => Ok(st.(config := c.(lockDuration := n))) case Err(e) => Err(e))
    case UnlockDuration =>
      (match Stoi(val) case Ok(n) => Ok(st.(config := c.(unlockDuration := n))) case Err(e) => Err(e))
    case LockCmd => Ok(st.(config := c.(lockCmd := val)))
    case UnlockCmd => Ok(st.(config := c.(unlockCmd := val)))
    case ProxCmd => Ok(st.(config := c.(proxCmd := val)))
    case ProxInterval =>
      (match Stoi(val) case Ok(n) => Ok(st.(config := c.(proxInterval := n))) case Err(e) => Err(e))
    case BufferSize =>
      (match Stoi(val) case Ok(n) => Ok(st.(config := c.(bufferSize := n))) case Err(e) => Err(e))
    case Debug => Ok(st.(config := c.(debug := ParseBool(val))))
    case DesktopEnvironment => Ok(st.(config := c.(desktopEnvironment := val)))
    case Display => Ok(st.(config := c.(display := val)))
    case Xauthority => Ok(st.(config := c.(xauthority := val)))
  }

  /** A `key=value` line before the first `[DEVICE]` line; other keys are ignored. */
  function ApplyGlobalKey(st: LoadState, key: string, val: string): (r: Result<LoadState, StoiError>)
    ensures r.Ok? ==> r.value.current == st.current && r.value.inDevice == st.inDevice
    ensures r.Ok? ==> r.value.config.devices == st.config.devices
    ensures ParseGlobalKey(key).None? ==> r == Ok(st)
  {
    match ParseGlobalKey(key)
    case None => Ok(st)
    case Some(k) => SetGlobalField(st, k, val)
  }

  /** One line of the file. */
  function ApplyLine(st: LoadState, line: string): (r: Result<LoadState, StoiError>)
    ensures line == [] || line[0] == '#' ==> r == Ok(st)
    ensures line == DEVICE_HEADER ==> r == Ok(LoadState(Flush(st), FreshDevice(), true))
    ensures st.inDevice && r.Ok? ==> r.value.inDevice && r.value.config.(devices := st.config.devices) == st.config
  {
    if line == [] || line[0] == '#' then Ok(st)
    else if line == DEVICE_HEADER then Ok(LoadState(Flush(st), FreshDevice(), true))
    else
      var (key, val) := SplitKeyValue(line);
      if st.inDevice then ApplyDeviceKey(st, key, val) else ApplyGlobalKey(st, key, val)
  }

  /** The lines from `st` on; the first `std::stoi` that throws ends loading. */
  function LoadFrom(st: LoadState, lines: seq<string>): Result<LoadState, StoiError>
    decreases |lines|
  {
    if lines == [] then Ok(st)
    else
      match ApplyLine(st, lines[0])
      case Err(e) => Err(e)
      case Ok(next) => LoadFrom(next, lines[1..])
  }

  /** The configuration `load` returns for a file given by its lines, or
      `None` when the file cannot be opened. */
  function Loaded(file: Option<seq<string>>): (r: Result<GlobalConfig, StoiError>)
    ensures file.None? ==> r == Ok(Defaults())
  {
    match file
    case None => Ok(Defaults())
    case Some(lines) =>
      match LoadFrom(InitialState(), lines)
      case Err(e) => Err(e)
      case Ok(st) => Ok(Flush(st))
  }

  /** `ConfigFile::load`. */
  method Load(file: Option<seq<string>>) returns (r: Result<GlobalConfig, StoiError>)
    ensures r == Loaded(file)
  {
    var config := Defaults();
    if file.None? {
      return Ok(config);
    }
    var lines := file.value;
    var currentDevice := FreshDevice();
    var inDevice := false;
    var i := 0;
    while i < |lines|
      invariant 0 <= i <= |lines|
      invariant LoadFrom(InitialState(), lines) == LoadFrom(LoadState(config, currentDevice, inDevice), lines[i..])
    {
      var line := lines[i];
      ghost var before := LoadState(config, currentDevice, inDevice);
      assert lines[i..][1..] == lines[i + 1..];
      i := i + 1;
      if line == [] || line[0] == '#' {
        continue;
      }
      if line == DEVICE_HEADER {
        if inDevice && currentDevice.mac != [] {
          config := config.(devices := config.devices + [currentDevice]);
        }
        inDevice := true;
        currentDevice := FreshDevice();
        continue;
      }
      var (key, val) := SplitKeyValue(line);
      if inDevice {
        match ParseDeviceKey(key)
        case None =>
        case Some(Mac) => currentDevice := currentDevice.(mac := val);
        case Some(Name) => currentDevice := currentDevice.(name := val);
        case Some(Channel) =>
          var n :- Stoi(val);
          currentDevice := currentDevice.(channel := n);
        case Some(IsBle) => currentDevice := currentDevice.(isBle := ParseBool(val));
      } else {
        match ParseGlobalKey(key)
        case None =>
        case Some(LockDistance) =>
          var n :- Stoi(val);
          config := config.(lockDistance := n);
        case Some(UnlockDistance) =>
          var n :- Stoi(val);
          config := config.(unlockDistance := n);
        case Some(LockDuration) =>
          var n :- Stoi(val);
          config := config.(lockDuration := n);
        case Some(UnlockDuration) =>
          var n :- Stoi(val);
          config := config.(unlockDuration := n);
        case Some(LockCmd) => config := config.(lockCmd := val);
        case Some(UnlockCmd) => config := config.(unlockCmd := val);
        case Some(ProxCmd) => config := config.(proxCmd := val);
        case Some(ProxInterval) =>
          var n :- Stoi(val);
          config := config.(proxInterval := n);
        case Some(BufferSize) =>
          var n :- Stoi(val);
          config := config.(bufferSize := n);
        case Some(Debug) => config := config.(debug := ParseBool(val));
        case Some(DesktopEnvironment) => config := config.(desktopEnvironment := val);
        case Some(Display) => config := config.(display := val);
        case Some(Xauthority) => config := config.(xauthority := val);
      }
    }
    if inDevice && currentDevice.mac != [] {
      config := config.(devices := config.devices + [currentDevice]);
    }
    return Ok(config);
  }
}

module ConfigFileSave {
  import opened Base
  import opened IntText
  import opened ConfigFile

  function BoolText(b: bool): string
  {
    if b then "true" else "false"
  }

  function KeyLine(key: string, val: string): string
  {
    key + "=" + val
  }

  /** The keys `save` always writes, in its order. */
  const FIXED_KEYS: seq<GlobalKey> :=
    [LockDistance, UnlockDistance, LockDuration, UnlockDuration, LockCmd, UnlockCmd,
     ProxCmd, ProxInterval, BufferSize, Debug]

  /** The text `save` writes for a global field. */
  function GlobalValue(c: GlobalConfig, k: GlobalKey): string
  {
    match k
    case LockDistance => IntToString(c.lockDistance)
    case UnlockDistance => IntToString(c.unlockDistance)
    case LockDuration => IntToString(c.lockDuration)
    case UnlockDuration => IntToString(c.unlockDuration)
    case LockCmd => c.lockCmd
    case UnlockCmd => c.unlockCmd
    case ProxCmd => c.proxCmd
    case ProxInterval => IntToString(c.proxInterval)
    case BufferSize => IntToString(c.bufferSize)
    case Debug => BoolText(c.debug)
    case DesktopEnvironment => c.desktopEnvironment
    case Display => c.display
    case Xauthority => c.xauthority
  }

  /** The keys `save` writes: the fixed ones, then each of the last three
      only when its value is non-empty. */
  function SavedKeys(c: GlobalConfig): (ks: seq<GlobalKey>)
    ensures 10 <= |ks| <= 13 && ks[..10] == FIXED_KEYS
  {
    FIXED_KEYS
    + (if c.desktopEnvironment == [] then [] else [DesktopEnvironment])
    + (if c.display == [] then [] else [Display])
    + (if c.xauthority == [] then [] else [Xauthority])
  }

  function KeyLines(c: GlobalConfig, ks: seq<GlobalKey>): (lines: seq<string>)
    ensures |lines| == |ks|
  {
    if ks == [] then [] else [KeyLine(GlobalKeyName(ks[0]), GlobalValue(c, ks[0]))] + KeyLines(c, ks[1..])
  }

  /** The global section, in `save`'s order. */
  function GlobalLines(c: GlobalConfig): seq<string>
  {
    KeyLines(c, SavedKeys(c))
  }

  /** The device keys `save` writes, in its order. */
  const DEVICE_KEYS: seq<DeviceKey> := [Mac, Name, Channel, IsBle]

  /** The text `save` writes for a device field. */
  function DeviceValue(d: DeviceConfig, k: DeviceKey): string
  {
    match k
    case Mac => d.mac
    case Name => d.name
    case Channel => IntToString(d.channel)
    case IsBle => BoolText(d.isBle)
  }

  function DeviceLines(d: DeviceConfig, ks: seq<DeviceKey>): (lines: seq<string>)
    ensures |lines| == |ks|
  {
    if ks == [] then [] else [KeyLine(DeviceKeyName(ks[0]), DeviceValue(d, ks[0]))] + DeviceLines(d, ks[1..])
  }

  /** The four `key=value` lines `save` writes for a device. */
  function DeviceKeyLines(d: DeviceConfig): seq<string>
  {
    DeviceLines(d, DEVICE_KEYS)
  }

  /** `"\n[DEVICE]\n"` and the four device keys: an empty line, the header, four keys. */
  function DeviceBlock(d: DeviceConfig): seq<string>
  {
    ["", DEVICE_HEADER] + DeviceKeyLines(d)
  }

  function DeviceBlocks(ds: seq<DeviceConfig>): (lines: seq<string>)
    ensures |lines| == 6 * |ds|
  {
    if ds == [] then [] else DeviceBlock(ds[0]) + DeviceBlocks(ds[1..])
  }

  /** `ConfigFile::save`: the lines of the file it writes. */
  function Save(c: GlobalConfig): (lines: seq<string>)
    ensures 10 <= |lines| - 6 * |c.devices| <= 13
  {
    GlobalLines(c) + DeviceBlocks(c.devices)
  }

  /** A line in the text file is what lies between two '\n'; a value that
      itself holds a '\n' would be split in two when read back. */
  predicate NoNewline(s: string)
  {
    '\n' !in s
  }

  /** The configurations `save` writes in a form `load` reads back unchanged:
      every device has a mac address (`load` drops devices without one) and
      no string value spans a line break. */
  predicate Saveable(c: GlobalConfig)
  {
    && (forall d :: d in c.devices ==> d.mac != [] && NoNewline(d.mac) && NoNewline(d.name))
    && NoNewline(c.lockCmd) && NoNewline(c.unlockCmd) && NoNewline(c.proxCmd)
    && NoNewline(c.desktopEnvironment) && NoNewline(c.display) && NoNewline(c.xauthority)
  }

  lemma {:induction false} SplitKeyLine(key: string, val: string)
    requires '=' !in key
    ensures SplitKeyValue(KeyLine(key, val)) == (key, val)
  {
    if key != [] {
      assert KeyLine(key, val)[1..] == KeyLine(key[1..], val);
      SplitKeyLine(key[1..], val);
      assert [key[0]] + key[1..] == key;
    } else {
      assert KeyLine(key, val)[1..] == val;
    }
  }

  /** A `key=value` line reaches the key dispatch of the section `load` is in. */
  lemma ApplyKeyLine(st: LoadState, key: string, val: string)
    requires '=' !in key && key != [] && key[0] != '#'
    ensures ApplyLine(st, KeyLine(key, val))
         == if st.inDevice then ApplyDeviceKey(st, key, val) else ApplyGlobalKey(st, key, val)
  {
    var line := KeyLine(key, val);
    assert line[|key|] == '=';
    assert '=' !in DEVICE_HEADER;
    assert line[0] == key[0];
    SplitKeyLine(key, val);
  }

  lemma LoadKeyLineAt(st: LoadState, lines: seq<string>, k: nat, key: string, val: string, next: LoadState)
    requires k < |lines| && lines[k] == KeyLine(key, val)
    requires '=' !in key && key != [] && key[0] != '#'
    requires (if st.inDevice then ApplyDeviceKey(st, key, val) else ApplyGlobalKey(st, key, val)) == Ok(next)
    ensures LoadFrom(st, lines[k..]) == LoadFrom(next, lines[k + 1..])
  {
    ApplyKeyLine(st, key, val);
    assert lines[k..][1..] == lines[k + 1..];
  }

  lemma {:induction false} LoadFromAppend(st: LoadState, a: seq<string>, b: seq<string>)
    ensures LoadFrom(st, a + b)
         == match LoadFrom(st, a) case Err(e) => Err(e) case Ok(s) => LoadFrom(s, b)
    decreases |a|
  {
    if a == [] {
      assert a + b == b;
    } else {
      assert (a + b)[0] == a[0];
      assert (a + b)[1..] == a[1..] + b;
      match ApplyLine(st, a[0])
      case Err(_) =>
      case Ok(next) => LoadFromAppend(next, a[1..], b);
    }
  }

  /** Every global key name is a well-formed key: non-empty, no '=', not a comment. */
  lemma GlobalKeyNameShape(k: GlobalKey)
    ensures '=' !in GlobalKeyName(k) && GlobalKeyName(k) != [] && GlobalKeyName(k)[0] != '#'
  {
  }

  /** `load` selects exactly the key whose name `save` wrote. */
  lemma ParseGlobalKeyName(k: GlobalKey)
    ensures ParseGlobalKey(GlobalKeyName(k)) == Some(k)
  {
  }

  /** The configuration `base` with `k`'s field taken from `c`. */
  function CopyGlobal(base: GlobalConfig, c: GlobalConfig, k: GlobalKey): GlobalConfig
  {
    match k
    case LockDistance => base.(lockDistance := c.lockDistance)
    case UnlockDistance => base.(unlockDistance := c.unlockDistance)
    case LockDuration => base.(lockDuration := c.lockDuration)
    case UnlockDuration => base.(unlockDuration := c.unlockDuration)
    case LockCmd => base.(lockCmd := c.lockCmd)
    case UnlockCmd => base.(unlockCmd := c.unlockCmd)
    case ProxCmd => base.(proxCmd := c.proxCmd)
    case ProxInterval => base.(proxInterval := c.proxInterval)
    case BufferSize => base.(bufferSize := c.bufferSize)
    case Debug => base.(debug := c.debug)
    case DesktopEnvironment => base.(desktopEnvironment := c.desktopEnvironment)
    case Display => base.(display := c.display)
    case Xauthority => base.(xauthority := c.xauthority)
  }

  lemma CopyGlobalFields(base: GlobalConfig, c: GlobalConfig, k: GlobalKey, r: GlobalConfig)
    requires r == CopyGlobal(base, c, k)
    ensures r.lockDistance == if k == LockDistance then c.lockDistance else base.lockDistance
    ensures r.unlockDistance == if k == UnlockDistance then c.unlockDistance else base.unlockDistance
    ensures r.lockDuration == if k == LockDuration then c.lockDuration else base.lockDuration
    ensures r.unlockDuration == if k == UnlockDuration then c.unlockDuration else base.unlockDuration
    ensures r.lockCmd == if k == LockCmd then c.lockCmd else base.lockCmd
    ensures r.unlockCmd == if k == UnlockCmd then c.unlockCmd else base.unlockCmd
    ensures r.proxCmd == if k == ProxCmd then c.proxCmd else base.proxCmd
    ensures r.proxInterval == if k == ProxInterval then c.proxInterval else base.proxInterval
    ensures r.bufferSize == if k == BufferSize then c.bufferSize else base.bufferSize
    ensures r.debug == if k == Debug then c.debug else base.debug
    ensures r.desktopEnvironment == if k == DesktopEnvironment then c.desktopEnvironment else base.desktopEnvironment
    ensures r.display == if k == Display then c.display else base.display
    ensures r.xauthority == if k == Xauthority then c.xauthority else base.xauthority
    ensures r.devices == base.devices
  {
  }

  /** `base` with the fields of `ks` taken from `c`, in order. */
  function CopyGlobals(base: GlobalConfig, c: GlobalConfig, ks: seq<GlobalKey>): GlobalConfig
    decreases |ks|
  {
    if ks == [] then base else CopyGlobals(CopyGlobal(base, c, ks[0]), c, ks[1..])
  }

  /** After copying the fields of `ks`, a field whose key is in `ks` comes
      from `c` and every other field from `base` (in three groups of fields). */
  lemma {:induction false} CopyGlobalsNumbers(base: GlobalConfig, c: GlobalConfig, ks: seq<GlobalKey>, r: GlobalConfig)
    requires r == CopyGlobals(base, c, ks)
    ensures r.lockDistance == if LockDistance in ks then c.lockDistance else base.lockDistance
    ensures r.unlockDistance == if UnlockDistance in ks then c.unlockDistance else base.unlockDistance
    ensures r.lockDuration == if LockDuration in ks then c.lockDuration else base.lockDuration
    ensures r.unlockDuration == if UnlockDuration in ks then c.unlockDuration else base.unlockDuration
    ensures r.proxInterval == if ProxInterval in ks then c.proxInterval else base.proxInterval
    ensures r.bufferSize == if BufferSize in ks then c.bufferSize else base.bufferSize
    decreases |ks|
  {
    if ks != [] {
      var b1 := CopyGlobal(base, c, ks[0]);
      CopyGlobalFields(base, c, ks[0], b1);
      CopyGlobalsNumbers(b1, c, ks[1..], r);
      assert forall k :: k in ks <==> k == ks[0] || k in ks[1..];
    }
  }

  lemma {:induction false} CopyGlobalsCommands(base: GlobalConfig, c: GlobalConfig, ks: seq<GlobalKey>, r: GlobalConfig)
    requires r == CopyGlobals(base, c, ks)
    ensures r.lockCmd == if LockCmd in ks then c.lockCmd else base.lockCmd
    ensures r.unlockCmd == if UnlockCmd in ks then c.unlockCmd else base.unlockCmd
    ensures r.proxCmd == if ProxCmd in ks then c.proxCmd else base.proxCmd
    ensures r.debug == if Debug in ks then c.debug else base.debug
    decreases |ks|
  {
    if ks != [] {
      var b1 := CopyGlobal(base, c, ks[0]);
      CopyGlobalFields(base, c, ks[0], b1);
      CopyGlobalsCommands(b1, c, ks[1..], r);
      assert forall k :: k in ks <==> k == ks[0] || k in ks[1..];
    }
  }

  lemma {:induction false} CopyGlobalsSession(base: GlobalConfig, c: GlobalConfig, ks: seq<GlobalKey>, r: GlobalConfig)
    requires r == CopyGlobals(base, c, ks)
    ensures r.desktopEnvironment == if DesktopEnvironment in ks then c.desktopEnvironment else base.desktopEnvironment
    ensures r.display == if Display in ks then c.display else base.display
    ensures r.xauthority == if Xauthority in ks then c.xauthority else base.xauthority
    ensures r.devices == base.devices
    decreases |ks|
  {
    if ks != [] {
      var b1 := CopyGlobal(base, c, ks[0]);
      CopyGlobalFields(base, c, ks[0], b1);
      CopyGlobalsSession(b1, c, ks[1..], r);
      assert forall k :: k in ks <==> k == ks[0] || k in ks[1..];
    }
  }

  /** Reading back the value `save` wrote for `k` restores `k`'s field. */
  lemma SetGlobalFieldValue(c: GlobalConfig, st: LoadState, k: GlobalKey)
    ensures SetGlobalField(st, k, GlobalValue(c, k)) == Ok(st.(config := CopyGlobal(st.config, c, k)))
  {
    match k
    case LockDistance => StoiOfIntToString(c.lockDistance);
    case UnlockDistance => StoiOfIntToString(c.unlockDistance);
    case LockDuration => StoiOfIntToString(c.lockDuration);
    case UnlockDuration => StoiOfIntToString(c.unlockDuration);
    case ProxInterval => StoiOfIntToString(c.proxInterval);
    case BufferSize => StoiOfIntToString(c.bufferSize);
    case Debug => assert ParseBool(BoolText(c.debug)) == c.debug;
    case _ =>
  }

  /** Reading back the line `save` wrote for `k` restores `k`'s field. */
  lemma GlobalKeyLineLoad(c: GlobalConfig, st: LoadState, k: GlobalKey, rest: seq<string>)
    requires !st.inDevice
    ensures LoadFrom(st, [KeyLine(GlobalKeyName(k), GlobalValue(c, k))] + rest)
         == LoadFrom(st.(config := CopyGlobal(st.config, c, k)), rest)
  {
    var lines := [KeyLine(GlobalKeyName(k), GlobalValue(c, k))] + rest;
    GlobalKeyNameShape(k);
    ParseGlobalKeyName(k);
    SetGlobalFieldValue(c, st, k);
    LoadKeyLineAt(st, lines, 0, GlobalKeyName(k), GlobalValue(c, k), st.(config := CopyGlobal(st.config, c, k)));
    assert lines[0..] == lines && lines[1..] == rest;
  }

  /** Reading back the key lines of `ks` restores their fields, in order. */
  lemma {:induction false} KeyLinesLoad(c: GlobalConfig, st: LoadState, ks: seq<GlobalKey>, rest: seq<string>)
    requires !st.inDevice
    ensures LoadFrom(st, KeyLines(c, ks) + rest) == LoadFrom(st.(config := CopyGlobals(st.config, c, ks)), rest)
    decreases |ks|
  {
    if ks == [] {
      assert KeyLines(c, ks) + rest == rest;
    } else {
      var k := ks[0];
      var next := st.(config := CopyGlobal(st.config, c, k));
      assert KeyLines(c, ks) + rest == [KeyLine(GlobalKeyName(k), GlobalValue(c, k))] + (KeyLines(c, ks[1..]) + rest);
      GlobalKeyLineLoad(c, st, k, KeyLines(c, ks[1..]) + rest);
      KeyLinesLoad(c, next, ks[1..], rest);
    }
  }

  /** `save` writes every fixed key. */
  lemma SavedFixedKeys(c: GlobalConfig)
    ensures forall k :: k in FIXED_KEYS ==> k in SavedKeys(c)
  {
    var ks := SavedKeys(c);
    assert ks == FIXED_KEYS + ks[10..];
  }

  /** `save` writes an optional key exactly when its value is non-empty. */
  lemma SavedOptionalKeys(c: GlobalConfig)
    ensures DesktopEnvironment in SavedKeys(c) <==> c.desktopEnvironment != []
    ensures Display in SavedKeys(c) <==> c.display != []
    ensures Xauthority in SavedKeys(c) <==> c.xauthority != []
  {
    var o1: seq<GlobalKey> := if c.desktopEnvironment == [] then [] else [DesktopEnvironment];
    var o2: seq<GlobalKey> := if c.display == [] then [] else [Display];
    var o3: seq<GlobalKey> := if c.xauthority == [] then [] else [Xauthority];
    assert SavedKeys(c) == FIXED_KEYS + o1 + o2 + o3;
    assert forall k :: k in SavedKeys(c) <==> k in FIXED_KEYS || k in o1 || k in o2 || k in o3;
  }

  /** Copying the saved fields onto the defaults rebuilds every global field:
      the three optional fields `save` leaves out are empty, as in the defaults. */
  lemma CopySavedGlobals(c: GlobalConfig)
    ensures CopyGlobals(Defaults(), c, SavedKeys(c)) == c.(devices := [])
  {
    var ks := SavedKeys(c);
    var r := CopyGlobals(Defaults(), c, ks);
    CopyGlobalsNumbers(Defaults(), c, ks, r);
    CopyGlobalsCommands(Defaults(), c, ks, r);
    CopyGlobalsSession(Defaults(), c, ks, r);
    SavedFixedKeys(c);
    SavedOptionalKeys(c);
  }

  /** Reading back the global section rebuilds every global field. */
  lemma GlobalLinesLoad(c: GlobalConfig)
    ensures LoadFrom(InitialState(), GlobalLines(c)) == Ok(LoadState(c.(devices := []), FreshDevice(), false))
  {
    KeyLinesLoad(c, InitialState(), SavedKeys(c), []);
    assert GlobalLines(c) + [] == GlobalLines(c);
    CopySavedGlobals(c);
  }

  /** Every device key name is a well-formed key: non-empty, no '=', not a comment. */
  lemma DeviceKeyNameShape(k: DeviceKey)
    ensures '=' !in DeviceKeyName(k) && DeviceKeyName(k) != [] && DeviceKeyName(k)[0] != '#'
  {
  }

  /** `load` selects exactly the device key whose name `save` wrote. */
  lemma ParseDeviceKeyName(k: DeviceKey)
    ensures ParseDeviceKey(DeviceKeyName(k)) == Some(k)
  {
  }

  /** The device `base` with `k`'s field taken from `d`. */
  function CopyDevice(base: DeviceConfig, d: DeviceConfig, k: DeviceKey): (r: DeviceConfig)
    ensures r.mac == if k == Mac then d.mac else base.mac
    ensures r.name == if k == Name then d.name else base.name
    ensures r.channel == if k == Channel then d.channel else base.channel
    ensures r.isBle == if k == IsBle then d.isBle else base.isBle
  {
    match k
    case Mac => base.(mac := d.mac)
    case Name => base.(name := d.name)
    case Channel => base.(channel := d.channel)
    case IsBle => base.(isBle := d.isBle)
  }

  /** `base` with the fields of `ks` taken from `d`: a field whose key is in
      `ks` comes from `d`, every other field from `base`. */
  function CopyDevices(base: DeviceConfig, d: DeviceConfig, ks: seq<DeviceKey>): (r: DeviceConfig)
    ensures r.mac == if Mac in ks then d.mac else base.mac
    ensures r.name == if Name in ks then d.name else base.name
    ensures r.channel == if Channel in ks then d.channel else base.channel
    ensures r.isBle == if IsBle in ks then d.isBle else base.isBle
    decreases |ks|
  {
    if ks == [] then base else CopyDevices(CopyDevice(base, d, ks[0]), d, ks[1..])
  }

  /** Reading back the value `save` wrote for `k` restores `k`'s field. */
  lemma SetDeviceFieldValue(d: DeviceConfig, st: LoadState, k: DeviceKey)
    ensures SetDeviceField(st, k, DeviceValue(d, k)) == Ok(st.(current := CopyDevice(st.current, d, k)))
  {
    match k
    case Channel => StoiOfIntToString(d.channel);
    case IsBle => assert ParseBool(BoolText(d.isBle)) == d.isBle;
    case _ =>
  }

  /** Reading back the line `save` wrote for device key `k` restores its field. */
  lemma DeviceKeyLineLoad(d: DeviceConfig, st: LoadState, k: DeviceKey, rest: seq<string>)
    requires st.inDevice
    ensures LoadFrom(st, [KeyLine(DeviceKeyName(k), DeviceValue(d, k))] + rest)
         == LoadFrom(st.(current := CopyDevice(st.current, d, k)), rest)
  {
    var lines := [KeyLine(DeviceKeyName(k), DeviceValue(d, k))] + rest;
    DeviceKeyNameShape(k);
    ParseDeviceKeyName(k);
    SetDeviceFieldValue(d, st, k);
    LoadKeyLineAt(st, lines, 0, DeviceKeyName(k), DeviceValue(d, k), st.(current := CopyDevice(st.current, d, k)));
    assert lines[0..] == lines && lines[1..] == rest;
  }

  /** Reading back the device key lines of `ks` restores their fields, in order. */
  lemma {:induction false} DeviceLinesLoad(d: DeviceConfig, st: LoadState, ks: seq<DeviceKey>)
    requires st.inDevice
    ensures LoadFrom(st, DeviceLines(d, ks)) == Ok(st.(current := CopyDevices(st.current, d, ks)))
    decreases |ks|
  {
    if ks != [] {
      var k := ks[0];
      assert DeviceLines(d, ks) == [KeyLine(DeviceKeyName(k), DeviceValue(d, k))] + DeviceLines(d, ks[1..]);
      DeviceKeyLineLoad(d, st, k, DeviceLines(d, ks[1..]));
      DeviceLinesLoad(d, st.(current := CopyDevice(st.current, d, k)), ks[1..]);
    }
  }

  /** Reading back one device block flushes the device read before it and
      makes this device the current one. */
  lemma DeviceBlockLoad(st: LoadState, d: DeviceConfig)
    ensures LoadFrom(st, DeviceBlock(d)) == Ok(LoadState(Flush(st), d, true))
  {
    var L := DeviceBlock(d);
    var s1 := LoadState(Flush(st), FreshDevice(), true);
    assert L[1..][1..] == DeviceKeyLines(d);
    assert LoadFrom(st, L) == LoadFrom(s1, DeviceKeyLines(d));
    DeviceLinesLoad(d, s1, DEVICE_KEYS);
  }

  lemma DeviceBlocksStep(st: LoadState, ds: seq<DeviceConfig>)
    requires ds != []
    ensures LoadFrom(st, DeviceBlocks(ds)) == LoadFrom(LoadState(Flush(st), ds[0], true), DeviceBlocks(ds[1..]))
  {
    LoadFromAppend(st, DeviceBlock(ds[0]), DeviceBlocks(ds[1..]));
    DeviceBlockLoad(st, ds[0]);
  }

  /** `load`'s state after the device blocks of `ds`: each block flushes the
      device before it and makes its own device the current one. */
  function AfterDevices(st: LoadState, ds: seq<DeviceConfig>): LoadState
    decreases |ds|
  {
    if ds == [] then st else AfterDevices(LoadState(Flush(st), ds[0], true), ds[1..])
  }

  /** Reading back the device blocks of `ds` reaches `AfterDevices`. */
  lemma {:induction false} DeviceBlocksLoad(st: LoadState, ds: seq<DeviceConfig>)
    ensures LoadFrom(st, DeviceBlocks(ds)) == Ok(AfterDevices(st, ds))
    decreases |ds|
  {
    if ds != [] {
      DeviceBlocksStep(st, ds);
      DeviceBlocksLoad(LoadState(Flush(st), ds[0], true), ds[1..]);
    }
  }

  /** After the device blocks, the devices with a mac address are appended, in order. */
  lemma {:induction false} FlushAfterDevices(st: LoadState, ds: seq<DeviceConfig>)
    requires forall d :: d in ds ==> d.mac != []
    ensures Flush(AfterDevices(st, ds)) == Flush(st).(devices := Flush(st).devices + ds)
    decreases |ds|
  {
    if ds == [] {
      assert Flush(st).devices + ds == Flush(st).devices;
    } else {
      var next := LoadState(Flush(st), ds[0], true);
      FlushAfterDevices(next, ds[1..]);
      assert Flush(next) == Flush(st).(devices := Flush(st).devices + [ds[0]]);
      assert Flush(st).devices + [ds[0]] + ds[1..] == Flush(st).devices + ds;
    }
  }

  /** `load` reads back exactly the configuration `save` wrote. */
  lemma SaveLoadRoundTrip(c: GlobalConfig)
    requires Saveable(c)
    ensures Loaded(Some(Save(c))) == Ok(c)
  {
    LoadFromAppend(InitialState(), GlobalLines(c), DeviceBlocks(c.devices));
    GlobalLinesLoad(c);
    var t := LoadState(c.(devices := []), FreshDevice(), false);
    DeviceBlocksLoad(t, c.devices);
    FlushAfterDevices(t, c.devices);
    assert [] + c.devices == c.devices;
  }
}
