# blueproximity.cpp in Dafny

A model of the core of blueproximity.cpp. The program locks and unlocks a Linux desktop by watching the Bluetooth signal strength (RSSI) of one or more phones. The model covers five parts.

- **The supervisor loop of `main`** (module `ProximityLoop`). Each tick takes the best of the monitors' averages, with −255 as the "nothing heard" sentinel. Every 30 seconds it may resync with the desktop's real lock state. It then runs a two-state GONE/ACTIVE debounce machine that fires the lock, unlock and proximity commands. The class `Supervisor` holds the loop variables, and `Step` is the function that specifies one tick.
- **The helpers of `main`** (module `Desktop`):
  - trimming of command output;
  - the `LockedHint=yes` test;
  - the shell line `execute_command` launches;
  - desktop detection by lower-cased substring match;
  - the default command table of `setup_desktop_commands`.
- **The per-device monitor `BlueProximity`** (modules `DeviceMonitor` and `AdvReport`).
  - The class `Monitor` holds the ring buffer of samples, which starts filled with −255. It also holds the classic RFCOMM connection state over `socket_fd`, the 25-second keep-alive schedule and the average.
  - The connection-list lookup finds a connection handle by address.
  - The BLE path walks the reports of an LE Advertising Report event (Bluetooth Core Specification, Volume 4, Part E, section 7.7.65.2). Each report is: event type, address type, six address octets, data length, data, then a signed RSSI octet.
- **The advertising-data parser `parse_ad_data`** of the BLE scanner (module `AdParser`). It decodes length-prefixed AD structures (Bluetooth Core Specification, Volume 3, Part C, section 11): local names 0x08 and 0x09 and TX power level 0x0A. An encoder, its inverse, gives the round trip.
- **The combined scanner** (module `ScanAll`):
  - the first-name extractor;
  - the device table and its BLE and classic merge rules;
  - the inquiry-length clamp;
  - the vendor lookup in the IEEE OUI list;
  - the `sdptool`/`gatttool` service summaries;
  - the truncation of the printed columns.
- **The configuration file** (modules `ConfigFile`, `ConfigFileSave` and `IntText`). `ConfigFile::load` is a `KEY=VALUE` line parser with `[DEVICE]` sections, comments, defaults and `std::stoi` errors. `ConfigFile::save` is its serialiser. The main result is that loading what `save` writes gives back the configuration.

Where the source changes state step by step, the model is imperative:
- the tick loop;
- the monitor's buffer array and descriptors;
- the AD cursor loop and the report walks;
- the config `getline` loop;
- the device table;
- the in-place string edits.

Each such method is proved equal to a specification function. The properties are then proved about those functions. Sockets, HCI calls, shell commands, environment variables and the clock are inputs. Command output and the configuration file arrive already split into lines.

## Model

| member | source | states |
|---|---|---|
| Base.SignedByte | scan_ble.cpp:52 | the `int8_t` reading of an octet: congruent to it modulo 256, and non-negative exactly when the octet is below 128 |
| Base.Find | scan_all.cpp:59 | `std::string::find`: a found index is where the pattern occurs and no earlier index has it; `None` means it occurs nowhere |
| Base.BytesToString | scan_ble.cpp:47 | `assign((char*)value, len)` keeps the length and every octet as the character of that code |
| IntText.Stoi | ConfigFile.cpp:39 | `std::stoi`: a text with no digit at all is an `invalid_argument` error |
| IntText.IntToString | ConfigFile.cpp:68 | `operator<<(int)` gives a non-empty sign-and-digits text with no '=' in it |
| IntText.StoiOfIntToString | ConfigFile.cpp:68-76 | every `int` written by `save` is read back to the same value by `stoi` |
| ConfigFile.Defaults | ConfigFile.cpp:5-9 | the default configuration has the `loginctl lock-session` / `loginctl unlock-session` / `xset dpms force on` commands and no devices |
| ConfigFile.SplitKeyValue | ConfigFile.cpp:31-34 | the key is the text before the first '=' and has no '='; key, '=' and value rebuild the line; a line without '=' is all key with an empty value |
| ConfigFile.Flush | ConfigFile.cpp:57-59 | the device being read is appended only inside a section and only when its mac is non-empty; nothing else in the configuration changes |
| ConfigFile.ParseDeviceKey | ConfigFile.cpp:37-40 | recognises exactly the four device keys; any other key is unknown |
| ConfigFile.SetDeviceField | ConfigFile.cpp:37-40 | a device key changes only the current device; it fails exactly for a channel value that `stoi` rejects |
| ConfigFile.ApplyDeviceKey | ConfigFile.cpp:36-40 | an unknown key inside a device section changes nothing |
| ConfigFile.ParseGlobalKey | ConfigFile.cpp:42-54 | recognises exactly the thirteen global keys; any other key is unknown |
| ConfigFile.SetGlobalField | ConfigFile.cpp:42-54 | a global key changes only the global fields; it fails exactly for a numeric key whose value `stoi` rejects |
| ConfigFile.ApplyGlobalKey | ConfigFile.cpp:41-55 | an unknown global key changes nothing; devices and the current device are untouched |
| ConfigFile.ApplyLine | ConfigFile.cpp:19-55 | empty and '#' lines change nothing; `[DEVICE]` flushes the current device and starts a fresh one; once inside a section no global field changes |
| ConfigFile.Loaded | ConfigFile.cpp:4-12 | a file that cannot be opened gives the defaults |
| ConfigFile.Load | ConfigFile.cpp:4-62 | the `getline` loop over the lines gives exactly the fold of `ApplyLine` followed by the final flush, or the first `stoi` error |
| ConfigFileSave.SavedKeys | ConfigFile.cpp:68-86 | `save` writes the ten fixed keys first, then up to three optional ones |
| ConfigFileSave.SavedOptionalKeys | ConfigFile.cpp:78-86 | `desktop_environment`, `display` and `xauthority` are written exactly when non-empty |
| ConfigFileSave.Save | ConfigFile.cpp:64-95 | ten to thirteen global lines besides six lines per device (a blank line, `[DEVICE]`, four keys) |
| ConfigFileSave.SplitKeyLine | ConfigFile.cpp:31-34 | a written `key=value` line splits back into that key and value, even when the value holds '=' |
| ConfigFileSave.LoadFromAppend | ConfigFile.cpp:18-56 | loading two runs of lines is loading the first, then the second from where it left off |
| ConfigFileSave.ParseGlobalKeyName | ConfigFile.cpp:42-54 | the name `save` writes for a global key is parsed back to that key |
| ConfigFileSave.ParseDeviceKeyName | ConfigFile.cpp:37-40 | the name `save` writes for a device key is parsed back to that key |
| ConfigFileSave.KeyLinesLoad | ConfigFile.cpp:68-86 | loading the written global lines copies exactly those keys' values into the configuration |
| ConfigFileSave.CopySavedGlobals | ConfigFile.cpp:68-86 | copying the saved keys onto the defaults gives back every global field, since an omitted optional key is empty in both |
| ConfigFileSave.GlobalLinesLoad | ConfigFile.cpp:68-86 | loading the global lines from the start reproduces the global part of the configuration, outside any section |
| ConfigFileSave.DeviceLinesLoad | ConfigFile.cpp:90-93 | loading a device's key lines copies its fields into the current device |
| ConfigFileSave.DeviceBlockLoad | ConfigFile.cpp:88-94 | a written device block flushes the previous device and makes this one current |
| ConfigFileSave.DeviceBlocksLoad | ConfigFile.cpp:88-94 | the blocks of a device list load without error, one device after another |
| ConfigFileSave.FlushAfterDevices | ConfigFile.cpp:57-59 | with every mac non-empty, the final flush appends all the devices in order |
| ConfigFileSave.SaveLoadRoundTrip | ConfigFile.cpp:4-95 | loading the lines `save` writes gives back the configuration, provided every mac is non-empty and no value holds a line break |
| Desktop.TrimEnd | main.cpp:37-39 | the result is a prefix of the output, does not end in LF/CR/space, and only such characters were removed |
| Desktop.TrimEndIdempotent | main.cpp:37-39 | trimming twice is trimming once |
| Desktop.TrimTrailing | main.cpp:37-39 | the `pop_back` loop computes `TrimEnd` |
| Desktop.IsDesktopLocked | main.cpp:80-86 | locked exactly when the session is valid and the output contains `LockedHint=yes`; an invalid session reads as unlocked |
| Desktop.ShellLine | main.cpp:220-233 | no line for an empty command; otherwise the line ends with the command and " &", carries `DISPLAY=` only when a display is set, and `XAUTHORITY=` only after it |
| Desktop.LowerString | main.cpp:95 | every character is lower-cased with `tolower` in the C locale; the length is kept |
| Desktop.Lowered | main.cpp:95 | the in-place loop computes `LowerString` |
| Desktop.LowerStringIdempotent | main.cpp:107 | lower-casing twice is lower-casing once |
| Desktop.ClassifyName | main.cpp:97-100 | "gnome" wins over the others; otherwise "kde" or "plasma" gives kde; otherwise "cosmic" gives cosmic; a name classifies exactly when it contains one of the four |
| Desktop.DetectDesktop | main.cpp:89-126 | the result is gnome, kde, cosmic or unknown; `XDG_CURRENT_DESKTOP` wins when it classifies, then `DESKTOP_SESSION`; then a running gnome-shell gives gnome, then plasmashell gives kde, then cosmic-comp gives cosmic; unknown exactly when none of these holds |
| Desktop.DetectDesktopIgnoresCase | main.cpp:93-112 | detection does not depend on the case of the two variables |
| Desktop.DetectDesktopEnvironment | main.cpp:89-126 | the method computes `DetectDesktop` |
| Desktop.DefaultProxCmd | main.cpp:179-198 | the default proximity command is never empty: `qdbus` wake-up on KDE, `loginctl unlock-session` on COSMIC, `xset dpms force on` everywhere else |
| Desktop.DetectedDisplay | main.cpp:130-143 | a set `DISPLAY` is taken as it is; otherwise the trimmed display of the first terminal session, or ":0" when that is empty or "-" |
| Desktop.DetectDisplay | main.cpp:130-143 | the method computes `DetectedDisplay` |
| Desktop.DetectedXauthority | main.cpp:149-165 | a set `XAUTHORITY` is taken as it is; otherwise `$HOME/.Xauthority`, and nothing when there is no home directory |
| Desktop.FillCommands | main.cpp:179-198 | a configured command is never overwritten; an empty lock or unlock command becomes the `loginctl` one; an empty proximity command gets the desktop's default; afterwards no command is empty |
| Desktop.DefaultCommands | main.cpp:179-198 | the method computes `FillCommands` |
| Desktop.DesktopSetup | main.cpp:128-199 | a configured display, X authority file or desktop is kept; an empty one becomes `DetectedDisplay`, `DetectedXauthority` or `DetectDesktop` of the environment |
| Desktop.DesktopSetupCommands | main.cpp:178-198 | setup fills only empty commands and changes no field other than display, X authority, desktop and the commands |
| Desktop.DesktopSetupIdempotent | main.cpp:128-199 | running setup a second time in the same environment changes nothing |
| Desktop.SetupDesktopCommands | main.cpp:128-199 | the method computes `DesktopSetup` |
| ProximityLoop.BestOf | main.cpp:425-434 | the best average is at least −255, at least every monitor's average, and equal to −255 or to one of them |
| ProximityLoop.BestAverage | main.cpp:425-434 | the loop over the monitors computes `BestOf` |
| ProximityLoop.SentinelNeverUnlocks | main.cpp:486 | −255 never counts toward unlocking, whatever the unlock distance |
| ProximityLoop.SentinelCountsTowardLocking | main.cpp:473 | −255 counts toward locking for any lock distance up to 255 |
| ProximityLoop.Resync | main.cpp:437-466 | only a due check (valid session, 30 s elapsed) changes anything; it sets the check time and the state the desktop shows; on a mismatch the counter becomes 1 only for ACTIVE→GONE with an unlock-qualifying best, else 0 |
| ProximityLoop.Hysteresis | main.cpp:469-497 | a failing tick zeroes the counter; lock fires exactly when a qualifying ACTIVE tick brings the counter to the lock duration, unlock likewise in GONE; a command fires exactly when the state changes; the counter stays below the current state's duration |
| ProximityLoop.Proximity | main.cpp:499-505 | the proximity command fires exactly when ACTIVE, the command is non-empty and the interval has elapsed, and then records the time |
| ProximityLoop.Step | main.cpp:423-505 | at most two commands a tick; lock leaves GONE with counter 0, unlock leaves ACTIVE with counter 0, proximity only in ACTIVE; the check time moves only when a resync is due |
| ProximityLoop.StepKeepsCounterInRange | main.cpp:471-497 | with both durations at least 1, every tick ends with 0 ≤ counter < the duration the current state requires |
| ProximityLoop.FailedTickClearsCounter | main.cpp:481-496 | a tick whose condition fails for the state after resync clears the counter, keeps the state and fires neither lock nor unlock |
| ProximityLoop.ResyncPreload | main.cpp:447-493 | an external lock seen while ACTIVE with a good signal preloads the counter to 1, so the same tick unlocks when the unlock duration is at most 2 and otherwise reaches 2 |
| ProximityLoop.ProximityRule | main.cpp:500-505 | over a whole tick, the proximity command fires exactly when the post-transition state allows it, and the proximity time moves exactly then |
| ProximityLoop.UnlockCounting | main.cpp:484-496 | each qualifying GONE tick below the unlock duration adds exactly one to the counter |
| ProximityLoop.UnlockOnNthTick | main.cpp:484-493 | from counter 0 with unlock duration N ≥ 1, N consecutive qualifying ticks stay GONE for the first N−1 and unlock on the Nth, with the counter back at 0 |
| ProximityLoop.LockCounting | main.cpp:471-483 | each qualifying ACTIVE tick below the lock duration adds exactly one to the counter |
| ProximityLoop.LockOnNthTick | main.cpp:471-480 | from counter 0 with lock duration N ≥ 1, N consecutive qualifying ticks stay ACTIVE for the first N−1 and lock on the Nth, with the counter back at 0 |
| ProximityLoop.ShellLines | main.cpp:478-502 | the launched shell lines are at most the fired commands (empty commands launch nothing) |
| ProximityLoop.ShellLinesAppend | main.cpp:478-502 | the lines of two runs of commands are the lines of each, in order |
| ProximityLoop.Supervisor.constructor | main.cpp:413-418 | the loop starts GONE with counter 0 and both timestamps 0 |
| ProximityLoop.Supervisor.Tick | main.cpp:423-505 | one pass of the loop keeps the counter non-negative (and below the required duration when both durations are at least 1), leaves the variables `Step` gives and launches exactly the shell lines of the commands it fires |
| ProximityLoop.Supervisor.CheckLockState | main.cpp:437-466 | the resync block updates the variables as `Resync` says |
| ProximityLoop.Supervisor.CountTick | main.cpp:469-497 | the state-machine block updates the variables and fires as `Hysteresis` says |
| ProximityLoop.Supervisor.ProximityTick | main.cpp:499-505 | the proximity block updates the variables and fires as `Proximity` says |
| ProximityLoop.Supervisor.LaunchAll | main.cpp:478-502 | a tick launches the switching command's line, then the proximity command's line, exactly as `ShellLines` gives them |
| AdvReport.Ba2Str | BlueProximity.cpp:111-112 | `ba2str` prints an address as 17 characters |
| AdvReport.Ba2StrInjective | BlueProximity.cpp:111-114 | two addresses print the same text exactly when they are equal, so comparing texts compares addresses |
| AdvReport.ReportAt | BlueProximity.cpp:119-130 | a report is read exactly when its header and its data plus RSSI fit; its address is octets 2..7, its data the next `length` octets, its RSSI the signed octet at 9+length, and the next report starts at 10+length |
| AdvReport.Walk | BlueProximity.cpp:118-131 | at most the announced number of reports are read |
| AdvReport.EventReports | BlueProximity.cpp:106-131 | an event that is not an LE advertising report has no reports; otherwise at most the announced number |
| AdvReport.AdvertisingReports | scan_ble.cpp:127-153 | the offset-advancing loop reads exactly `EventReports` |
| AdvReport.MatchIndex | BlueProximity.cpp:118-128 | a found position holds a report from the target and no earlier one does; none found means no report is from it |
| AdvReport.FirstMatchFound | BlueProximity.cpp:118-128 | an RSSI is found exactly when some report comes from the target |
| AdvReport.MatchFromWalk | BlueProximity.cpp:118-131 | testing each report as the walk reaches it gives the first match of the whole walk |
| AdvReport.MatchTarget | BlueProximity.cpp:106-131 | the walk-and-test loop gives the RSSI of the first report from the target in the event |
| AdvReport.ScanEvents | BlueProximity.cpp:86-135 | the result is −255 or a signed octet, and a non-sentinel result is the match of some received event |
| AdvReport.UndecidedTail | BlueProximity.cpp:86-135 | an event that neither matched nor ended the window can be dropped without changing the scan |
| AdvReport.FirstHeardDecides | BlueProximity.cpp:86-135 | when every earlier event timed out or held no report from the target, the first received event that does decides the RSSI |
| AdvReport.FailureEndsScan | BlueProximity.cpp:94-104 | when every earlier event timed out or held no report from the target, a failed poll or read ends the scan with −255 |
| AdvReport.NoMatchNoRssi | BlueProximity.cpp:86-135 | when no received event holds a report from the target, the scan gives −255 |
| AdvReport.BleRssiScan | BlueProximity.cpp:62-144 | a failed filter read or install gives −255 with nothing to clean up; once the LE filter is installed the old filter is restored and scanning stopped on every exit, and the RSSI is then the one the listening window gives |
| AdvReport.ReadBleRssiScan | BlueProximity.cpp:62-144 | the listening loop computes `BleRssiScan` |
| AdvReport.GateAsWritten | BlueProximity.cpp:110-114 | the as-written gate can only ever yield the first report's RSSI |
| AdvReport.GateMissesSecondReport | BlueProximity.cpp:110-123 | for a target in the second report, the as-written gate finds nothing while the full search finds −80 |
| AdvReport.RssiOffsetsAsWritten | BlueProximity.cpp:118-130 | the as-written walk reads at most one RSSI per announced report |
| AdvReport.WalkReadsPastEvent | BlueProximity.cpp:106-130 | in a 14-octet event whose length octet says 31, the as-written walk reads its RSSI at offset 45, past the bytes read; the bounds-checked walk reads no report |
| AdParser.FieldsInBounds | scan_ble.cpp:33-40 | every structure decoded lies within the data, so no octet at or past `len` is read |
| AdParser.ApplyField | scan_ble.cpp:43-56 | a complete name always replaces the name; a short name only fills an empty one; a TX power with a one-octet value is stored as a signed octet; other types change nothing; mac and RSSI never change |
| AdParser.ParseAdData | scan_ble.cpp:31-60 | the cursor loop computes the fold of `ApplyField` over the decoded structures |
| AdParser.EncodeField | scan_ble.cpp:34-41 | a structure is written as its length octet (value length + 1), its type, its value |
| AdParser.DecodeEncode | scan_ble.cpp:31-60 | decoding encoded structures followed by any octets gives those structures, then what the octets decode to |
| AdParser.RoundTrip | scan_ble.cpp:31-60 | decoding inverts encoding |
| AdParser.StopsAtZeroLength | scan_ble.cpp:35 | a zero length octet ends decoding; the structures before it are kept |
| AdParser.StopsAtTruncation | scan_ble.cpp:37 | a structure that would run past the end ends decoding; the structures before it are kept |
| AdParser.ApplyAllAppend | scan_ble.cpp:43-58 | applying two runs of structures is applying the first, then the second |
| AdParser.ApplyAllKeepsIdentity | scan_ble.cpp:43-56 | the structures never change the record's mac or RSSI |
| AdParser.LastCompleteNameWins | scan_ble.cpp:46-48 | the last complete name wins over every earlier name and every later short name |
| AdParser.NoCompleteKeepsName | scan_ble.cpp:44-48 | without a complete name, a non-empty name is never replaced by a short name |
| AdParser.TxPowerRule | scan_ble.cpp:50-54 | TX power is present afterwards exactly when it was before or some structure is a one-octet TX power; it then holds the last such value, and is unchanged when there is none |
| AdParser.ReportRecord | scan_ble.cpp:138-145 | each report's record starts with its printed address and its signed RSSI |
| AdParser.EventRecords | scan_ble.cpp:127-153 | one record per report of the event, in order |
| AdParser.ScanEvent | scan_ble.cpp:127-153 | the report loop of the scanner computes `EventRecords` |
| DeviceMonitor.Reported | BlueProximity.cpp:211-216 | at most the first ten connections are listed |
| DeviceMonitor.ConnIndex | BlueProximity.cpp:224-231 | the first listed connection whose printed address equals the target |
| DeviceMonitor.ConnHandle | BlueProximity.cpp:203-236 | −1 when the device id is negative, the allocation fails or the ioctl fails; otherwise the handle of the first listed connection whose printed address is the target, and −1 exactly when there is none |
| DeviceMonitor.GetHciConnHandle | BlueProximity.cpp:203-236 | the lookup loop computes `ConnHandle` |
| DeviceMonitor.Disconnected | BlueProximity.cpp:165-170 | after a disconnect the stream is closed, the HCI socket is kept, and a closed stream is left as it is |
| DeviceMonitor.DisconnectIdempotent | BlueProximity.cpp:165-170 | disconnecting twice is disconnecting once |
| DeviceMonitor.Connected | BlueProximity.cpp:172-201 | connect reports success exactly when the stream is open afterwards, and returns at once when it is already open |
| DeviceMonitor.RssiReading | BlueProximity.cpp:238-256 | a reading exists exactly when the HCI socket is open, a handle is found and the read succeeds |
| DeviceMonitor.Sample | BlueProximity.cpp:302-329 | the sample is −255 or a signed octet; a classic tick that connects and reads records the reading; a BLE tick with an HCI socket records what the listening window gives; a BLE tick never touches the RFCOMM stream |
| DeviceMonitor.BleSampleIsFirstHeard | BlueProximity.cpp:302-316 | a BLE tick whose filter calls succeed records the RSSI of the first event that holds a report from the target, when no earlier event failed |
| DeviceMonitor.FailuresRecordSentinel | BlueProximity.cpp:303-329 | the sample is −255 when connect fails, when the RSSI read fails, when no HCI socket can be opened, and when no report matches |
| DeviceMonitor.OnlyReadFailureCloses | BlueProximity.cpp:319-325 | an open stream is closed by a tick only through a failed RSSI read on a classic device |
| DeviceMonitor.SumBounds | BlueProximity.cpp:360-366 | the sum of slots within [lo, hi] lies within n·lo and n·hi |
| DeviceMonitor.AverageBounds | BlueProximity.cpp:360-366 | with every slot a sample or the sentinel, the average lies between −255 and 127 |
| DeviceMonitor.AverageExample | BlueProximity.cpp:360-366 | a three-slot buffer holding −50, −255, −255 averages −560/3 |
| DeviceMonitor.ClampedSize | BlueProximity.cpp:147 | the buffer size is at least 1 and equals the configured size when that is positive |
| DeviceMonitor.Monitor.constructor | BlueProximity.cpp:146-156 | max(1, buffer_size) slots, all −255, position 0, keep-alive time 0, stream closed; the size used afterwards is the clamped one |
| DeviceMonitor.Monitor.Disconnect | BlueProximity.cpp:165-170 | the descriptors become `Disconnected`; buffer position and keep-alive time are unchanged |
| DeviceMonitor.Monitor.Connect | BlueProximity.cpp:172-201 | the descriptors and result are those of `Connected` |
| DeviceMonitor.Monitor.ReadRssi | BlueProximity.cpp:238-256 | status 0 exactly when `RssiReading` has a value, which is then the one returned; −1 otherwise |
| DeviceMonitor.Monitor.Measure | BlueProximity.cpp:302-329 | the descriptors and the sample are those of `Sample` |
| DeviceMonitor.Monitor.Update | BlueProximity.cpp:302-351 | exactly the slot at the old position takes the sample; the position advances modulo the size; a keep-alive is sent exactly for a classic device still connected when 25 s have passed, and then the time is recorded |
| DeviceMonitor.Monitor.GetAverageRssi | BlueProximity.cpp:360-366 | the summing loop computes the sum of every slot over the buffer size, which lies between −255 and 127 |
| DeviceMonitor.ConstructedAsWritten | BlueProximity.cpp:146-148 | as written, the buffer has the clamped size while the member keeps the configured one |
| DeviceMonitor.UnclampedMemberSize | BlueProximity.cpp:146-148 | with size −1 the position after one update is 1, outside the one-slot buffer, and a −60 sample averages +60; with size 0 the modulus divides by zero |
| ScanAll.FirstName | scan_all.cpp:113-128 | "[Unknown]" when no structure is a name; a name structure in front gives its text |
| ScanAll.FirstNameIsFirst | scan_all.cpp:118-127 | the first name structure wins over every later one |
| ScanAll.ExtractName | scan_all.cpp:113-128 | the cursor loop computes `FirstName` of the decoded structures, with the same zero-length and truncation stops as the AD parser |
| ScanAll.MergedBle | scan_all.cpp:130-142 | an unseen device becomes a "BLE" row with its vendor; a known one takes the new RSSI and the new name unless that is "[Unknown]", and keeps its type, services and vendor |
| ScanAll.MergedClassic | scan_all.cpp:185-202 | an unseen device becomes a "BT" row with RSSI 0; a known one is never replaced and takes the new name only when it is a BLE row and the name is not "[Unknown]" |
| ScanAll.ClassicKeepsRow | scan_all.cpp:197-202 | a classic result never changes a row's type or RSSI, and leaves a non-BLE row as it was |
| ScanAll.DeviceTable.constructor | scan_all.cpp:32 | the table starts empty |
| ScanAll.DeviceTable.MergeBle | scan_all.cpp:130-142 | only the reporting address's row changes, to `MergedBle` |
| ScanAll.DeviceTable.MergeClassic | scan_all.cpp:195-202 | only the result's address row changes, to `MergedClassic` |
| ScanAll.DeviceTable.RecordEvent | scan_all.cpp:99-145 | each report of the event is merged in turn, with the name its AD data gives |
| ScanAll.BleRowsKeys | scan_all.cpp:130-137 | merging reports only adds rows: the rows are those before plus one per reporting address |
| ScanAll.DeviceTable.ScanClassic | scan_all.cpp:164-203 | the inquiry asks for the clamped length and each result is merged in turn, named "[Unknown]" when its name cannot be read |
| ScanAll.ClassicRowsKeepOld | scan_all.cpp:195-202 | a classic scan keeps every existing row with its type and RSSI |
| ScanAll.ClampInquiryLength | scan_all.cpp:165-167 | the inquiry length is the duration clamped to [1, 30] |
| ScanAll.OuiPrefix | scan_all.cpp:50-52 | the key is the first eight characters with each ':' turned into '-' and every other character upper-cased, so it holds no ':' and no lower-case letter |
| ScanAll.VendorPrefix | scan_all.cpp:50-52 | the in-place `replace` and `transform` compute `OuiPrefix` |
| ScanAll.GrepCommand | scan_all.cpp:54 | the lookup command puts the key right after a `^`, so it matches only at the start of a line of the list |
| ScanAll.FirstNotIn | scan_all.cpp:63 | `find_first_not_of`: the first index outside the set, or none when every character is in it |
| ScanAll.LastNotIn | scan_all.cpp:65 | `find_last_not_of`: the last index outside the set, or none when every character is in it |
| ScanAll.TrimVendor | scan_all.cpp:61-66 | the vendor starts with neither space nor tab and ends with none of space, tab, CR, LF; it is empty exactly when only those follow "(hex)" |
| ScanAll.TrimVendorIsSlice | scan_all.cpp:61-66 | a non-empty vendor is a slice of the text after "(hex)" with only spaces and tabs before it and only blanks after it |
| ScanAll.VendorName | scan_all.cpp:59-68 | no "(hex)" gives nothing; otherwise the text after the first "(hex)" through `TrimVendor` |
| ScanAll.Vendor | scan_all.cpp:48-69 | a mac shorter than 8 characters, an empty lookup output or a missing "(hex)" gives ""; otherwise the vendor is `VendorName` of the output |
| ScanAll.Wrap64 | scan_all.cpp:65 | a `size_t` count stays within 64 bits: unchanged when it fits, and `npos + 1` wraps to 0 |
| ScanAll.VendorAsWrittenAgrees | scan_all.cpp:63-66 | whenever a non-blank character follows "(hex)", the as-written arithmetic gives the trimmed vendor |
| ScanAll.VendorNewlineOnly | scan_all.cpp:63-66 | after "(hex)", a space and a line feed, the as-written code returns the line feed and the trimming returns "" |
| ScanAll.KeyLineHasColon | scan_all.cpp:224-229 | a line containing "Service Name:" or "Channel:" always contains ':', so the inner test never fails |
| ScanAll.ClassicLineRule | scan_all.cpp:224-231 | a service-name line's part begins with the text after its first ':' and "; "; a line with neither key adds nothing |
| ScanAll.SummarizeClassic | scan_all.cpp:220-233 | the `getline` loop builds the classic summary, line by line |
| ScanAll.RemoveSpaces | scan_all.cpp:251 | the result has no space, is no longer, and equals the input when that has none |
| ScanAll.RemoveSpacesAppend | scan_all.cpp:251 | removing spaces distributes over concatenation, so the other characters keep their order |
| ScanAll.RemoveSpacesKeepsOthers | scan_all.cpp:251 | exactly the spaces are removed: every other character is kept as often as it occurs |
| ScanAll.BleLinePart | scan_all.cpp:247-255 | nothing without "uuid:"; otherwise the space-free text after it, cut to its first four characters and ".. " when longer than four, or followed by one space; at most seven characters |
| ScanAll.SummarizeBle | scan_all.cpp:243-256 | the `getline` loop builds the BLE summary, line by line |
| ScanAll.BleSummaryBound | scan_all.cpp:247-256 | a BLE summary holds at most seven characters per line of output |
| ScanAll.SummaryAppend | scan_all.cpp:223-233 | the summary of two runs of lines is the summary of each, in order |
| ScanAll.ProbeCommand | scan_all.cpp:215-239 | classic rows are probed with `sdptool browse`, others with `gatttool --primary` under a 5-second timeout |
| ScanAll.DeviceTable.RecordServices | scan_all.cpp:212-258 | only the probed row changes, and only its services, to the summary its type calls for |
| ScanAll.Probed | scan_all.cpp:209-262 | the probe keeps every row's key |
| ScanAll.DeviceTable.ProbeAll | scan_all.cpp:209-262 | every row takes its own summary and nothing else changes, whatever the visiting order |
| ScanAll.Ellipsize | scan_all.cpp:280 | a cut column is at most its limit, unchanged when it fits, and otherwise the kept prefix and "..." |
| ScanAll.ListVendorColumn | scan_all.cpp:280 | a vendor of at most 30 characters is kept; a longer one becomes its first 27 characters and "..." |
| ScanAll.ReportVendorColumn | scan_all.cpp:298-299 | a vendor of at most 24 characters is kept; a longer one becomes its first 21 characters and "..." |
| ScanAll.NameColumn | scan_all.cpp:301 | the whole name when it has at most 19 characters, its first 19 characters otherwise |
| ScanAll.ServicesColumn | scan_all.cpp:294-296 | each line feed becomes a space and every other character is kept; text of at most 55 characters keeps its length; longer text keeps its first 52 characters and ends in "..." |
| ScanAll.CleanServices | scan_all.cpp:294-296 | the in-place `replace` and the cut compute `ServicesColumn` |

## Left out

- Radio, socket and controller calls are inputs: `socket`, `connect`, `read`, `write`, `poll`, `ioctl`, `getsockopt`/`setsockopt` and the `hci_*` functions. A `Radio` value gives each outcome. A BLE listening window is a finite sequence of poll outcomes, not two seconds of wall-clock time.
- Shell commands and the environment are inputs: `popen`/`system`, `getenv`, `getpwuid`, `pgrep`, `loginctl`, `grep`, `sdptool` and `gatttool`. Their output arrives as strings or as lines already split by `getline`. The configuration file arrives as its lines, or as `None` when it cannot be opened.
- `time(NULL)` and `sleep(1)` become a `now` parameter. The cleanup after the endless loop cannot be reached and is not modelled.
- `double` arithmetic is exact `real` arithmetic. The sums are small integers, so the comparisons agree.
- `int` overflow is not modelled. Counters, thresholds and timestamps are unbounded integers. Values read from the configuration are 32-bit, because `stoi` rejects the rest.
- `send_keepalive`'s write and read of "AT\r" are I/O. Only the 25-second schedule is modelled.
- `scan_devices`, the classic inquiry of the scanner, option parsing, interactive device selection and all printing are out. The merge rules, the clamp and the column cuts are in.
- `get_config_path` and `get_session_info` are environment lookups. Only their results (the file's lines and the session's validity) are used.
- The per-tick averages are inputs to `ProximityLoop.Supervisor.Tick`. Each monitor's own computation is `DeviceMonitor.Monitor.GetAverageRssi`.
- The `GlobalConfig` declaration in ConfigFile.hpp lacks the `xauthority` field that ConfigFile.cpp:54 and main.cpp:149-162 use. The model follows the code and has the field.
- `unlock_duration` defaults to 2 in ConfigFile.hpp:33 but to 1 in BlueProximity.hpp:25. The loop reads the configuration file's value, so `ConfigFile.Defaults` uses 2.
- The configuration keys go through the enumerations `GlobalKey` and `DeviceKey`. `ParseGlobalKey` and `ParseDeviceKey` test the names in the source's order.
- `DeviceMonitor.Reported`: the list the controller fills holds at most ten connections. When more exist, the ten it chooses are taken to be the first ten of the input.
- The TX power of a BLE record is uninitialised in the source until a TX power structure is seen. The model starts it at 0 and never reads it while `hasTxPower` is false.
- AdParser.LastCompleteNameWins requires that no short name follows when the last complete name is empty. A short name may replace an empty complete name, because the test is on the name being empty.
- ScanAll.DeviceTable.ProbeAll visits the rows in an arbitrary order; `std::map` visits them in key order. The result is the same because each row's probe touches only that row.
- AdvReport.ScanEvents, AdvReport.BleRssiScan, DeviceMonitor.Sample, DeviceMonitor.Monitor.Update and DeviceMonitor.Monitor.GetAverageRssi follow the corrected behaviour of the two Findings in BlueProximity.cpp: every report of an event is searched, not only the first (BlueProximity.cpp:110-114), and the monitor uses the clamped buffer size (BlueProximity.cpp:146-148). They differ from `update()` as written when the target is not an event's first report or when `buffer_size` is below 1; `GateAsWritten` and `ConstructedAsWritten` model those cases.
- ScanAll.TrimVendor follows the corrected trim of the scan_all.cpp:63-66 Finding: when only blanks follow "(hex)" it gives "". As written, when one of those blanks is a CR or LF, the source keeps the text from its first character that is not a space or tab, "\n" for the output "(hex) \n"; `TrimVendorAsWritten` and `VendorNewlineOnly` model that.
- ScanAll.VendorName goes through `TrimVendor`, so it gives "" where the source as written gives that leftover text.
- ScanAll.Vendor goes through `VendorName` and differs from `get_vendor` as written in the same case.
- The report walks are modelled bounds-checked; the code as written is under Findings. A read past the received bytes lands on whatever the 260-byte buffer holds, and `WalkReadsPastEvent` models that as zero octets.

## Findings

| source | as written | input that shows it | evidently intended | confidence | as-written member | corrected member |
|---|---|---|---|---|---|---|
| BlueProximity.cpp:146-148 | the constructor clamps `buffer_size` on its parameter, which shadows the member; the member keeps the configured size, which `update` uses as the modulus (line 333) and both averages use as the divisor (lines 342, 365) | `buffer_size = -1`: one slot, next position 1 (outside the buffer), and a −60 sample averages +60; `buffer_size = 0`: modulo by zero | the member is clamped, so the buffer size, the modulus and the divisor are all max(1, buffer_size) | not executed | DeviceMonitor.UnclampedMemberSize | DeviceMonitor.Monitor.constructor |
| BlueProximity.cpp:110-114 | the event is searched only when the FIRST report's address is the target, so the inner loop can only match at the first report | an event with reports from 06:05:04:03:02:01 and 16:15:14:13:12:11, target the second: nothing found | every report of the event is searched | not executed | AdvReport.GateMissesSecondReport | AdvReport.MatchTarget |
| BlueProximity.cpp:118-130 | the walk never compares the report offsets with the number of bytes read (the length check is a placeholder at lines 108-109); scan_ble.cpp:133-153 and scan_all.cpp:105-145 walk the same way | a 14-byte event announcing one report whose length octet says 31: the RSSI is read at offset 45 | a report is read only when its header, data and RSSI lie within the bytes read | not executed | AdvReport.WalkReadsPastEvent | AdvReport.AdvertisingReports |
| scan_all.cpp:63-66 | when only blanks follow "(hex)" and one is CR or LF, `find_last_not_of` gives `npos`, and `npos - first + 1` wraps to a count that keeps the rest of the text | lookup output "(hex) \n": the vendor is "\n" | the vendor is empty when only blanks follow "(hex)" | not executed | ScanAll.VendorNewlineOnly | ScanAll.TrimVendor |
