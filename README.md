# Flic-button cast controller, modelled in Dafny

The system is a home-automation bridge. Clicking a Bluetooth (Flic) button
toggles a fixed radio stream on a configured cast device. Before playing, it
can set the volume of a group of auxiliary devices. The model covers three
parts of the program:

- **The device directory** (`caster.py`), as class `Caster.Directory`.
  - It holds the cached discovery result `deviceHosts` and the rescan timer
    `deviceHostScanTimer`. The timer becomes the flag `armed`.
  - Operations:
    - `scanForDeviceHosts`, which replaces the cache wholesale and re-arms
      the timer;
    - `cancelDeviceHostScanner`;
    - `getDevice`, a name lookup with exactly one rescan and one retry;
    - the command wrappers `stop`, `quit`, `setVolume`, `isPlaying` and
      `play`.
  - Discovery, the device connection and the MIME lookup are oracles fixed
    when the directory is made:
    - `discover` gives the result of the n-th scan;
    - `connect` gives the ready device for a host;
    - `guessType` gives `guess_type(url)[0]`.
  - Every interaction with a collaborator is an `Event`, appended to a
    shared `Core.Trace`. This includes each call of the error handler
    `onError` (an `ErrorReported` event).
  - The invariant `Directory.Valid` ties the cache to the latest
    `Discovered` event of the trace. It also ties `armed` to the number of
    timers started and not cancelled, which is 0 or 1, and the counter
    `scans` to the number of discoveries.
  - `Directory.LookedUp` states what one `getDevice` does, from a
    `DirState` (cache, timer flag, scan count) to the next. The lookups of
    the volume step and of the target are stated in its terms.
- **The session controller** (`main.py`), as class `Controller.Session`.
  - It holds the `castDevice` slot, the list of button connection
    channels, and the configured target and volume specification.
  - Operations: `playOrStop`, `stopAndQuitCasting`, the player-status
    callback, the button filter, the channel bookkeeping, `exit` and
    `onCasterError`.
  - Pure functions:
    - the parsing of the volume specification `"name=volume,..."`, on top
      of a model of Python's `str.split` and `str.strip` (module
      `Strings`);
    - the channel filter.
- **`formatTimeDelta`** (`util.py`), as module `Util`.
  - It renders the `seconds` of a `timedelta` as `"<h>h<m>m<s>s"`.
  - The model proves that the output reads back as the `divmod` results.

The model follows the code as it stands, including these paths:

- **Empty scan.** When a scan finds no hosts, the `onError` message is
  formatted with the undefined global `DEVICE_SCAN_ATTEMPTS_PER_SCAN`. The
  resulting `NameError` leaves `scanForDeviceHosts` before `onError` is
  called and before the next timer is armed.
- **Teardown.** `stopAndQuitCasting` assigns a local `castDevice`, so
  teardown never clears the session slot. Its call
  `caster.quit(device, disconnectFromDevice=True)` fails with a
  `TypeError`, because `quit` takes no such keyword. So a teardown that is
  not forced never quits, never disconnects and always raises.
- **No PAUSED rule.** The status callback has no rule for a PAUSED live
  stream, and nothing de-duplicates status reports. The model has neither.
- **`isPlaying(None)`.** It is not guarded, so it raises `AttributeError`.
- **A missing volume device.** `None.disconnect(...)` raises
  `AttributeError` when an auxiliary device named in the volume
  specification is not found. A volume item without `=` raises
  `IndexError`, after that item's device was looked up.
- **Call order.** On the play path, the auxiliary devices are looked up,
  then their volumes are set, then they are disconnected. Only after that
  is the target looked up, and then the stream is played.

Two lines of `main.py` read names that `caster.py` never binds, so as
written they always raise `AttributeError` (see "## Findings"):

- the listener registration `caster.addDevicePlayerStatusListener`
  (main.py:119-122), modelled as written by
  `Controller.RegisterListenerAsWritten`;
- the state constants `caster.MEDIA_PLAYER_STATE_IDLE` and `_UNKNOWN`
  (main.py:115-116), modelled as written by
  `Controller.StatusCallbackAsWritten`.

`Controller.Session.PlayStream`, `PlayTarget`, `PlayOrStop` and
`OnDevicePlayerStatus` model these lines as corrected: the listener is
registered on the device that plays, and the states are pychromecast's
`IDLE` and `UNKNOWN`.

## Model

| member | source | states |
|---|---|---|
| Util.Hours | util.py:4-5 | hours, minutes and seconds recombine to the seconds given; 0 <= minutes, seconds < 60; for a normalised delta the hours are below 24 |
| Util.FormatTimeDelta | util.py:3-11 | `formatTimeDelta` writes the three `divmod` numbers of `delta.seconds` with the unit letters h, m and s; FormatTimeDeltaParses states what the text says |
| Util.NatToString | util.py:8-10 | `str(n)` of a natural number is a non-empty string of decimal digits with no leading zero |
| Util.IntToString | util.py:8-10 | `str(n)` is non-empty and made of digits and a minus sign |
| Util.DigitsValueOfNat | util.py:8-10 | the digits `str(n)` writes denote `n` |
| Util.ParseIntToString | util.py:8-10 | reading a rendered integer back gives the integer, negative ones included |
| Util.NoLetterInNumber | util.py:7-11 | a rendered number holds none of the unit letters, so the units separate the fields |
| Util.SplitOnce | util.py:7 | a piece, a unit letter and a tail free of it split into exactly those two parts |
| Util.ParseHmsParts | util.py:7-11 | "<h>h<m>m<s>s" reads back into the three numbers put in, when none holds a unit letter |
| Util.FormatTimeDeltaParses | util.py:3-11 | the rendering reads back as the divmod triple of `delta.seconds`: hours*3600 + minutes*60 + seconds == delta.seconds, minutes and seconds in [0, 60) |
| Util.FormatIgnoresDays | util.py:4 | two deltas with the same `seconds` render the same, whatever their days and microseconds |
| Util.FormatHoursBelowADay | util.py:4 | a normalised delta renders as at most 23 hours |
| Strings.StripStart | main.py:61 | `lstrip()` is no longer than its input and does not start with whitespace |
| Strings.StripEnd | main.py:61 | `rstrip()` is no longer than its input and does not end with whitespace |
| Strings.StripStartParts | main.py:61 | what `lstrip()` removes is a whitespace prefix: input == removed + result |
| Strings.StripEndParts | main.py:61 | what `rstrip()` removes is a whitespace suffix: input == result + removed |
| Strings.Strip | main.py:61 | `strip()` leaves a string with no whitespace at either end, no longer than its input |
| Strings.StripParts | main.py:61 | `strip()` removes only whitespace: input == front + result + back, both cut parts all-whitespace |
| Strings.StripEachParts | main.py:61 | what `[n.strip() for n in parts]` removes from each part is a whitespace prefix and a whitespace suffix: part == front + result + back |
| Strings.StripStripped | main.py:61 | stripping a stripped string changes nothing |
| Strings.StripPadded | main.py:61 | whitespace added on either side does not change what `strip()` leaves |
| Strings.StripEach | main.py:61 | `[n.strip() for n in parts]` keeps the number and order of the parts, and each result is its part stripped, with no whitespace at either end |
| Strings.Split | main.py:61-62 | `s.split(sep)` has at least one piece and no piece contains the separator |
| Strings.JoinSplit | main.py:61-62 | joining the pieces with the separator gives the input back |
| Strings.SplitJoin | main.py:61-62 | pieces free of the separator survive a join and a split |
| Strings.SplitNoSeparator | main.py:61-62 | a string without the separator is one piece |
| Strings.SplitCons | main.py:61-62 | a leading piece before the first separator splits off first |
| Strings.SplitCount | main.py:61-62 | there is one piece more than there are separators |
| Strings.StripThenSplit | main.py:61 | for a non-whitespace separator, splitting `i.strip()` and stripping the pieces equals splitting `i` and stripping the pieces |
| Strings.JoinPadded | main.py:61 | joining pieces padded at the ends pads the joined string |
| Controller.VolumeSpecItems | main.py:59-63 | the parsed specification: for each comma-separated item, its stripped `=` parts; VolumeSpecItemsShape and VolumeSpecRoundTrip state its contract |
| Controller.VolumeSpecItemsShape | main.py:59-63 | one entry per comma-separated item, in order; each entry is the item's `=` parts, stripped; one part more than the item has `=` |
| Controller.ItemRoundTrip | main.py:61 | a rendered "name=volume" item parses back into its name and volume |
| Controller.VolumeSpecRoundTrip | main.py:59-63 | parsing a rendered specification gives back its (name, volume) pairs in input order |
| Controller.VolumeSpecCoversInput | main.py:62 | the comma split loses nothing, and there is one item more than there are commas |
| Controller.PhasesOrdered | main.py:54-94 | lookups, then volume calls, then disconnects, form a trace in stage order |
| Controller.VolumeCalls | main.py:72-77 | the volume calls contain only volume settings and error reports |
| Controller.VolumeCallsStep | main.py:73-77 | one more device adds exactly its own volume call at the end |
| Controller.VolumeCallsCount | main.py:73-77 | there is exactly one volume call per device that was found |
| Controller.FirstNull | main.py:79-81 | the disconnect loop stops at the first missing device: every device before it is present, and it is missing |
| Controller.DisconnectPrefix | main.py:79-81 | the first n disconnects are one per device, in order |
| Controller.Disconnects | main.py:79-81 | only disconnects, one per device in order up to the first missing one; all of them when none is missing |
| Controller.StopQuitEvents | main.py:30-37 | with forceQuit, or with no device, nothing is called; `quit_app` is never reached; stop is issued iff the device is registered and playing |
| Controller.StopQuitOutcome | main.py:30-37 | stopAndQuitCasting returns only with forceQuit; with a device it raises the keyword TypeError |
| Controller.Probe | main.py:48 | asking isPlaying of the held device reports an error iff the device is not registered |
| Controller.IsToggle | main.py:48 | a held device toggles to stop iff it is registered and reports playing; an unregistered one is reported by isPlaying and counts as not playing |
| Controller.TearsDown | main.py:115-116 | the corrected teardown rule: the player state is IDLE or UNKNOWN |
| Controller.Triggers | main.py:124-133 | only a plain click (`ButtonClick`) from the black or the turquoise button starts playOrStop |
| Controller.Accepted | main.py:143 | a channel is kept when the response carries no error or `NoError` |
| Controller.Without | main.py:161-163 | `[i for i in channels if i != channel]`, never longer than the list; WithoutMembers, WithoutAppend and WithoutAbsent state what it keeps |
| Controller.WithoutMembers | main.py:161-163 | the filter keeps exactly the channels different from the removed one |
| Controller.WithoutAppend | main.py:161-163 | the filter distributes over concatenation, so it keeps the order of the kept channels |
| Controller.WithoutAbsent | main.py:161-163 | removing a channel that is not held changes nothing |
| Controller.AddThenRemove | main.py:155 | appending a new channel and then removing it restores the list |
| Controller.Removals | main.py:211-212 | one removal per channel |
| Controller.RemovalsInOrder | main.py:211-212 | the i-th removal is that of the i-th channel |
| Controller.ListenerNeverRegisteredAsWritten | main.py:119-122 | as written, registering the status listener always raises AttributeError |
| Controller.RegisterListenerAsWritten | main.py:119-122 | the registration as written: the lookup of `addDevicePlayerStatusListener` on the caster module, which caster.py does not bind |
| Controller.StatusCallbackAsWritten | main.py:102-117 | the status callback as written: nothing while no device is held; otherwise the comparison first reads `caster.MEDIA_PLAYER_STATE_IDLE`, which caster.py does not bind |
| Controller.StatusCallbackNeverTearsDownAsWritten | main.py:102-117 | as written, the status callback never tears down: it raises while a device is held and does nothing when none is |
| Controller.TearsDownExactly | main.py:115-116 | over pychromecast's five player states, the corrected rule tears down exactly for IDLE and UNKNOWN |
| Controller.PlayerStateName | main.py:115-116 | the names pychromecast reports for its player states |
| Controller.PlayerStateNamesDistinct | main.py:115-116 | distinct player states have distinct names, so the reported string decides the state |
| Controller.Session.StopAndQuitCasting | main.py:30-37 | the trace grows by exactly StopQuitEvents and the outcome is StopQuitOutcome; the session slot is unchanged |
| Controller.Session.LookUpVolumeDevices | main.py:55-64 | one getDevice per item, in item order, each from the state the previous one left (LookupsDone over the LookedUp steps); the entries keep the devices found and their items' second parts; success iff every item was completed, and otherwise the error of the last lookup, or IndexError for an item without `=` after its lookup; the trace grows by exactly the lookups |
| Controller.Session.LookupsDone | main.py:55-64 | the outcome of the volume lookups: consecutive LookedUp steps, one per item tried, the entries built, success iff all items were completed, the failing step's error otherwise |
| Controller.Session.LookUpItem | main.py:57 | the next item's getDevice is recorded as one more LookedUp step of the run, and the trace grows by its events |
| Controller.Session.VolumeDevicesConnected | main.py:57 | every volume device found is a connection to a host named by its item |
| Controller.Session.AuxSucceeds | main.py:54-81 | the volume step succeeds iff every item was looked up, had a volume part, and its device was found |
| Controller.Session.SetVolumes | main.py:73-77 | the trace grows by exactly VolumeCalls of the devices and volumes |
| Controller.Session.DisconnectAll | main.py:79-81 | the trace grows by exactly Disconnects; the result is AttributeError iff a device is missing |
| Controller.Session.SetAuxiliaryVolumes | main.py:54-81 | no specification: nothing happens and the result is success; otherwise the effect of SetVolumesFor on the parsed items |
| Controller.Session.AuxEffect | main.py:54-81 | the volume step as a relation: nothing without a specification, VolumeStepEffect on the parsed items otherwise |
| Controller.Session.VolumeStepEffect | main.py:55-81 | lookups as LookupsDone states; the volume calls and disconnects only when every item completed; AttributeError iff one device is missing |
| Controller.Session.SetVolumesFor | main.py:55-81 | the lookups as LookUpVolumeDevices states; when one of them fails, its error and nothing more; otherwise exactly VolumeCalls then Disconnects of the entries, failing with AttributeError iff a device is missing; the events in stage order |
| Controller.Session.PlayStream | main.py:84-122 | models the corrected main.py:119-122. A missing device fails with the missing-name error and a missing MIME type with its error; otherwise play succeeds, the stream is played with the computed arguments, the listener is registered on that device, and the slot holds it. A failure keeps slot and trace; the directory state is unchanged |
| Controller.Session.PlayTarget | main.py:84-122 | models the corrected main.py:119-122. getDevice of the target as LookedUp states, then play: success iff a device was found and the MIME type is known, with the slot holding that device, connected to the name; a failure keeps the slot and names the lookup's error, the missing-name error or the MIME error |
| Controller.Session.PlayEffect | main.py:84-122 | the target lookup and play as a relation between states, slot and trace, as PlayTarget states it |
| Controller.Session.PlayOrStop | main.py:39-122 | models the corrected main.py:115-122. No target: nothing happens; a held device that reports playing: exactly the stop path; otherwise the volume step (AuxEffect), and when it succeeds the target lookup and play (PlayEffect); its failure is passed on with the slot kept |
| Controller.Session.PlayOrStopEffect | main.py:39-122 | the branches of playOrStop as a relation between states, slot and trace, as PlayOrStop states it |
| Controller.Session.OnDevicePlayerStatus | main.py:99-117 | models the corrected main.py:115-116: nothing while no device is held or for other states; the IDLE and UNKNOWN states tear down the reporting device |
| Controller.Session.OnFlicButtonClickOrHold | main.py:124-133 | only a click from one of the two known buttons runs playOrStop, with its effect; anything else changes nothing |
| Controller.Session.OnFlicButtonCreateConnectionChannelResponse | main.py:142-155 | the channel is appended iff the response carries no error |
| Controller.Session.OnFlicButtonConnectionChannelRemoved | main.py:158-163 | the list becomes the filter of the removed channel |
| Controller.Session.RemoveChannels | main.py:211-220 | every channel of the list as it was is removed in list order and the list ends empty |
| Controller.Session.Exit | main.py:202-236 | channel removals, then close, come first when a client exists; then the scanner is cancelled; then the teardown; only a forced teardown reaches SystemExit |
| Controller.Session.OnCasterError | main.py:198-200 | exit with code 1 skipping the teardown: removals, close, cancel, SystemExit(1); the cache and, without a client, the channel list are kept |
| Caster.CancelEvents | caster.py:95-100 | cancelling adds a TimerCancelled event only when a timer is live |
| Caster.ScanEvents | caster.py:33-93 | a scan cancels, discovers, and arms a new timer only when hosts were found |
| Caster.Append1 | caster.py:13-14 | the cache, the live-timer count and the scan count after one more event |
| Caster.NeutralAppend | caster.py:138-185 | events other than discovery and timer events leave the cache and the timers alone |
| Caster.NeutralAppendAll | caster.py:138-185 | any run of such events leaves them alone |
| Caster.ScanSummaries | caster.py:38-93 | after a scan the cache is exactly the discovery result (no merge), one more scan was counted, and one timer is live iff hosts were found |
| Caster.ScanIsDirectoryOnly | caster.py:33-93 | a scan touches only discovery and the timer |
| Caster.GotAcceptableSet | caster.py:57 | a discovery result counts as found iff it is not None and not empty |
| Caster.MimeTypeMissing | caster.py:207 | a MIME type is missing when the lookup gave None or the empty string |
| Caster.DirectoryOnlyAppend | caster.py:102-136 | directory-only runs of events concatenate to a directory-only run |
| Caster.FirstNamed | caster.py:107 | the index of the first host whose last field is the name, or None when no host has it |
| Caster.Lookup | caster.py:107 | the host found is one of the cached hosts and has the name; None iff no host has the name |
| Caster.PlayArgs | caster.py:196-200 | the arguments are a copy of `args` with `content_type` added: the same keys plus `content_type`, the same values elsewhere |
| Caster.Directory.constructor | caster.py:12-14 | the module as imported: empty host list, no timer, empty trace |
| Caster.Directory.Setup | caster.py:19-30 | setup runs the initial scan and returns nothing; a scan that found no hosts passes its NameError on |
| Caster.Directory.CancelScanner | caster.py:95-100 | no timer is live afterwards; the cache is kept; a call with no live timer adds nothing |
| Caster.Directory.Scan | caster.py:33-93 | the cache becomes this scan's discovery result; the trace grows by ScanEvents; a timer is armed iff hosts were found; true iff hosts were found, otherwise NameError |
| Caster.Directory.LookedUpConnects | caster.py:102-136 | a device getDevice gives is a connection to a host with the name |
| Caster.Directory.LookedUpScansOnMiss | caster.py:112-136 | getDevice scans at most once, exactly when the name is not cached, and its events hold a discovery exactly then |
| Caster.Directory.GetDevice | caster.py:102-136 | exactly the step LookedUp states: a hit in the cache connects to the first host with the name and does not scan; a miss scans exactly once and retries once, giving None on a second miss; a scan error or a None cache raises; only directory events |
| Caster.Directory.LookedUp | caster.py:102-136 | the relation between the directory state before one getDevice, its result, its events and the state after: a None cache raises; a hit connects and leaves the state alone; a miss scans once, and then raises the scan's error or connects to the first host with the name, or gives None |
| Caster.Directory.Stop | caster.py:138-148 | no-op for None; otherwise `stop()` or the ControllerNotRegistered report |
| Caster.Directory.Quit | caster.py:150-160 | no-op for None; otherwise `quit_app()` or the ControllerNotRegistered report |
| Caster.Directory.SetVolume | caster.py:162-177 | no-op for None; otherwise `set_volume` or the ControllerNotRegistered report |
| Caster.Directory.IsPlaying | caster.py:179-185 | None raises AttributeError; a registered device gives its playing flag; an unregistered one reports and gives false |
| Caster.Directory.Cast | caster.py:220-229 | the volume, when one is asked for, is set before `play_media` |
| Caster.Directory.Play | caster.py:187-231 | the checks run in order with no device interaction: device or name, then media, then MIME type; a given device is returned as is with no lookup; otherwise getDevice as LookedUp states, and its error is passed on, None raises "failed to get device", a device is returned; on success the volume then `play_media` with the copied arguments |

## Left out

- pychromecast is not part of this model. Discovery, `Chromecast(...)`
  with `wait()`, the media controller, `play_media` and
  `block_until_active` are oracles or recorded events. The discovery
  oracle is indexed by the number of earlier discoveries, the directory's
  `scans` counter, which the code does not keep. `connect` gives the
  same device object for the same host every time. The code makes a new
  object on each lookup.
- A device's `playing` and `registered` flags are fixed for the handle.
  The model does not capture changes reported between calls.
- fliclib is not part of this model. `FlicClient`, `get_info`,
  `add_connection_channel`, `handle_events`, `onFlicNewVerifiedButton`,
  `onFlicGetInfo` and `onFlicButtonConnectionStatusChanged` (logging only)
  are foreign event-loop wiring. `remove_connection_channel` and `close`
  are recorded events.
- `onFlicBluetoothControllerStateChange`, `onSIGINT` and `onSIGTERM` only
  call `exit`, which is modelled.
- The `__main__` block and `os.environ` become the Session constructor's
  parameters. `sys.exit` is the `SystemExit` outcome.
- `threading.Timer` is the flag `armed`. The model does not capture the
  timer firing on a background thread or its races with callbacks. A
  rescan is an explicit call of `Scan`.
  `CONTINUOUS_DEVICE_HOST_SCAN_INTERVAL` is the integer 900, not the float
  900.0.
- `onError` is recorded as an `ErrorReported` event, and the caller goes
  on as if the handler had returned. After `setup(onCasterError)`, the real
  handler calls `exit`. The model does not chain that re-entrant exit into
  the current call.
- The spin-wait `while len(flicButtonConnectionChannels) != 0: pass` is
  not modelled. `Controller.Session.RemoveChannels` proves the list is
  already empty when the loop is reached.
- `float(a[1])` and its `ValueError` are left out. The volume stays as the
  stripped text of the item.
- `datetime.utcnow`, the timestamps, and all logging are left out.
  `formatTimeDelta` is modelled on its own, with an explicit delta.
- `play` has three cases the model does not cover:
  - `data is None`;
  - a `media` without `args` or `url`, which raises KeyError;
  - the `IndexError` handler around `guess_type(...)[0]`, which cannot
    trigger.
  In the model, a request always has its media `url` and `args`.
- `getDevice`'s two-level recursion is a loop that runs at most twice.
- `util.getLocalIpAddress` is socket I/O.

## Findings

| source | as written | input that shows it | evidently intended | confidence | as-written member | corrected member |
|---|---|---|---|---|---|---|
| main.py:119-122 | `caster.addDevicePlayerStatusListener(castDevice, onDevicePlayerStatus)`, a name caster.py never binds | any click that plays successfully: play returns, then the registration raises AttributeError | the status listener is registered on the device that plays | high; not executed | Controller.ListenerNeverRegisteredAsWritten | Controller.Session.PlayStream |
| main.py:115-116 | compares `status.player_state` with `caster.MEDIA_PLAYER_STATE_IDLE` and `_UNKNOWN`, which caster.py never binds | any status report while `castDevice` is held raises AttributeError instead of tearing down | an IDLE or UNKNOWN player state tears down the session | high; not executed | Controller.StatusCallbackNeverTearsDownAsWritten | Controller.Session.OnDevicePlayerStatus |
