/** caster.py: the device directory and rescan supervisor, and the command
    wrappers around a connected cast device.

    The module globals `deviceHosts` and `deviceHostScanTimer` are the fields
    of class Directory; `onError` is the `ErrorReported` event of the trace.
    The discovery library, the device connection and the MIME lookup are
    oracles fixed when the directory is made. */
module Caster {
  import opened Core

  /** `DEVICE_HOST_SCAN_TIMEOUT` (seconds given to discovery). */
  const DeviceHostScanTimeout := 15
  /** `CONTINUOUS_DEVICE_HOST_SCAN_INTERVAL` (seconds until the next scan). */
  const ContinuousScanInterval := 900
  /** The undefined global the empty-scan branch formats its message with. */
  const MissingGlobal := "DEVICE_SCAN_ATTEMPTS_PER_SCAN"
  /** Raised by `for i in deviceHosts` when the discovery result was None. */
  const NotIterable := TypeError("'NoneType' object is not iterable")
  /** Raised by `None.media_controller` in isPlaying. */
  const NoMediaController := AttributeError("media_controller")

  /** `deviceHosts is not None and len(deviceHosts) > 0` */
  predicate GotAcceptableSet(found: Option<seq<Host>>) {
    found.Some? && |found.value| > 0
  }

  /** What cancelDeviceHostScanner does to the trace. */
  function CancelEvents(armed: bool): seq<Event> {
    if armed then [TimerCancelled] else []
  }

  /** What one scanForDeviceHosts does to the trace, `found` being the
      discovery result: cancel the live timer, discover, and only when hosts
      were found arm a new timer. */
  function ScanEvents(armed: bool, found: Option<seq<Host>>): seq<Event> {
    CancelEvents(armed) + [Discovered(DeviceHostScanTimeout, found)]
    + (if GotAcceptableSet(found) then [TimerStarted(ContinuousScanInterval)] else [])
  }

  /** The effect of onError: it is called with the exception and nothing else. */
  function Report(registered: bool, done: Event): seq<Event> {
    if registered then [done] else [ErrorReported(ControllerNotRegistered)]
  }

  /** The events getDevice and scanForDeviceHosts produce. */
  predicate IsDirectoryEvent(e: Event) {
    e.Discovered? || e.TimerCancelled? || e.TimerStarted? || e.Connected?
  }

  predicate DirectoryOnly(s: seq<Event>) {
    forall i :: 0 <= i < |s| ==> IsDirectoryEvent(s[i])
  }

  lemma DirectoryOnlyAppend(a: seq<Event>, b: seq<Event>)
    requires DirectoryOnly(a) && DirectoryOnly(b)
    ensures DirectoryOnly(a + b)
  {
    assert forall i :: |a| <= i < |a + b| ==> (a + b)[i] == b[i - |a|];
  }

  /** A scan touches nothing but discovery and the timer. */
  lemma ScanIsDirectoryOnly(armed: bool, found: Option<seq<Host>>)
    ensures DirectoryOnly(ScanEvents(armed, found))
  {
  }

  // Summaries of the trace that the directory's state must agree with.

  function TimerDelta(e: Event): int {
    match e
    case TimerStarted(_) => 1
    case TimerCancelled => -1
    case _ => 0
  }

  /** Timers started and not cancelled. */
  function LiveTimers(events: seq<Event>): int {
    if events == [] then 0 else LiveTimers(events[..|events| - 1]) + TimerDelta(events[|events| - 1])
  }

  /** The result of the latest discovery, or the initial `[]`. */
  function CachedHosts(events: seq<Event>): Option<seq<Host>> {
    if events == [] then Some([])
    else if events[|events| - 1].Discovered? then events[|events| - 1].found
    else CachedHosts(events[..|events| - 1])
  }

  /** The number of discoveries so far. */
  function ScanCount(events: seq<Event>): nat {
    if events == [] then 0
    else ScanCount(events[..|events| - 1]) + (if events[|events| - 1].Discovered? then 1 else 0)
  }

  /** Events that leave the summaries alone. */
  predicate Neutral(e: Event) {
    !e.Discovered? && !e.TimerStarted? && !e.TimerCancelled?
  }

  /** The summaries after one more event. */
  lemma Append1(events: seq<Event>, e: Event)
    ensures LiveTimers(events + [e]) == LiveTimers(events) + TimerDelta(e)
    ensures CachedHosts(events + [e]) == (if e.Discovered? then e.found else CachedHosts(events))
    ensures ScanCount(events + [e]) == ScanCount(events) + (if e.Discovered? then 1 else 0)
  {
    assert (events + [e])[..|events|] == events;
  }

  lemma NeutralAppend(events: seq<Event>, e: Event)
    requires Neutral(e)
    ensures LiveTimers(events + [e]) == LiveTimers(events)
    ensures CachedHosts(events + [e]) == CachedHosts(events)
    ensures ScanCount(events + [e]) == ScanCount(events)
  {
    Append1(events, e);
  }

  lemma {:induction false} NeutralAppendAll(events: seq<Event>, more: seq<Event>)
    requires forall i :: 0 <= i < |more| ==> Neutral(more[i])
    ensures LiveTimers(events + more) == LiveTimers(events)
    ensures CachedHosts(events + more) == CachedHosts(events)
    ensures ScanCount(events + more) == ScanCount(events)
  {
    if |more| > 0 {
      var init := more[..|more| - 1];
      NeutralAppendAll(events, init);
      assert events + more == (events + init) + [more[|more| - 1]];
      NeutralAppend(events + init, more[|more| - 1]);
    } else {
      assert events + more == events;
    }
  }

  /** A scan replaces the cache with what was discovered, counts one
      discovery and leaves one live timer exactly when hosts were found. */
  lemma ScanSummaries(events: seq<Event>, armed: bool, found: Option<seq<Host>>)
    requires LiveTimers(events) == (if armed then 1 else 0)
    ensures CachedHosts(events + ScanEvents(armed, found)) == found
    ensures ScanCount(events + ScanEvents(armed, found)) == ScanCount(events) + 1
    ensures LiveTimers(events + ScanEvents(armed, found)) == (if GotAcceptableSet(found) then 1 else 0)
  {
    var c := events + CancelEvents(armed);
    if armed {
      Append1(events, TimerCancelled);
    } else {
      assert c == events;
    }
    var d := c + [Discovered(DeviceHostScanTimeout, found)];
    Append1(c, Discovered(DeviceHostScanTimeout, found));
    if GotAcceptableSet(found) {
      assert events + ScanEvents(armed, found) == d + [TimerStarted(ContinuousScanInterval)];
      Append1(d, TimerStarted(ContinuousScanInterval));
    } else {
      assert events + ScanEvents(armed, found) == d;
    }
  }

  /** The index of the first host whose name is `name`:
      `next(i for i in deviceHosts if i[-1] == name)`, None for StopIteration. */
  function FirstNamed(hosts: seq<Host>, name: string): (r: Option<nat>)
    ensures r.Some? ==> r.value < |hosts| && hosts[r.value].name == name
    ensures r.Some? ==> forall j :: 0 <= j < r.value ==> hosts[j].name != name
    ensures r.None? ==> forall j :: 0 <= j < |hosts| ==> hosts[j].name != name
  {
    if hosts == [] then None
    else if hosts[0].name == name then Some(0)
    else match FirstNamed(hosts[1..], name)
      case Some(i) => Some(i + 1)
      case None => None
  }

  /** The host `next(i for i in hosts if i[-1] == name)` yields, if any. */
  function Lookup(hosts: seq<Host>, name: string): (r: Option<Host>)
    ensures r.Some? ==> r.value in hosts && r.value.name == name
    ensures r.None? <==> forall h :: h in hosts ==> h.name != name
  {
    match FirstNamed(hosts, name)
    case Some(i) => Some(hosts[i])
    case None => None
  }

  /** Members of the `data` dictionary given to play: `deviceName`,
      `media` (with its `url` and `args`) and `volume`; a missing key is None. */
  datatype Media = Media(url: string, args: map<string, Arg>)
  datatype PlayRequest = PlayRequest(deviceName: Option<string>, media: Option<Media>, volume: Option<Volume>)

  const MissingDeviceName := Exception("Missing `data['deviceName']`")

  function MimeTypeNotFound(url: string): Error {
    Exception("Failed to look up mime type for media url \"" + url + "\"")
  }

  function DeviceNotFound(name: string): Error {
    Exception("Failed to get device \"" + name + "\"")
  }

  /** `not mediaArgs.get('content_type')`: None and "" are falsy. */
  predicate MimeTypeMissing(mime: Option<string>) {
    mime.None? || mime.value == ""
  }

  /** `mediaArgs` handed to `play_media`: a copy of `args` with the content type set. */
  function PlayArgs(args: map<string, Arg>, mime: string): (r: map<string, Arg>)
    ensures r.Keys == args.Keys + {"content_type"} && r["content_type"] == Text(mime)
    ensures forall k :: k in args && k != "content_type" ==> r[k] == args[k]
  {
    args["content_type" := Text(mime)]
  }

  /** setVolume's effect when play is asked for a volume. */
  function VolumeEvents(device: Device, registered: bool, volume: Option<Volume>): seq<Event> {
    if volume.Some? then Report(registered, VolumeSet(device, volume.value)) else []
  }

  /** What the directory holds between calls: the cache, whether a timer
      is live, and how many discoveries have been made so far (which
      decides what the next discovery finds). */
  datatype DirState = DirState(hosts: Option<seq<Host>>, armed: bool, scans: nat)

  class Directory {
    /** `deviceHosts` */
    var hosts: Option<seq<Host>>
    /** `deviceHostScanTimer is not None and deviceHostScanTimer.is_alive()` */
    var armed: bool
    /** The number of discoveries so far; the discovery oracle is indexed by it. */
    var scans: nat
    const trace: Trace
    /** The discovery result of the n-th scan. */
    const discover: nat -> Option<seq<Host>>
    /** The connected device for a host, ready to use. */
    const connect: Host -> Device
    /** `MimeTypes().guess_type(url)[0]` */
    const guessType: string -> Option<string>

    /** `d` is a connection to a host whose last field is `name`. */
    ghost predicate ConnectedTo(d: Device, name: string) {
      exists h: Host :: h.name == name && d == connect(h)
    }

    /** The cache is the latest discovery result (no merge with older ones)
        and at most one timer is live: exactly one when `armed`. */
    ghost predicate Valid()
      reads this, trace
    {
      && hosts == CachedHosts(trace.events) && LiveTimers(trace.events) == (if armed then 1 else 0)
      && scans == ScanCount(trace.events)
    }

    ghost function State(): DirState
      reads this
    {
      DirState(hosts, armed, scans)
    }

    /** The module as imported: no hosts, no timer. */
    constructor (discover: nat -> Option<seq<Host>>, connect: Host -> Device, guessType: string -> Option<string>)
      ensures Valid() && fresh(trace)
      ensures hosts == Some([]) && !armed && trace.events == []
      ensures this.discover == discover && this.connect == connect && this.guessType == guessType
    {
      hosts := Some([]);
      armed := false;
      scans := 0;
      trace := new Trace();
      this.discover := discover;
      this.connect := connect;
      this.guessType := guessType;
    }

    /** setup: the error handler is where ErrorReported events go; the
        initial scan runs, and setup returns nothing unless the scan raised,
        in which case the exception is passed on. */
    method Setup() returns (r: Outcome<()>)
      requires Valid()
      modifies this, trace
      ensures Valid()
      ensures hosts == discover(old(scans)) && scans == old(scans) + 1
      ensures trace.events == old(trace.events) + ScanEvents(old(armed), hosts)
      ensures r == (if GotAcceptableSet(hosts) then Return(()) else Raise(NameError(MissingGlobal)))
    {
      var scanned := Scan();
      if scanned.Raise? {
        return Raise(scanned.error);
      }
      r := Return(());
    }

    /** Appends an event that is not the directory's own. */
    method Note(e: Event)
      requires Valid() && Neutral(e)
      modifies trace
      ensures Valid()
      ensures trace.events == old(trace.events) + [e]
    {
      NeutralAppend(trace.events, e);
      trace.Record(e);
    }

    /** cancelDeviceHostScanner: cancels the live timer if there is one;
        a second call, or a call with no timer, changes nothing. */
    method CancelScanner()
      requires Valid()
      modifies this, trace
      ensures Valid()
      ensures !armed && hosts == old(hosts) && scans == old(scans)
      ensures trace.events == old(trace.events) + CancelEvents(old(armed))
    {
      if armed {
        trace.Record(TimerCancelled);
        assert trace.events[..|trace.events| - 1] == old(trace.events);
        armed := false;
      }
    }

    /** scanForDeviceHosts. The discovery result replaces the cache. When
        hosts were found the old timer has been cancelled, one new timer is
        live and the result is true. When none were found the message for
        onError names an undefined global: the NameError leaves with no
        timer armed and onError not called. */
    method Scan() returns (r: Outcome<bool>)
      requires Valid()
      modifies this, trace
      ensures Valid()
      ensures hosts == discover(old(scans)) && scans == old(scans) + 1
      ensures trace.events == old(trace.events) + ScanEvents(old(armed), hosts)
      ensures armed <==> GotAcceptableSet(hosts)
      ensures r == (if GotAcceptableSet(hosts) then Return(true) else Raise(NameError(MissingGlobal)))
    {
      ghost var before := trace.events;
      var found := discover(scans);
      ScanSummaries(before, armed, found);
      CancelScanner();
      hosts := found;
      trace.Record(Discovered(DeviceHostScanTimeout, found));
      scans := scans + 1;
      assert trace.events[..|trace.events| - 1] == before + CancelEvents(old(armed));
      if !GotAcceptableSet(found) {
        CancelScanner();
        assert trace.events == before + ScanEvents(old(armed), found);
        return Raise(NameError(MissingGlobal));
      }
      trace.Record(TimerStarted(ContinuousScanInterval));
      armed := true;
      assert trace.events == before + ScanEvents(old(armed), found);
      r := Return(true);
    }

    /** The device getDevice hands back for the host it found, if any. */
    function Connection(found: Option<Host>): Device? {
      if found.Some? then connect(found.value) else null
    }

    /** What connecting to the host found, if any, adds to the trace. */
    function ConnectEvents(found: Option<Host>): seq<Event> {
      if found.Some? then [Connected(connect(found.value))] else []
    }

    /** What getDevice(name) does from state `s`, as outcome `r`, the events
        `lookup` and the state `t` it leaves. With the name cached: that
        host, connected, with no scan. On a miss: exactly one rescan and one
        retry on what it found; a second miss gives None, and a scan that
        found nothing raises. A None cache is not iterable. */
    ghost predicate LookedUp(s: DirState, name: string, r: Outcome<Device?>, lookup: seq<Event>, t: DirState) {
      if s.hosts.None? then
        r == Raise(NotIterable) && lookup == [] && t == s
      else if Lookup(s.hosts.value, name).Some? then
        var found := Lookup(s.hosts.value, name);
        r == Return(Connection(found)) && lookup == ConnectEvents(found) && t == s
      else
        && t.hosts == discover(s.scans) && t.scans == s.scans + 1 && (t.armed <==> GotAcceptableSet(t.hosts))
        && if !GotAcceptableSet(t.hosts) then
             r == Raise(NameError(MissingGlobal)) && lookup == ScanEvents(s.armed, t.hosts)
           else
             var found := Lookup(t.hosts.value, name);
             r == Return(Connection(found)) && lookup == ScanEvents(s.armed, t.hosts) + ConnectEvents(found)
    }

    /** A device getDevice gives is a connection to a host with the name. */
    lemma LookedUpConnects(s: DirState, name: string, r: Outcome<Device?>, lookup: seq<Event>, t: DirState)
      requires LookedUp(s, name, r, lookup, t) && r.Return? && r.value != null
      ensures ConnectedTo(r.value, name)
    {
      var hosts := if Lookup(s.hosts.value, name).Some? then s.hosts.value else t.hosts.value;
      var h := Lookup(hosts, name).value;
      assert h.name == name && r.value == connect(h);
    }

    /** A lookup scans at most once, and exactly when the name is not cached. */
    lemma LookedUpScansOnMiss(s: DirState, name: string, r: Outcome<Device?>, lookup: seq<Event>, t: DirState)
      requires LookedUp(s, name, r, lookup, t)
      ensures t.scans == s.scans + (if s.hosts.Some? && Lookup(s.hosts.value, name).None? then 1 else 0)
      ensures (exists i :: 0 <= i < |lookup| && lookup[i].Discovered?) <==> t.scans == s.scans + 1
    {
      if s.hosts.Some? && Lookup(s.hosts.value, name).None? {
        assert lookup[|CancelEvents(s.armed)|].Discovered?;
      }
    }

    /** getDevice. `lookup` is what the call adds to the trace. */
    method GetDevice(name: string) returns (r: Outcome<Device?>, ghost lookup: seq<Event>)
      requires Valid()
      modifies this, trace
      ensures Valid()
      ensures trace.events == old(trace.events) + lookup && DirectoryOnly(lookup)
      ensures r.Return? && r.value != null ==> ConnectedTo(r.value, name)
      ensures r.Raise? ==> r.error == NameError(MissingGlobal) || r.error == NotIterable
      ensures LookedUp(old(State()), name, r, lookup, State())
    {
      lookup := [];
      var calledFromSelf := false;
      while true
        invariant Valid()
        invariant trace.events == old(trace.events) + lookup
        invariant !calledFromSelf ==> lookup == [] && State() == old(State())
        invariant calledFromSelf ==>
          && old(hosts).Some? && Lookup(old(hosts).value, name).None?
          && hosts == discover(old(scans)) && scans == old(scans) + 1 && armed && GotAcceptableSet(hosts)
          && lookup == ScanEvents(old(armed), hosts)
        decreases !calledFromSelf
      {
        if hosts.None? {
          return Raise(NotIterable), lookup;
        }
        var found := Lookup(hosts.value, name);
        if found.Some? {
          var device := connect(found.value);
          Note(Connected(device));
          ScanIsDirectoryOnly(old(armed), hosts);
          DirectoryOnlyAppend(lookup, [Connected(device)]);
          AppendTwo(old(trace.events), lookup, [Connected(device)]);
          lookup := lookup + [Connected(device)];
          return Return(device), lookup;
        }
        if calledFromSelf {
          ScanIsDirectoryOnly(old(armed), hosts);
          return Return(null), lookup;
        }
        var scanned := Scan();
        lookup := ScanEvents(old(armed), hosts);
        if scanned.Raise? {
          ScanIsDirectoryOnly(old(armed), hosts);
          return Raise(scanned.error), lookup;
        }
        calledFromSelf := true;
      }
    }

    /** stop: nothing for None; otherwise the media is stopped, or onError
        gets ControllerNotRegistered. */
    method Stop(device: Device?)
      requires Valid()
      modifies trace
      ensures Valid()
      ensures device == null ==> trace.events == old(trace.events)
      ensures device != null ==> trace.events == old(trace.events) + Report(device.registered, MediaStopped(device))
    {
      if device == null {
        return;
      }
      if device.registered {
        Note(MediaStopped(device));
      } else {
        Note(ErrorReported(ControllerNotRegistered));
      }
    }

    /** quit: nothing for None; otherwise the app is quit, or onError gets
        ControllerNotRegistered. */
    method Quit(device: Device?)
      requires Valid()
      modifies trace
      ensures Valid()
      ensures device == null ==> trace.events == old(trace.events)
      ensures device != null ==> trace.events == old(trace.events) + Report(device.registered, AppQuit(device))
    {
      if device == null {
        return;
      }
      if device.registered {
        Note(AppQuit(device));
      } else {
        Note(ErrorReported(ControllerNotRegistered));
      }
    }

    /** setVolume: nothing for None; otherwise the volume is set, or onError
        gets ControllerNotRegistered. */
    method SetVolume(device: Device?, volume: Volume)
      requires Valid()
      modifies trace
      ensures Valid()
      ensures device == null ==> trace.events == old(trace.events)
      ensures device != null ==> trace.events == old(trace.events) + Report(device.registered, VolumeSet(device, volume))
    {
      if device == null {
        return;
      }
      if device.registered {
        Note(VolumeSet(device, volume));
      } else {
        Note(ErrorReported(ControllerNotRegistered));
      }
    }

    /** isPlaying: there is no guard against None, so None raises
        AttributeError; an unregistered controller goes to onError and
        gives false. */
    method IsPlaying(device: Device?) returns (r: Outcome<bool>)
      requires Valid()
      modifies trace
      ensures Valid()
      ensures device == null ==> r == Raise(NoMediaController) && trace.events == old(trace.events)
      ensures device != null && device.registered ==> r == Return(device.playing) && trace.events == old(trace.events)
      ensures device != null && !device.registered ==>
        r == Return(false) && trace.events == old(trace.events) + [ErrorReported(ControllerNotRegistered)]
    {
      if device == null {
        return Raise(NoMediaController);
      }
      if !device.registered {
        Note(ErrorReported(ControllerNotRegistered));
        return Return(false);
      }
      r := Return(device.playing);
    }

    /** The device part of play: `setVolume` when a volume was asked for,
        then `play_media` (whose `block_until_active` is not modelled). */
    method Cast(target: Device, volume: Option<Volume>, url: string, mediaArgs: map<string, Arg>)
      requires Valid()
      modifies trace
      ensures Valid()
      ensures trace.events == old(trace.events) + VolumeEvents(target, target.registered, volume) + [MediaPlayed(target, url, mediaArgs)]
    {
      if volume.Some? {
        SetVolume(target, volume.value);
      }
      Note(MediaPlayed(target, url, mediaArgs));
    }

    /** Play's inputs pass its checks. */
    predicate Ready(data: PlayRequest, device: Device?) {
      (device != null || data.deviceName.Some?) && data.media.Some? && !MimeTypeMissing(guessType(data.media.value.url))
    }

    /** What play does to a device once it has one: the volume, if asked
        for, then `play_media` with the copied arguments. */
    function Played(d: Device, data: PlayRequest): seq<Event>
      requires data.media.Some? && !MimeTypeMissing(guessType(data.media.value.url))
    {
      var url := data.media.value.url;
      VolumeEvents(d, d.registered, data.volume) + [MediaPlayed(d, url, PlayArgs(data.media.value.args, guessType(url).value))]
    }

    /** play. Inputs are checked before any device interaction: a device
        or `deviceName`, then `media`, then the MIME type; the device is looked
        up only when none was given; a volume is set only when one was given,
        before `play_media`, which gets a copy of the media args with the
        content type added. `found` is what the device lookup gave (the
        device itself when one was given) and `lookup` what it did to the
        directory. */
    method Play(data: PlayRequest, device: Device?) returns (r: Outcome<Device>, ghost found: Outcome<Device?>, ghost lookup: seq<Event>)
      requires Valid()
      modifies this, trace
      ensures Valid()
      ensures old(trace.events) <= trace.events
      ensures r.Return? && device != null ==> r.value == device
      ensures r.Return? && device == null ==> data.deviceName.Some? && ConnectedTo(r.value, data.deviceName.value)
      ensures device == null && data.deviceName.None? ==>
        r == Raise(MissingDeviceName) && trace.events == old(trace.events) && State() == old(State())
      ensures (device != null || data.deviceName.Some?) && data.media.None? ==>
        r == Raise(KeyError("media")) && trace.events == old(trace.events) && State() == old(State())
      ensures (device != null || data.deviceName.Some?) && data.media.Some? && MimeTypeMissing(guessType(data.media.value.url)) ==>
        r == Raise(MimeTypeNotFound(data.media.value.url))
        && trace.events == old(trace.events) && State() == old(State())
      ensures device != null ==> State() == old(State())
      ensures Ready(data, device) && device != null ==>
        && found == Return(device) && lookup == [] && r == Return(device)
        && trace.events == old(trace.events) + Played(device, data)
      ensures Ready(data, device) && device == null ==>
        && DirectoryOnly(lookup)
        && LookedUp(old(State()), data.deviceName.value, found, lookup, State())
        && r == (if found.Raise? then Raise(found.error)
                 else if found.value == null then Raise(DeviceNotFound(data.deviceName.value))
                 else Return(found.value))
        && trace.events == old(trace.events) + lookup + (if r.Return? then Played(r.value, data) else [])
        && (r.Raise? ==>
              r.error == DeviceNotFound(data.deviceName.value) || r.error == NameError(MissingGlobal) || r.error == NotIterable)
    {
      found := Return(device);
      if device == null && data.deviceName.None? {
        return Raise(MissingDeviceName), found, [];
      }
      if data.media.None? {
        return Raise(KeyError("media")), found, [];
      }
      var url := data.media.value.url;
      var mime := guessType(url);
      if MimeTypeMissing(mime) {
        return Raise(MimeTypeNotFound(url)), found, [];
      }
      var mediaArgs := PlayArgs(data.media.value.args, mime.value);
      var target := device;
      lookup := [];
      assert trace.events == old(trace.events) + lookup;
      if target == null {
        var got;
        got, lookup := GetDevice(data.deviceName.value);
        found := got;
        if got.Raise? {
          return Raise(got.error), found, lookup;
        }
        if got.value == null {
          return Raise(DeviceNotFound(data.deviceName.value)), found, lookup;
        }
        target := got.value;
      }
      Cast(target, data.volume, url, mediaArgs);
      AppendTwo(old(trace.events), lookup, Played(target, data));
      r := Return(target);
    }
  }
}
