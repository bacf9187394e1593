/** main.py: the cast session controller. Button clicks toggle playback of
    a fixed radio stream on the configured device; the controller keeps the
    single `castDevice` slot and the list of button connection channels,
    and tears everything down on exit. */
module Controller {
  import opened Core
  import opened Strings
  import opened Caster

  const BlackButtonAddress := "80:e4:da:70:32:3b"
  const TurquoiseButtonAddress := "80:e4:da:73:70:72"

  /** The stream playOrStop casts, with its `play_media` arguments. */
  const StreamUrl := "https://sverigesradio.se/topsy/direkt/srapi/132.mp3"
  const StreamThumb := "https://static-cdn.sr.se/sida/images/132/2186745_512_512.jpg?preset=api-default-square"
  const StreamArgs: map<string, Arg> :=
    map["stream_type" := Text("LIVE"), "autoplay" := Flag(true), "title" := Text("P1"), "thumb" := Text(StreamThumb)]
  /** The `data` playOrStop hands to caster.play: media only, no name, no volume. */
  const StreamRequest := PlayRequest(None, Some(Media(StreamUrl, StreamArgs)), None)

  /** caster.quit takes no `disconnectFromDevice` keyword, so the call at
      main.py:37 fails while binding its arguments. */
  const QuitKeywordError := TypeError("quit() got an unexpected keyword argument 'disconnectFromDevice'")
  /** `None.disconnect(...)` for a volume device that was not found. */
  const NoDisconnect := AttributeError("disconnect")

  /** pychromecast's media player states. */
  datatype PlayerState = Playing | Paused | Buffering | Idle | Unknown

  /** The `player_state` string pychromecast reports for each state. */
  function PlayerStateName(p: PlayerState): string {
    match p
    case Playing => "PLAYING"
    case Paused => "PAUSED"
    case Buffering => "BUFFERING"
    case Idle => "IDLE"
    case Unknown => "UNKNOWN"
  }

  /** The player states that end a session. */
  const PlayerStateIdle := PlayerStateName(Idle)
  const PlayerStateUnknown := PlayerStateName(Unknown)

  /** fliclib.ClickType */
  datatype ClickType = ButtonDown | ButtonUp | ButtonClick | ButtonSingleClick | ButtonDoubleClick | ButtonHold

  /** fliclib.CreateConnectionChannelError */
  datatype CreateConnectionChannelError = NoError | MaxPendingConnectionsReached

  // ---------------------------------------------------------------------
  // The volume specification, `DEVICES_TO_SET_VOLUME_FOR`:
  // "name=volume, name=volume, ...".

  lemma StripThenSplitEach(items: seq<string>)
    ensures forall i :: 0 <= i < |items| ==>
      StripEach(Split(Strip(items[i]), '=')) == StripEach(Split(items[i], '='))
  {
    forall i | 0 <= i < |items| {
      StripThenSplit(items[i], '=');
    }
  }

  lemma SplitCountEach(items: seq<string>)
    ensures forall i :: 0 <= i < |items| ==> |Split(items[i], '=')| == Count(items[i], '=') + 1
  {
    forall i | 0 <= i < |items| {
      SplitCount(items[i], '=');
    }
  }

  /** `[[n.strip() for n in i.strip().split('=')] for i in spec.split(',')]` */
  function VolumeSpecItems(spec: string): seq<seq<string>> {
    var items := Split(spec, ',');
    seq(|items|, i requires 0 <= i < |items| => StripEach(Split(Strip(items[i]), '=')))
  }

  /** One entry per comma-separated item, in input order, holding the item's
      `=`-separated parts, each stripped; stripping the item first makes no
      difference, as `=` is not whitespace. An item has one part more than
      it has `=` signs. */
  lemma VolumeSpecItemsShape(spec: string)
    ensures var r := VolumeSpecItems(spec);
      && |r| == |Split(spec, ',')|
      && (forall i :: 0 <= i < |r| ==> r[i] == StripEach(Split(Split(spec, ',')[i], '=')))
      && (forall i :: 0 <= i < |r| ==> |r[i]| == Count(Split(spec, ',')[i], '=') + 1)
      && (forall i, j :: 0 <= i < |r| && 0 <= j < |r[i]| ==> IsStripped(r[i][j]))
  {
    var items := Split(spec, ',');
    StripThenSplitEach(items);
    SplitCountEach(items);
  }

  /** A name and a volume that can be written in a specification. */
  predicate Writable(part: string) {
    IsStripped(part) && ',' !in part && '=' !in part
  }

  function RenderItem(pair: (string, string)): string {
    pair.0 + "=" + pair.1
  }

  /** "name=volume,name=volume,..." */
  function RenderSpec(pairs: seq<(string, string)>): string {
    Join(seq(|pairs|, i requires 0 <= i < |pairs| => RenderItem(pairs[i])), ',')
  }

  lemma StripEachStripped(a: string, b: string)
    requires IsStripped(a) && IsStripped(b)
    ensures StripEach([a, b]) == [a, b]
  {
    StripStripped(a);
    StripStripped(b);
  }

  /** One rendered item parses back into its name and volume. */
  lemma ItemRoundTrip(pair: (string, string))
    requires Writable(pair.0) && Writable(pair.1)
    ensures StripEach(Split(RenderItem(pair), '=')) == [pair.0, pair.1]
  {
    assert RenderItem(pair) == pair.0 + ['='] + pair.1;
    SplitCons(pair.0, '=', pair.1);
    SplitNoSeparator(pair.1, '=');
    assert Split(RenderItem(pair), '=') == [pair.0, pair.1];
    StripEachStripped(pair.0, pair.1);
  }

  /** Parsing a rendered specification gives back its pairs, in order. */
  lemma VolumeSpecRoundTrip(pairs: seq<(string, string)>)
    requires |pairs| >= 1
    requires forall i :: 0 <= i < |pairs| ==> Writable(pairs[i].0) && Writable(pairs[i].1)
    ensures VolumeSpecItems(RenderSpec(pairs)) == seq(|pairs|, i requires 0 <= i < |pairs| => [pairs[i].0, pairs[i].1])
  {
    var items := seq(|pairs|, i requires 0 <= i < |pairs| => RenderItem(pairs[i]));
    forall i | 0 <= i < |items| ensures ',' !in items[i] {
      assert items[i] == pairs[i].0 + "=" + pairs[i].1;
    }
    SplitJoin(items, ',');
    VolumeSpecItemsShape(RenderSpec(pairs));
    var r := VolumeSpecItems(RenderSpec(pairs));
    forall i | 0 <= i < |pairs| ensures r[i] == [pairs[i].0, pairs[i].1] {
      ItemRoundTrip(pairs[i]);
    }
  }

  /** The whole specification is cut into items and nothing is lost. */
  lemma VolumeSpecCoversInput(spec: string)
    ensures Join(Split(spec, ','), ',') == spec
    ensures |VolumeSpecItems(spec)| == Count(spec, ',') + 1
  {
    JoinSplit(spec, ',');
    SplitCount(spec, ',');
  }

  // ---------------------------------------------------------------------
  // The auxiliary-device calls in playOrStop.

  /** The ghost record of one playOrStop on its play path: the volume
      step's events, outcome, lookups and entries, the directory state it
      left, and the target lookup's outcome and events. */
  datatype PlayRun = PlayRun(aux: seq<Event>, auxResult: Outcome<()>, lookups: LookupRun,
                             devices: seq<Device?>, volumes: seq<Volume>, mid: DirState,
                             found: Outcome<Device?>, lookup: seq<Event>)

  /** A record of successive getDevice calls: the j-th started in
      `states[j]`, gave `results[j]` and added `steps[j]` to the trace;
      `states` ends with the state after the last call. */
  datatype LookupRun = LookupRun(states: seq<DirState>, results: seq<Outcome<Device?>>, steps: seq<seq<Event>>)

  /** The events of the calls, one after the other. */
  function Concat(steps: seq<seq<Event>>): seq<Event> {
    if steps == [] then [] else Concat(steps[..|steps| - 1]) + steps[|steps| - 1]
  }

  lemma ConcatStep(steps: seq<seq<Event>>, step: seq<Event>)
    ensures Concat(steps + [step]) == Concat(steps) + step
  {
    assert (steps + [step])[..|steps|] == steps;
  }

  /** Lookups come first, then volume calls, then disconnects. */
  function Stage(e: Event): nat {
    if IsDirectoryEvent(e) then 0
    else if e.VolumeSet? || e.ErrorReported? then 1
    else if e.Disconnected? then 2
    else 3
  }

  predicate AllStage(s: seq<Event>, k: nat) {
    forall i :: 0 <= i < |s| ==> Stage(s[i]) == k
  }

  /** Only auxiliary-device events, in stage order. */
  predicate AuxPhases(s: seq<Event>) {
    && (forall i :: 0 <= i < |s| ==> Stage(s[i]) < 3)
    && (forall i, j :: 0 <= i < j < |s| ==> Stage(s[i]) <= Stage(s[j]))
  }

  lemma PhasesOrdered(lookups: seq<Event>, volumes: seq<Event>, disconnects: seq<Event>)
    requires DirectoryOnly(lookups) && AllStage(volumes, 1) && AllStage(disconnects, 2)
    ensures AuxPhases(lookups + volumes + disconnects)
  {
    var s := lookups + volumes + disconnects;
    assert forall i :: 0 <= i < |lookups| ==> s[i] == lookups[i];
    assert forall i :: |lookups| <= i < |lookups| + |volumes| ==> s[i] == volumes[i - |lookups|];
    assert forall i :: |lookups| + |volumes| <= i < |s| ==> s[i] == disconnects[i - |lookups| - |volumes|];
    assert forall i :: 0 <= i < |s| ==>
      Stage(s[i]) == (if i < |lookups| then 0 else if i < |lookups| + |volumes| then 1 else 2);
  }

  /** `caster.setVolume(device, volume)` for one entry. */
  function VolumeCall(device: Device?, volume: Volume): seq<Event> {
    if device == null then [] else Report(device.registered, VolumeSet(device, volume))
  }

  /** `[caster.setVolume(i['device'], i['volume']) for i in ...]`: one call per
      device that was found, in order; missing devices are skipped. */
  function VolumeCalls(devices: seq<Device?>, volumes: seq<Volume>): (r: seq<Event>)
    requires |devices| == |volumes|
    ensures AllStage(r, 1)
  {
    if devices == [] then []
    else
      var n := |devices| - 1;
      VolumeCalls(devices[..n], volumes[..n]) + VolumeCall(devices[n], volumes[n])
  }

  lemma VolumeCallsStep(devices: seq<Device?>, volumes: seq<Volume>, i: nat)
    requires i < |devices| == |volumes|
    ensures VolumeCalls(devices[..i + 1], volumes[..i + 1])
         == VolumeCalls(devices[..i], volumes[..i]) + VolumeCall(devices[i], volumes[i])
  {
    assert devices[..i + 1][..i] == devices[..i] && volumes[..i + 1][..i] == volumes[..i];
  }

  /** One volume call per device that was found. */
  lemma {:induction false} VolumeCallsCount(devices: seq<Device?>, volumes: seq<Volume>)
    requires |devices| == |volumes|
    ensures |VolumeCalls(devices, volumes)| == |devices| - multiset(devices)[null]
  {
    if devices != [] {
      var n := |devices| - 1;
      VolumeCallsCount(devices[..n], volumes[..n]);
      assert devices == devices[..n] + [devices[n]];
    }
  }

  /** The number of devices before the first missing one. */
  function FirstNull(devices: seq<Device?>): (k: nat)
    ensures k <= |devices|
    ensures forall j :: 0 <= j < k ==> devices[j] != null
    ensures k < |devices| ==> devices[k] == null
    ensures k < |devices| <==> null in devices
  {
    if devices == [] then 0
    else if devices[0] == null then 0
    else 1 + FirstNull(devices[1..])
  }

  /** The disconnects of the first `n` devices, in order. */
  function DisconnectPrefix(devices: seq<Device?>, n: nat): (r: seq<Event>)
    requires n <= |devices| && forall j :: 0 <= j < n ==> devices[j] != null
    ensures |r| == n
    ensures forall i :: 0 <= i < n ==> r[i] == Disconnected(devices[i])
  {
    if n == 0 then [] else DisconnectPrefix(devices, n - 1) + [Disconnected(devices[n - 1])]
  }

  /** `[i['device'].disconnect(blocking=False) for i in ...]`: disconnects in
      order up to the first missing device, whose `disconnect` raises. */
  function Disconnects(devices: seq<Device?>): (r: seq<Event>)
    ensures AllStage(r, 2)
    ensures |r| <= |devices|
    ensures forall i :: 0 <= i < |r| ==> devices[i] != null && r[i] == Disconnected(devices[i])
    ensures null !in devices ==> |r| == |devices|
  {
    DisconnectPrefix(devices, FirstNull(devices))
  }

  // ---------------------------------------------------------------------
  // Session teardown, the status callback and the button filter.

  /** The events of stopAndQuitCasting(device, forceQuit). With forceQuit
      there is no call at all; otherwise isPlaying is asked (an unregistered
      controller is reported), stop is issued only when playing, and quit
      never reaches the device. */
  function StopQuitEvents(device: Device?, forceQuit: bool): (r: seq<Event>)
    ensures forceQuit || device == null ==> r == []
    ensures forall i :: 0 <= i < |r| ==> !r[i].AppQuit?
    ensures device != null ==> (MediaStopped(device) in r <==> !forceQuit && device.registered && device.playing)
    ensures |r| <= 1
  {
    if forceQuit || device == null then []
    else if !device.registered then [ErrorReported(ControllerNotRegistered)]
    else if device.playing then [MediaStopped(device)]
    else []
  }

  /** How stopAndQuitCasting ends: only forceQuit lets it return. */
  function StopQuitOutcome(device: Device?, forceQuit: bool): (r: Outcome<()>)
    ensures r.Return? <==> forceQuit
    ensures !forceQuit && device != null ==> r == Raise(QuitKeywordError)
  {
    if forceQuit then Return(())
    else if device == null then Raise(NoMediaController)
    else Raise(QuitKeywordError)
  }

  /** `castDevice is not None and caster.isPlaying(castDevice)` */
  predicate IsToggle(device: Device?) {
    device != null && device.registered && device.playing
  }

  /** What asking isPlaying of a held device adds to the trace. */
  function Probe(device: Device?): (r: seq<Event>)
    ensures r != [] <==> device != null && !device.registered
  {
    if device != null && !device.registered then [ErrorReported(ControllerNotRegistered)] else []
  }

  /** `status.player_state == MEDIA_PLAYER_STATE_IDLE or ... == MEDIA_PLAYER_STATE_UNKNOWN` */
  predicate TearsDown(state: string) {
    state == PlayerStateIdle || state == PlayerStateUnknown
  }

  /** Only a click (not a press, release, hold or double click) from one of
      the two known buttons starts playOrStop. */
  predicate Triggers(bdAddr: string, clickType: ClickType) {
    clickType == ButtonClick && (bdAddr == BlackButtonAddress || bdAddr == TurquoiseButtonAddress)
  }

  /** `error and error is not NoError` is false: the channel is kept. */
  predicate Accepted(error: Option<CreateConnectionChannelError>) {
    error.None? || error.value == NoError
  }

  // ---------------------------------------------------------------------
  // The channel list.

  /** `[i for i in channels if i != channel]` */
  function Without(channels: seq<Channel>, channel: Channel): (r: seq<Channel>)
    ensures |r| <= |channels|
  {
    if channels == [] then []
    else (if channels[0] == channel then [] else [channels[0]]) + Without(channels[1..], channel)
  }

  /** The filter keeps exactly the other channels. */
  lemma {:induction false} WithoutMembers(channels: seq<Channel>, channel: Channel)
    ensures forall x :: x in Without(channels, channel) <==> x in channels && x != channel
  {
    if channels != [] {
      WithoutMembers(channels[1..], channel);
      assert channels == [channels[0]] + channels[1..];
    }
  }

  /** The filter keeps the order of what it keeps. */
  lemma {:induction false} WithoutAppend(a: seq<Channel>, b: seq<Channel>, channel: Channel)
    ensures Without(a + b, channel) == Without(a, channel) + Without(b, channel)
  {
    if a == [] {
      assert a + b == b;
    } else {
      assert (a + b)[1..] == a[1..] + b;
      WithoutAppend(a[1..], b, channel);
    }
  }

  /** Removing a channel the list does not hold changes nothing. */
  lemma {:induction false} WithoutAbsent(channels: seq<Channel>, channel: Channel)
    requires channel !in channels
    ensures Without(channels, channel) == channels
  {
    if channels != [] {
      WithoutAbsent(channels[1..], channel);
      assert channels == [channels[0]] + channels[1..];
    }
  }

  /** Appending a channel and then removing it gives the list back when it
      was not held before: the response and removal handlers are inverse. */
  lemma AddThenRemove(channels: seq<Channel>, channel: Channel)
    requires channel !in channels
    ensures Without(channels + [channel], channel) == channels
  {
    WithoutAppend(channels, [channel], channel);
    WithoutAbsent(channels, channel);
    assert Without([channel], channel) == [];
  }

  lemma NoMembersEmpty(channels: seq<Channel>)
    ensures (forall x :: x !in channels) ==> channels == []
  {
    if channels != [] {
      assert channels[0] in channels;
    }
  }

  /** `[flicClient.remove_connection_channel(i) for i in channels]` */
  function Removals(channels: seq<Channel>): (r: seq<Event>)
    ensures |r| == |channels|
  {
    if channels == [] then []
    else Removals(channels[..|channels| - 1]) + [ChannelRemoved(channels[|channels| - 1])]
  }

  lemma RemovalsStep(channels: seq<Channel>, i: nat)
    requires i < |channels|
    ensures Removals(channels[..i + 1]) == Removals(channels[..i]) + [ChannelRemoved(channels[i])]
  {
    assert channels[..i + 1][..i] == channels[..i];
  }

  lemma SuffixStep(channels: seq<Channel>, i: nat)
    requires i < |channels|
    ensures forall x :: x in channels[i..] ==> x == channels[i] || x in channels[i + 1..]
  {
    assert channels[i..] == [channels[i]] + channels[i + 1..];
  }

  /** One removal per channel, in list order. */
  lemma {:induction false} RemovalsInOrder(channels: seq<Channel>)
    ensures forall i :: 0 <= i < |channels| ==> Removals(channels)[i] == ChannelRemoved(channels[i])
  {
    if channels != [] {
      RemovalsInOrder(channels[..|channels| - 1]);
    }
  }

  // ---------------------------------------------------------------------
  // Defects in how main.py uses caster.py, as the code stands.

  /** The names caster.py binds at module level. */
  const CasterNames: set<string> := {
    "pychromecast", "MimeTypes", "logging", "sys", "threading", "datetime", "timedelta",
    "formatTimeDelta", "logger", "onError", "deviceHosts", "deviceHostScanTimer",
    "DEVICE_HOST_SCAN_TIMEOUT", "CONTINUOUS_DEVICE_HOST_SCAN_INTERVAL",
    "setup", "scanForDeviceHosts", "cancelDeviceHostScanner", "getDevice",
    "stop", "quit", "setVolume", "isPlaying", "play"
  }

  /** `caster.<name>`: an AttributeError for a name the module does not bind. */
  function CasterAttribute(name: string): (r: Outcome<()>)
    ensures r.Raise? <==> name !in CasterNames
    ensures r.Raise? ==> r.error == AttributeError(name)
  {
    if name in CasterNames then Return(()) else Raise(AttributeError(name))
  }

  /** main.py:119 as written: `caster.addDevicePlayerStatusListener(...)`. */
  function RegisterListenerAsWritten(): Outcome<()> {
    CasterAttribute("addDevicePlayerStatusListener")
  }

  /** main.py:102-117 as written: true when teardown would run. With a cast
      device held, the comparison reads `caster.MEDIA_PLAYER_STATE_IDLE` first. */
  function StatusCallbackAsWritten(held: bool, state: string): Outcome<bool> {
    if !held then Return(false)
    else match CasterAttribute("MEDIA_PLAYER_STATE_IDLE")
      case Raise(e) => Raise(e)
      case Return(_) => Return(TearsDown(state))
  }

  /** Every successful play ends in an AttributeError: the listener is never
      registered. */
  lemma ListenerNeverRegisteredAsWritten()
    ensures RegisterListenerAsWritten() == Raise(AttributeError("addDevicePlayerStatusListener"))
  {
    assert "addDevicePlayerStatusListener" !in CasterNames;
  }

  /** The status callback cannot tear down, whatever the state. */
  lemma StatusCallbackNeverTearsDownAsWritten(state: string)
    ensures StatusCallbackAsWritten(true, state) == Raise(AttributeError("MEDIA_PLAYER_STATE_IDLE"))
    ensures StatusCallbackAsWritten(false, state) == Return(false)
  {
    assert "MEDIA_PLAYER_STATE_IDLE" !in CasterNames;
  }

  /** Over pychromecast's states the teardown rule is the intended one:
      an idle or unknown player ends the session, a playing, paused or
      buffering one does not. */
  lemma TearsDownExactly()
    ensures forall p: PlayerState :: TearsDown(PlayerStateName(p)) <==> p == Idle || p == Unknown
  {
    forall p: PlayerState ensures TearsDown(PlayerStateName(p)) <==> p == Idle || p == Unknown {
      match p
      case Playing => assert PlayerStateName(p)[1] != PlayerStateIdle[1] && PlayerStateName(p)[1] != PlayerStateUnknown[1];
      case Paused => assert PlayerStateName(p)[1] != PlayerStateIdle[1] && PlayerStateName(p)[1] != PlayerStateUnknown[1];
      case Buffering => assert PlayerStateName(p)[1] != PlayerStateIdle[1] && PlayerStateName(p)[1] != PlayerStateUnknown[1];
      case Idle =>
      case Unknown =>
    }
  }

  /** Distinct states have distinct names, so the reported string decides the state. */
  lemma PlayerStateNamesDistinct(p: PlayerState, q: PlayerState)
    ensures PlayerStateName(p) == PlayerStateName(q) <==> p == q
  {
    if p != q {
      assert PlayerStateName(p)[1] != PlayerStateName(q)[1] || PlayerStateName(p)[0] != PlayerStateName(q)[0];
    }
  }

  // ---------------------------------------------------------------------

  /** The module globals of main.py once its `__main__` block has run. */
  class Session {
    const caster: Directory
    /** `DEVICE_TO_CAST_TO` */
    const target: Option<string>
    /** `DEVICES_TO_SET_VOLUME_FOR` */
    const volumeSpec: Option<string>
    /** `flicClient is not None` */
    const hasClient: bool
    /** `castDevice` */
    var castDevice: Device?
    /** `flicButtonConnectionChannels` */
    var channels: seq<Channel>

    ghost predicate Valid()
      reads caster, caster.trace
    {
      caster.Valid()
    }

    constructor (caster: Directory, target: Option<string>, volumeSpec: Option<string>, hasClient: bool)
      ensures this.caster == caster && this.target == target && this.volumeSpec == volumeSpec
      ensures this.hasClient == hasClient
      ensures castDevice == null && channels == []
    {
      this.caster := caster;
      this.target := target;
      this.volumeSpec := volumeSpec;
      this.hasClient := hasClient;
      castDevice := null;
      channels := [];
    }

    /** stopAndQuitCasting(device, forceQuit). The `castDevice = None` at its
        top binds a local, so the session slot is left as it was. */
    method StopAndQuitCasting(device: Device?, forceQuit: bool) returns (r: Outcome<()>)
      requires Valid()
      modifies caster.trace
      ensures Valid()
      ensures castDevice == old(castDevice)
      ensures caster.trace.events == old(caster.trace.events) + StopQuitEvents(device, forceQuit)
      ensures r == StopQuitOutcome(device, forceQuit)
    {
      if forceQuit {
        return Return(());
      }
      var playing := caster.IsPlaying(device);
      if playing.Raise? {
        return Raise(playing.error);
      }
      if playing.value {
        caster.Stop(device);
      }
      r := Raise(QuitKeywordError);
    }

    /** The j-th call of `run` is getDevice of the j-th item's name, from the
        state the call before it left. */
    ghost predicate StepOk(items: seq<seq<string>>, run: LookupRun, j: nat) {
      && j < |run.results| && j < |run.steps| && j + 1 < |run.states| && j < |items| && |items[j]| >= 1
      && caster.LookedUp(run.states[j], items[j][0], run.results[j], run.steps[j], run.states[j + 1])
    }

    /** `run` is well formed: one state more than calls, each call a lookup. */
    ghost predicate RunOk(items: seq<seq<string>>, run: LookupRun) {
      && |run.states| == |run.results| + 1 && |run.steps| == |run.results| && |run.results| <= |items|
      && forall j :: 0 <= j < |run.results| ==> StepOk(items, run, j)
    }

    /** A run extended by a lookup of the next item's name. */
    lemma RunExtend(items: seq<seq<string>>, run: LookupRun, result: Outcome<Device?>, step: seq<Event>, next: DirState)
      requires RunOk(items, run) && |run.results| < |items| && |items[|run.results|]| >= 1
      requires caster.LookedUp(run.states[|run.results|], items[|run.results|][0], result, step, next)
      ensures RunOk(items, LookupRun(run.states + [next], run.results + [result], run.steps + [step]))
    {
      var run' := LookupRun(run.states + [next], run.results + [result], run.steps + [step]);
      forall j | 0 <= j < |run'.results| ensures StepOk(items, run', j) {
        if j < |run.results| {
          assert StepOk(items, run, j);
        }
      }
    }

    /** What looking up the volume devices did, as `run`: one getDevice per
        item, in item order, each from the state the one before left, until
        a lookup raised or an item had no second part. The entries completed
        are the devices found and their items' second parts; the outcome
        succeeds iff every item was completed, and otherwise is the error of
        the last lookup, or IndexError when that lookup returned. */
    ghost predicate LookupsDone(items: seq<seq<string>>, run: LookupRun, r: Outcome<()>,
                                devices: seq<Device?>, volumes: seq<Volume>)
    {
      && RunOk(items, run)
      && |devices| == |volumes| <= |run.results|
      && (forall j :: 0 <= j < |devices| ==> run.results[j] == Return(devices[j]) && |items[j]| >= 2 && volumes[j] == items[j][1])
      && (r.Return? <==> |devices| == |items|)
      && (r.Raise? ==>
            && |run.results| == |devices| + 1
            && if run.results[|devices|].Raise? then r.error == run.results[|devices|].error
               else |items[|devices|]| == 1 && r.error == IndexError)
    }

    /** getDevice of the next item's name, recorded at the end of the chain
        of lookups so far; `base` is the trace before the first of them. */
    method LookUpItem(items: seq<seq<string>>, i: nat, ghost base: seq<Event>, ghost run: LookupRun)
      returns (found: Outcome<Device?>, ghost run': LookupRun)
      requires Valid() && RunOk(items, run) && |run.results| == i < |items| && |items[i]| >= 1
      requires run.states[i] == caster.State()
      requires caster.trace.events == base + Concat(run.steps) && DirectoryOnly(Concat(run.steps))
      modifies caster, caster.trace
      ensures Valid() && RunOk(items, run')
      ensures run'.states == run.states + [caster.State()] && run'.results == run.results + [found]
      ensures run'.steps[..i] == run.steps
      ensures found.Raise? ==> found.error == NameError(MissingGlobal) || found.error == NotIterable
      ensures caster.trace.events == base + Concat(run'.steps) && DirectoryOnly(Concat(run'.steps))
    {
      ghost var step;
      found, step := caster.GetDevice(items[i][0]);
      DirectoryOnlyAppend(Concat(run.steps), step);
      AppendTwo(base, Concat(run.steps), step);
      ConcatStep(run.steps, step);
      RunExtend(items, run, found, step, caster.State());
      run' := LookupRun(run.states + [caster.State()], run.results + [found], run.steps + [step]);
      assert run'.steps[..i] == run.steps;
    }

    /** Every volume device found is a connection to its item's name. */
    lemma VolumeDevicesConnected(items: seq<seq<string>>, run: LookupRun, r: Outcome<()>,
                                 devices: seq<Device?>, volumes: seq<Volume>)
      requires LookupsDone(items, run, r, devices, volumes)
      ensures forall j :: 0 <= j < |devices| && devices[j] != null ==> caster.ConnectedTo(devices[j], items[j][0])
    {
      forall j | 0 <= j < |devices| && devices[j] != null
        ensures caster.ConnectedTo(devices[j], items[j][0])
      {
        assert StepOk(items, run, j);
        caster.LookedUpConnects(run.states[j], items[j][0], run.results[j], run.steps[j], run.states[j + 1]);
      }
    }

    /** The devices named in the volume specification, looked up in order;
        each item's volume is its second part, read after the lookup. */
    method LookUpVolumeDevices(items: seq<seq<string>>)
      returns (r: Outcome<()>, devices: seq<Device?>, volumes: seq<Volume>, ghost run: LookupRun)
      requires Valid()
      requires forall i :: 0 <= i < |items| ==> |items[i]| >= 1
      modifies caster, caster.trace
      ensures Valid()
      ensures LookupsDone(items, run, r, devices, volumes)
      ensures run.states[0] == old(caster.State()) && run.states[|run.states| - 1] == caster.State()
      ensures caster.trace.events == old(caster.trace.events) + Concat(run.steps) && DirectoryOnly(Concat(run.steps))
      ensures r.Raise? && r.error != IndexError ==> r.error == NameError(MissingGlobal) || r.error == NotIterable
    {
      devices, volumes := [], [];
      run := LookupRun([caster.State()], [], []);
      var i := 0;
      while i < |items|
        invariant 0 <= i <= |items| && |devices| == |volumes| == i
        invariant RunOk(items, run) && |run.results| == i
        invariant run.states[0] == old(caster.State()) && run.states[i] == caster.State()
        invariant caster.Valid()
        invariant caster.trace.events == old(caster.trace.events) + Concat(run.steps) && DirectoryOnly(Concat(run.steps))
        invariant forall j :: 0 <= j < i ==> run.results[j] == Return(devices[j])
        invariant forall j :: 0 <= j < i ==> |items[j]| >= 2 && volumes[j] == items[j][1]
      {
        var found;
        found, run := LookUpItem(items, i, old(caster.trace.events), run);
        if found.Raise? {
          return Raise(found.error), devices, volumes, run;
        }
        if |items[i]| < 2 {
          return Raise(IndexError), devices, volumes, run;
        }
        devices := devices + [found.value];
        volumes := volumes + [items[i][1]];
        i := i + 1;
      }
      r := Return(());
    }

    /** setVolume for every entry, in order. */
    method SetVolumes(devices: seq<Device?>, volumes: seq<Volume>)
      requires Valid() && |devices| == |volumes|
      modifies caster.trace
      ensures Valid()
      ensures caster.trace.events == old(caster.trace.events) + VolumeCalls(devices, volumes)
    {
      var i := 0;
      while i < |devices|
        invariant 0 <= i <= |devices|
        invariant caster.Valid()
        invariant caster.trace.events == old(caster.trace.events) + VolumeCalls(devices[..i], volumes[..i])
      {
        caster.SetVolume(devices[i], volumes[i]);
        VolumeCallsStep(devices, volumes, i);
        AppendTwo(old(caster.trace.events), VolumeCalls(devices[..i], volumes[..i]), VolumeCall(devices[i], volumes[i]));
        i := i + 1;
      }
      assert devices[..i] == devices && volumes[..i] == volumes;
    }

    /** disconnect every entry, in order; a missing device raises. */
    method DisconnectAll(devices: seq<Device?>) returns (r: Outcome<()>)
      requires Valid()
      modifies caster.trace
      ensures Valid()
      ensures caster.trace.events == old(caster.trace.events) + Disconnects(devices)
      ensures r == (if null in devices then Raise(NoDisconnect) else Return(()))
    {
      var i := 0;
      while i < |devices|
        invariant 0 <= i <= |devices|
        invariant forall j :: 0 <= j < i ==> devices[j] != null
        invariant caster.Valid()
        invariant caster.trace.events == old(caster.trace.events) + DisconnectPrefix(devices, i)
      {
        if devices[i] == null {
          return Raise(NoDisconnect);
        }
        caster.Note(Disconnected(devices[i]));
        AppendTwo(old(caster.trace.events), DisconnectPrefix(devices, i), [Disconnected(devices[i])]);
        i := i + 1;
      }
      r := Return(());
    }

    /** The volume part of playOrStop from directory state `s` to `t`:
        nothing without a specification. With one, the lookups of
        LookupsDone over its items; when every item was completed, one
        setVolume per entry and then the disconnects, the first missing
        device raising; otherwise the lookups' error and nothing more. */
    ghost predicate AuxEffect(s: DirState, aux: seq<Event>, r: Outcome<()>, run: LookupRun,
                              devices: seq<Device?>, volumes: seq<Volume>, t: DirState)
    {
      && AuxPhases(aux)
      && if volumeSpec.None? then r == Return(()) && aux == [] && t == s
         else VolumeStepEffect(VolumeSpecItems(volumeSpec.value), s, aux, r, run, devices, volumes, t)
    }

    /** The volume part of playOrStop for the parsed `items`. */
    ghost predicate VolumeStepEffect(items: seq<seq<string>>, s: DirState, aux: seq<Event>, r: Outcome<()>,
                                     run: LookupRun, devices: seq<Device?>, volumes: seq<Volume>, t: DirState)
    {
      && LookupsDone(items, run, if |devices| == |items| then Return(()) else r, devices, volumes)
      && run.states[0] == s && run.states[|run.states| - 1] == t
      && if |devices| < |items| then aux == Concat(run.steps)
         else
           && aux == Concat(run.steps) + VolumeCalls(devices, volumes) + Disconnects(devices)
           && r == (if null in devices then Raise(NoDisconnect) else Return(()))
    }

    /** The volume step succeeds exactly when every item has a volume part,
        every lookup returned, and every device was found. */
    lemma AuxSucceeds(s: DirState, aux: seq<Event>, r: Outcome<()>, run: LookupRun,
                      devices: seq<Device?>, volumes: seq<Volume>, t: DirState)
      requires volumeSpec.Some? && AuxEffect(s, aux, r, run, devices, volumes, t)
      ensures var items := VolumeSpecItems(volumeSpec.value);
        r.Return? <==>
          && |run.results| == |items|
          && (forall j :: 0 <= j < |items| ==> |items[j]| >= 2 && run.results[j].Return? && run.results[j].value != null)
    {
      var items := VolumeSpecItems(volumeSpec.value);
      if |devices| == |items| {
        assert LookupsDone(items, run, Return(()), devices, volumes);
      } else {
        assert LookupsDone(items, run, r, devices, volumes);
      }
    }

    /** The volume part of playOrStop, when a specification is configured:
        look up every named device, set every volume, then disconnect every
        device. */
    method SetAuxiliaryVolumes()
      returns (r: Outcome<()>, ghost aux: seq<Event>, ghost run: LookupRun, ghost devices: seq<Device?>, ghost volumes: seq<Volume>)
      requires Valid()
      modifies caster, caster.trace
      ensures Valid()
      ensures caster.trace.events == old(caster.trace.events) + aux
      ensures AuxEffect(old(caster.State()), aux, r, run, devices, volumes, caster.State())
    {
      aux, run, devices, volumes := [], LookupRun([caster.State()], [], []), [], [];
      if volumeSpec.None? {
        return Return(()), aux, run, devices, volumes;
      }
      var items := VolumeSpecItems(volumeSpec.value);
      VolumeSpecItemsShape(volumeSpec.value);
      r, aux, run, devices, volumes := SetVolumesFor(items);
    }

    /** Look up every item's device, set every volume, then disconnect
        every device. */
    method SetVolumesFor(items: seq<seq<string>>)
      returns (r: Outcome<()>, ghost aux: seq<Event>, ghost run: LookupRun, ghost devices: seq<Device?>, ghost volumes: seq<Volume>)
      requires Valid()
      requires forall i :: 0 <= i < |items| ==> |items[i]| >= 1
      modifies caster, caster.trace
      ensures Valid()
      ensures caster.trace.events == old(caster.trace.events) + aux && AuxPhases(aux)
      ensures VolumeStepEffect(items, old(caster.State()), aux, r, run, devices, volumes, caster.State())
    {
      var found, given;
      r, found, given, run := LookUpVolumeDevices(items);
      devices, volumes := found, given;
      ghost var lookups := Concat(run.steps);
      if r.Raise? {
        PhasesOrdered(lookups, [], []);
        assert lookups + [] + [] == lookups;
        return r, lookups, run, devices, volumes;
      }
      SetVolumes(found, given);
      r := DisconnectAll(found);
      AppendThree(old(caster.trace.events), lookups, VolumeCalls(devices, volumes), Disconnects(devices));
      aux := lookups + VolumeCalls(devices, volumes) + Disconnects(devices);
      PhasesOrdered(lookups, VolumeCalls(devices, volumes), Disconnects(devices));
    }

    /** The play half of playOrStop from directory state `s` to `t`, the
        session slot going from `held` to `now` and the trace from `before`
        to `after`: getDevice(name) as LookedUp says, then play of the
        stream on what it gave, which succeeds exactly when a device was
        found and the stream's MIME type is known; the listener is then
        registered on that device. A failure keeps the slot and names its
        error: the lookup's own, the request's missing device name, or the
        MIME type. */
    ghost predicate PlayEffect(s: DirState, name: string, found: Outcome<Device?>, lookup: seq<Event>, t: DirState,
                               held: Device?, now: Device?, r: Outcome<()>, before: seq<Event>, after: seq<Event>)
    {
      && caster.LookedUp(s, name, found, lookup, t)
      && DirectoryOnly(lookup)
      && (r.Return? <==> found.Return? && found.value != null && !MimeTypeMissing(caster.guessType(StreamUrl)))
      && (r.Raise? ==>
            && now == held && after == before + lookup
            && r.error == (if found.Raise? then found.error
                           else if found.value == null then MissingDeviceName
                           else MimeTypeNotFound(StreamUrl)))
      && (r.Return? ==>
            && now == found.value && caster.ConnectedTo(found.value, name)
            && after == before + lookup
                        + [MediaPlayed(found.value, StreamUrl, PlayArgs(StreamArgs, caster.guessType(StreamUrl).value)),
                           ListenerAdded(found.value)])
    }

    /** The effect playOrStop promises, between the state before (`before`,
        `s`, `held`) and after (`after`, `t`, `now`). */
    ghost predicate PlayOrStopEffect(before: seq<Event>, s: DirState, held: Device?,
                                     after: seq<Event>, t: DirState, now: Device?, r: Outcome<()>, run: PlayRun)
    {
      if target.None? then
        r == Return(()) && after == before && t == s && now == held
      else if IsToggle(held) then
        r == StopQuitOutcome(held, false) && after == before + StopQuitEvents(held, false) && t == s && now == held
      else
        && AuxEffect(s, run.aux, run.auxResult, run.lookups, run.devices, run.volumes, run.mid)
        && (run.auxResult.Raise? ==>
              r == run.auxResult && now == held && t == run.mid && after == before + Probe(held) + run.aux)
        && (run.auxResult.Return? ==>
              PlayEffect(run.mid, target.value, run.found, run.lookup, t, held, now, r, before + Probe(held) + run.aux, after))
    }

    /** The stream played on a looked-up device, with no volume, then the
        player-status listener registered on the device that plays. A device
        that was not found fails in play, as the request names none. */
    method PlayStream(device: Device?) returns (r: Outcome<()>)
      requires Valid()
      modifies this, caster, caster.trace
      ensures Valid()
      ensures channels == old(channels) && caster.State() == old(caster.State())
      ensures device == null ==> r == Raise(MissingDeviceName)
      ensures device != null && MimeTypeMissing(caster.guessType(StreamUrl)) ==> r == Raise(MimeTypeNotFound(StreamUrl))
      ensures device != null && !MimeTypeMissing(caster.guessType(StreamUrl)) ==> r.Return?
      ensures r.Return? ==>
        && device != null && castDevice == device
        && caster.trace.events == old(caster.trace.events)
             + [MediaPlayed(device, StreamUrl, PlayArgs(StreamArgs, caster.guessType(StreamUrl).value)),
                ListenerAdded(device)]
      ensures r.Raise? ==> castDevice == old(castDevice) && caster.trace.events == old(caster.trace.events)
    {
      var played;
      ghost var found, inner;
      played, found, inner := caster.Play(StreamRequest, device);
      if played.Raise? {
        return Raise(played.error);
      }
      assert caster.Ready(StreamRequest, device);
      castDevice := played.value;
      caster.Note(ListenerAdded(castDevice));
      r := Return(());
    }

    /** The play half of playOrStop: the target is looked up and the stream
        is played on what the lookup returned. */
    method PlayTarget(name: string) returns (r: Outcome<()>, ghost found: Outcome<Device?>, ghost lookup: seq<Event>)
      requires Valid()
      modifies this, caster, caster.trace
      ensures Valid()
      ensures channels == old(channels)
      ensures PlayEffect(old(caster.State()), name, found, lookup, caster.State(),
                         old(castDevice), castDevice, r, old(caster.trace.events), caster.trace.events)
    {
      var device;
      device, lookup := caster.GetDevice(name);
      found := device;
      if device.Raise? {
        return Raise(device.error), found, lookup;
      }
      r := PlayStream(device.value);
    }

    /** playOrStop. Nothing happens without a target device. A held device
        that reports playing is stopped; otherwise (even with a held device
        that is not playing) the auxiliary volumes are set, the target is
        looked up and the stream is played on it, and the player-status
        listener is registered on the new session. */
    method PlayOrStop() returns (r: Outcome<()>, ghost run: PlayRun)
      requires Valid()
      modifies this, caster, caster.trace
      ensures Valid()
      ensures channels == old(channels)
      ensures PlayOrStopEffect(old(caster.trace.events), old(caster.State()), old(castDevice),
                               caster.trace.events, caster.State(), castDevice, r, run)
    {
      run := PlayRun([], Return(()), LookupRun([], [], []), [], [], caster.State(), Return(null), []);
      if target.None? {
        return Return(()), run;
      }
      if castDevice != null {
        var playing := caster.IsPlaying(castDevice);
        if playing == Return(true) {
          r := StopAndQuitCasting(castDevice, false);
          return;
        }
      }
      assert caster.trace.events == old(caster.trace.events) + Probe(old(castDevice));
      assert !IsToggle(old(castDevice));
      var volumed;
      ghost var aux, lookups, devices, volumes;
      volumed, aux, lookups, devices, volumes := SetAuxiliaryVolumes();
      run := run.(aux := aux, auxResult := volumed, lookups := lookups, devices := devices, volumes := volumes,
                  mid := caster.State());
      if volumed.Raise? {
        return volumed, run;
      }
      ghost var found, lookup;
      r, found, lookup := PlayTarget(target.value);
      run := run.(found := found, lookup := lookup);
    }

    /** The player-status listener. Nothing happens while no session is
        held; an idle or unknown player tears down the reporting device. */
    method OnDevicePlayerStatus(device: Device?, state: string) returns (r: Outcome<()>)
      requires Valid()
      modifies caster.trace
      ensures Valid()
      ensures castDevice == old(castDevice)
      ensures castDevice == null || !TearsDown(state) ==> r == Return(()) && caster.trace.events == old(caster.trace.events)
      ensures castDevice != null && TearsDown(state) ==>
        r == StopQuitOutcome(device, false) && caster.trace.events == old(caster.trace.events) + StopQuitEvents(device, false)
    {
      if castDevice == null {
        return Return(());
      }
      if TearsDown(state) {
        r := StopAndQuitCasting(device, false);
      } else {
        r := Return(());
      }
    }

    /** onFlicButtonClickOrHold. `triggered` says whether playOrStop ran;
        when it did, its effect is playOrStop's. */
    method OnFlicButtonClickOrHold(channel: Channel, clickType: ClickType)
      returns (r: Outcome<()>, triggered: bool, ghost run: PlayRun)
      requires Valid()
      modifies this, caster, caster.trace
      ensures Valid()
      ensures channels == old(channels)
      ensures triggered == Triggers(channel.bdAddr, clickType)
      ensures !triggered ==>
        r == Return(()) && castDevice == old(castDevice) && caster.trace.events == old(caster.trace.events)
        && caster.State() == old(caster.State())
      ensures triggered ==>
        PlayOrStopEffect(old(caster.trace.events), old(caster.State()), old(castDevice),
                         caster.trace.events, caster.State(), castDevice, r, run)
    {
      run := PlayRun([], Return(()), LookupRun([], [], []), [], [], caster.State(), Return(null), []);
      triggered := Triggers(channel.bdAddr, clickType);
      if !triggered {
        return Return(()), triggered, run;
      }
      r, run := PlayOrStop();
    }

    /** onFlicButtonCreateConnectionChannelResponse: the channel is added
        unless the response carries an error. */
    method OnFlicButtonCreateConnectionChannelResponse(channel: Channel, error: Option<CreateConnectionChannelError>)
      modifies this
      ensures castDevice == old(castDevice)
      ensures channels == old(channels) + (if Accepted(error) then [channel] else [])
    {
      if Accepted(error) {
        channels := channels + [channel];
      }
    }

    /** onFlicButtonConnectionChannelRemoved */
    method OnFlicButtonConnectionChannelRemoved(channel: Channel)
      modifies this
      ensures castDevice == old(castDevice)
      ensures channels == Without(old(channels), channel)
    {
      channels := Without(channels, channel);
    }

    /** The channel loop of exit: every channel of the list, as it was when
        the loop started, is removed in order and handed to the removal
        handler, which filters it out of the (rebound) list. */
    method RemoveChannels()
      requires Valid()
      modifies this, caster.trace
      ensures Valid()
      ensures castDevice == old(castDevice) && channels == []
      ensures caster.trace.events == old(caster.trace.events) + Removals(old(channels))
    {
      var pending := channels;
      var i := 0;
      while i < |pending|
        invariant 0 <= i <= |pending|
        invariant caster.Valid() && castDevice == old(castDevice)
        invariant forall x :: x in channels ==> x in pending[i..]
        invariant caster.trace.events == old(caster.trace.events) + Removals(pending[..i])
      {
        caster.Note(ChannelRemoved(pending[i]));
        RemovalsStep(pending, i);
        AppendTwo(old(caster.trace.events), Removals(pending[..i]), [ChannelRemoved(pending[i])]);
        WithoutMembers(channels, pending[i]);
        SuffixStep(pending, i);
        OnFlicButtonConnectionChannelRemoved(pending[i]);
        i := i + 1;
      }
      assert pending[..i] == pending;
      NoMembersEmpty(channels);
    }

    /** exit(exitCode, forceQuitCaster). Every channel is removed, in list
        order, before the client is closed; the scanner is cancelled before
        the cast session is torn down; the process exits only when the
        teardown is skipped (forceQuitCaster), as stopAndQuitCasting
        otherwise raises. The wait for the channel list to drain is
        left out: the list is already empty when it is reached. */
    method Exit(exitCode: int, forceQuitCaster: bool) returns (r: Outcome<()>)
      requires Valid()
      modifies this, caster, caster.trace
      ensures Valid()
      ensures castDevice == old(castDevice)
      ensures hasClient ==> channels == []
      ensures !hasClient ==> channels == old(channels)
      ensures !caster.armed && caster.hosts == old(caster.hosts)
      ensures caster.trace.events == old(caster.trace.events)
        + (if hasClient then Removals(old(channels)) + [ClientClosed] else [])
        + CancelEvents(old(caster.armed))
        + StopQuitEvents(old(castDevice), forceQuitCaster)
      ensures r == (if forceQuitCaster then Raise(SystemExit(exitCode)) else StopQuitOutcome(old(castDevice), false))
    {
      if hasClient {
        RemoveChannels();
        caster.Note(ClientClosed);
      }
      caster.CancelScanner();
      r := StopAndQuitCasting(castDevice, forceQuitCaster);
      if r.Return? {
        r := Raise(SystemExit(exitCode));
      }
    }

    /** onCasterError: exit with code 1, skipping the cast teardown. */
    method OnCasterError(error: Error) returns (r: Outcome<()>)
      requires Valid()
      modifies this, caster, caster.trace
      ensures Valid()
      ensures castDevice == old(castDevice)
      ensures hasClient ==> channels == []
      ensures !hasClient ==> channels == old(channels)
      ensures !caster.armed && caster.hosts == old(caster.hosts)
      ensures caster.trace.events == old(caster.trace.events)
        + (if hasClient then Removals(old(channels)) + [ClientClosed] else [])
        + CancelEvents(old(caster.armed))
      ensures r == Raise(SystemExit(1))
    {
      r := Exit(1, true);
    }
  }
}
