/** Values and objects shared by the directory (caster.py) and the session
    controller (main.py): Python's None and exceptions, discovered hosts,
    device handles, button channels and the log of observable interactions. */
module Core {

  /** Python's `None` or a value. */
  datatype Option<+T> = None | Some(value: T)

  /** How a Python call ends: it returns a value or raises an exception. */
  datatype Outcome<+T> = Return(value: T) | Raise(error: Error)

  /** The exceptions the modelled code raises or reports. */
  datatype Error =
    | NameError(name: string)            // a global that is not defined
    | AttributeError(name: string)       // an attribute missing on None or on a module
    | TypeError(message: string)
    | KeyError(key: string)
    | IndexError
    | ControllerNotRegistered            // pychromecast.error.ControllerNotRegistered
    | Exception(message: string)         // `raise Exception(message)`
    | SystemExit(code: int)              // `sys.exit(code)`

  /** One entry of the discovery result: `(address, port, ..., friendly name)`;
      lookups use the last field. */
  datatype Host = Host(address: string, port: int, name: string)

  /** The media-player volume is passed through unchanged; its numeric value
      (`float(...)`) is not modelled. */
  type Volume = string

  /** A value of the media `args` dictionary passed to `play_media`. */
  datatype Arg = Text(text: string) | Flag(flag: bool)

  /** A connected cast device. Its flags are what the device reports; the
      modelled code only reads them, and they are taken as fixed for the
      handle. */
  class Device {
    /** `media_controller.is_playing` */
    const playing: bool
    /** false when the media controller raises ControllerNotRegistered */
    const registered: bool

    constructor (playing: bool, registered: bool)
      ensures this.playing == playing && this.registered == registered
    {
      this.playing := playing;
      this.registered := registered;
    }
  }

  /** A button connection channel; `id` stands for the object's identity. */
  datatype Channel = Channel(id: nat, bdAddr: string)

  /** Everything the modelled code does to its collaborators, in order. */
  datatype Event =
    | Discovered(timeout: int, found: Option<seq<Host>>)   // discover_chromecasts(timeout=...)
    | TimerCancelled                                        // deviceHostScanTimer.cancel()
    | TimerStarted(interval: int)                           // threading.Timer(interval, ...).start()
    | Connected(device: Device)                             // Chromecast(host, port) and device.wait()
    | MediaStopped(device: Device)                          // device.media_controller.stop()
    | AppQuit(device: Device)                               // device.quit_app()
    | VolumeSet(device: Device, volume: Volume)             // device.set_volume(volume)
    | MediaPlayed(device: Device, url: string, args: map<string, Arg>)  // play_media(url, **args)
    | Disconnected(device: Device)                          // device.disconnect(blocking=False)
    | ErrorReported(error: Error)                           // onError(error)
    | ListenerAdded(device: Device)                         // status listener registered on device
    | ChannelRemoved(channel: Channel)                      // flicClient.remove_connection_channel(channel)
    | ClientClosed                                          // flicClient.close()

  lemma AppendTwo<T>(t: seq<T>, a: seq<T>, b: seq<T>)
    ensures t + a + b == t + (a + b)
  {
  }

  lemma AppendThree<T>(t: seq<T>, a: seq<T>, b: seq<T>, c: seq<T>)
    ensures t + a + b + c == t + (a + b + c)
  {
  }

  /** The process-wide log of interactions. */
  class Trace {
    var events: seq<Event>

    constructor ()
      ensures events == []
    {
      events := [];
    }

    method Record(e: Event)
      modifies this
      ensures events == old(events) + [e]
    {
      events := events + [e];
    }
  }
}
