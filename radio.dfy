/**
  * The radio's conductor (class `Conductor` of the application entry point)
  * and the mapping from command-line flags to the start-up mode.
  *
  * The conductor keeps the playing, volume, station and blanking state and
  * drives two receivers, the stream player and the display thread. Both are
  * modelled by one log of the calls made to them, in the order they are made.
  */
module Radio {
  import opened Py2

  /** The two internet radio streams the conductor knows, in order. */
  const Stations: seq<string> :=
    ["http://direct.fipradio.fr/live/fip-midfi.mp3",
     "http://rivieraradio.ice.infomaniak.ch:80/rivieraradio-high"]

  /** The volume the conductor sets up with. */
  const INITIAL_VOLUME := 50

  /** One call the conductor makes on the player or on the display thread. */
  datatype Call =
    | Play(uri: string, volume: int)
    | Stop
    | SetVolume(volume: int)
    | DisplayNumber(n: int)
    | Blank
    | Unblank

  /** What the wheel adjusts; the volume is the only choice. */
  datatype WheelTarget = VolumeTarget

  /** What the wheel switch does; toggling playback is the only choice. */
  datatype SwitchAction = PlayAction

  /** The conductor's own state. */
  datatype Settings = Settings(playing: bool, volume: int, station: int, blanked: bool,
                         wheel: WheelTarget, wheelSwitch: SwitchAction)

  /** A new state and the calls that led to it. */
  datatype Outcome = Outcome(state: Settings, calls: seq<Call>)

  predicate ValidStation(s: Settings) {
    0 <= s.station < |Stations|
  }

  // ---------------------------------------------------------------------------
  // The handlers

  /** `state_playing_change(on)`. */
  function PlayingChange(s: Settings, on: bool): Outcome
    requires ValidStation(s)
  {
    if on == s.playing then Outcome(s, [])
    else if on then
      Outcome(s.(playing := true), [Play(Stations[s.station], s.volume), SetVolume(s.volume), DisplayNumber(s.volume)])
    else Outcome(s.(playing := false), [Stop])
  }

  function PlayingToggle(s: Settings): Outcome
    requires ValidStation(s)
  {
    PlayingChange(s, !s.playing)
  }

  function BlankingToggle(s: Settings): Outcome {
    Outcome(s.(blanked := !s.blanked), [if !s.blanked then Blank else Unblank])
  }

  /** `state_volume_change(v)`. */
  function VolumeChange(s: Settings, v: int): Outcome {
    if v == s.volume then Outcome(s, [])
    else Outcome(s.(volume := v), [DisplayNumber(v)] + (if s.playing then [SetVolume(v)] else []))
  }

  /** The alarm: start playing, whatever the state. */
  function OnAlert(s: Settings): Outcome
    requires ValidStation(s)
  {
    PlayingChange(s, true)
  }

  function OnWheelTurned(s: Settings, v: int): Outcome {
    match s.wheel
    case VolumeTarget => VolumeChange(s, v)
  }

  function OnWheelSwitchPressed(s: Settings): Outcome
    requires ValidStation(s)
  {
    match s.wheelSwitch
    case PlayAction => PlayingToggle(s)
  }

  /** The conductor's entry points, as events. */
  datatype Event =
    | PlayingChangeEvent(on: bool)
    | PlayingToggleEvent
    | BlankingToggleEvent
    | VolumeChangeEvent(volume: int)
    | AlertEvent
    | WheelTurnedEvent(value: int)
    | WheelSwitchPressedEvent

  function Handle(s: Settings, e: Event): Outcome
    requires ValidStation(s)
  {
    match e
    case PlayingChangeEvent(on) => PlayingChange(s, on)
    case PlayingToggleEvent => PlayingToggle(s)
    case BlankingToggleEvent => BlankingToggle(s)
    case VolumeChangeEvent(v) => VolumeChange(s, v)
    case AlertEvent => OnAlert(s)
    case WheelTurnedEvent(v) => OnWheelTurned(s, v)
    case WheelSwitchPressedEvent => OnWheelSwitchPressed(s)
  }

  // ---------------------------------------------------------------------------
  // What the receivers were last told

  /** Whether the player was last told to play (rather than to stop). */
  function PlayerOn(calls: seq<Call>): bool {
    if calls == [] then false
    else match calls[|calls| - 1]
      case Play(_, _) => true
      case Stop => false
      case _ => PlayerOn(calls[..|calls| - 1])
  }

  /** The last volume set on the player, if any. */
  function PlayerVolume(calls: seq<Call>): Option<int> {
    if calls == [] then None
    else match calls[|calls| - 1]
      case SetVolume(v) => Some(v)
      case _ => PlayerVolume(calls[..|calls| - 1])
  }

  /** The last number pushed to the display, if any. */
  function DisplayedNumber(calls: seq<Call>): Option<int> {
    if calls == [] then None
    else match calls[|calls| - 1]
      case DisplayNumber(n) => Some(n)
      case _ => DisplayedNumber(calls[..|calls| - 1])
  }

  /** Whether the display was last told to blank (rather than to unblank). */
  function DisplayBlanked(calls: seq<Call>): bool {
    if calls == [] then false
    else match calls[|calls| - 1]
      case Blank => true
      case Unblank => false
      case _ => DisplayBlanked(calls[..|calls| - 1])
  }

  /**
    * The receivers agree with the state: the player runs exactly while the
    * conductor is playing, and then at the conductor's volume; the display
    * was last given the volume, and is blanked exactly when the conductor is.
    */
  predicate Mirrors(s: Settings, calls: seq<Call>) {
    && PlayerOn(calls) == s.playing
    && (s.playing ==> PlayerVolume(calls) == Some(s.volume))
    && DisplayedNumber(calls) == Some(s.volume)
    && DisplayBlanked(calls) == s.blanked
  }

  /** The four "last call" views after one more call. */
  lemma Snoc(calls: seq<Call>, c: Call)
    ensures PlayerOn(calls + [c]) == (if c.Play? then true else if c.Stop? then false else PlayerOn(calls))
    ensures PlayerVolume(calls + [c]) == (if c.SetVolume? then Some(c.volume) else PlayerVolume(calls))
    ensures DisplayedNumber(calls + [c]) == (if c.DisplayNumber? then Some(c.n) else DisplayedNumber(calls))
    ensures DisplayBlanked(calls + [c]) == (if c.Blank? then true else if c.Unblank? then false else DisplayBlanked(calls))
  {
    assert (calls + [c])[..|calls|] == calls;
  }

  // ---------------------------------------------------------------------------
  // Properties of the handlers

  /** Asking for the playing state the conductor already has changes nothing and calls nothing. */
  lemma PlayingChangeIdempotent(s: Settings, on: bool)
    requires ValidStation(s)
    ensures on == s.playing ==> PlayingChange(s, on) == Outcome(s, [])
    ensures var t := PlayingChange(s, on).state; PlayingChange(t, on) == Outcome(t, [])
  {
  }

  /**
    * After `state_playing_change(on)` the conductor is playing exactly when
    * `on`; only the playing flag changes; a start plays the current station at
    * the current volume, sets that volume and shows it, a stop stops the player.
    */
  lemma PlayingChangeEffect(s: Settings, on: bool)
    requires ValidStation(s)
    ensures var o := PlayingChange(s, on);
            && o.state.playing == on
            && o.state == s.(playing := on)
            && (on && !s.playing ==>
                  o.calls == [Play(Stations[s.station], s.volume), SetVolume(s.volume), DisplayNumber(s.volume)])
            && (!on && s.playing ==> o.calls == [Stop])
  {
  }

  /** Toggling flips the playing flag, and toggling twice restores the state. */
  lemma PlayingToggleTwice(s: Settings)
    requires ValidStation(s)
    ensures PlayingToggle(s).state.playing == !s.playing
    ensures PlayingToggle(PlayingToggle(s).state).state == s
  {
  }

  /** Blanking toggles flip the flag, tell the display the new flag, and cancel out in pairs. */
  lemma BlankingToggleTwice(s: Settings)
    ensures var o := BlankingToggle(s);
            && o.state.blanked == !s.blanked
            && o.calls == (if o.state.blanked then [Blank] else [Unblank])
            && BlankingToggle(o.state).state == s
  {
  }

  /**
    * A volume change to the current volume does nothing; any other stores and
    * shows the new volume, and reaches the player exactly when it is playing.
    */
  lemma VolumeChangeEffect(s: Settings, v: int)
    ensures var o := VolumeChange(s, v);
            && o.state == s.(volume := v)
            && (v == s.volume ==> o.calls == [])
            && (v != s.volume ==> DisplayNumber(v) in o.calls)
            && ((exists c :: c in o.calls && c.SetVolume?) <==> v != s.volume && s.playing)
            && (forall c :: c in o.calls && c.SetVolume? ==> c.volume == v)
  {
    var o := VolumeChange(s, v);
    if v != s.volume {
      assert o.calls[0] == DisplayNumber(v);
      if s.playing {
        assert o.calls[1] == SetVolume(v);
      }
    }
  }

  /** After the alarm the conductor is playing, whatever it was doing. */
  lemma AlertPlays(s: Settings)
    requires ValidStation(s)
    ensures OnAlert(s).state.playing
    ensures OnAlert(s).state == s.(playing := true)
    ensures s.playing ==> OnAlert(s).calls == []
  {
  }

  /** Starting or stopping playback keeps the receivers in agreement with the state. */
  lemma PlayingChangeMirrors(s: Settings, calls: seq<Call>, on: bool)
    requires ValidStation(s) && Mirrors(s, calls)
    ensures Mirrors(PlayingChange(s, on).state, calls + PlayingChange(s, on).calls)
  {
    if on != s.playing {
      if on {
        var c0, c1, c2 := Play(Stations[s.station], s.volume), SetVolume(s.volume), DisplayNumber(s.volume);
        Snoc(calls, c0);
        Snoc(calls + [c0], c1);
        Snoc(calls + [c0] + [c1], c2);
        assert calls + [c0, c1, c2] == calls + [c0] + [c1] + [c2];
      } else {
        Snoc(calls, Stop);
      }
    } else {
      assert calls + [] == calls;
    }
  }

  /** A blanking toggle keeps the receivers in agreement with the state. */
  lemma BlankingToggleMirrors(s: Settings, calls: seq<Call>)
    requires Mirrors(s, calls)
    ensures Mirrors(BlankingToggle(s).state, calls + BlankingToggle(s).calls)
  {
    Snoc(calls, BlankingToggle(s).calls[0]);
  }

  /** A volume change keeps the receivers in agreement with the state. */
  lemma VolumeChangeMirrors(s: Settings, calls: seq<Call>, v: int)
    requires Mirrors(s, calls)
    ensures Mirrors(VolumeChange(s, v).state, calls + VolumeChange(s, v).calls)
  {
    if v != s.volume {
      Snoc(calls, DisplayNumber(v));
      if s.playing {
        assert VolumeChange(s, v).calls == [DisplayNumber(v), SetVolume(v)];
        Snoc(calls + [DisplayNumber(v)], SetVolume(v));
        assert calls + [DisplayNumber(v), SetVolume(v)] == calls + [DisplayNumber(v)] + [SetVolume(v)];
      } else {
        assert [DisplayNumber(v)] + [] == [DisplayNumber(v)];
      }
    } else {
      assert calls + [] == calls;
    }
  }

  /** Every handler keeps the receivers in agreement with the state, and the station. */
  lemma HandleMirrors(s: Settings, calls: seq<Call>, e: Event)
    requires ValidStation(s) && Mirrors(s, calls)
    ensures ValidStation(Handle(s, e).state) && Handle(s, e).state.station == s.station
    ensures Mirrors(Handle(s, e).state, calls + Handle(s, e).calls)
  {
    match e
    case PlayingChangeEvent(on) => PlayingChangeMirrors(s, calls, on);
    case PlayingToggleEvent => PlayingChangeMirrors(s, calls, !s.playing);
    case BlankingToggleEvent => BlankingToggleMirrors(s, calls);
    case VolumeChangeEvent(v) => VolumeChangeMirrors(s, calls, v);
    case AlertEvent => PlayingChangeMirrors(s, calls, true);
    case WheelTurnedEvent(v) => VolumeChangeMirrors(s, calls, v);
    case WheelSwitchPressedEvent => PlayingChangeMirrors(s, calls, !s.playing);
  }

  /** The state and the call log after a sequence of events. */
  function Run(s: Settings, calls: seq<Call>, events: seq<Event>): Outcome
    requires ValidStation(s)
    decreases |events|
  {
    if events == [] then Outcome(s, calls)
    else
      var o := Handle(s, events[0]);
      HandleStation(s, events[0]);
      Run(o.state, calls + o.calls, events[1..])
  }

  /** No handler changes the station. */
  lemma HandleStation(s: Settings, e: Event)
    requires ValidStation(s)
    ensures ValidStation(Handle(s, e).state) && Handle(s, e).state.station == s.station
  {
  }

  /** Whatever the events, the receivers end up in agreement with the state. */
  lemma {:induction false} RunMirrors(s: Settings, calls: seq<Call>, events: seq<Event>)
    requires ValidStation(s) && Mirrors(s, calls)
    ensures Mirrors(Run(s, calls, events).state, Run(s, calls, events).calls)
    decreases |events|
  {
    if events != [] {
      HandleMirrors(s, calls, events[0]);
      var o := Handle(s, events[0]);
      RunMirrors(o.state, calls + o.calls, events[1..]);
    }
  }

  // ---------------------------------------------------------------------------
  // The object

  class Conductor {
    const stations: seq<string>
    var statePlaying: bool
    var stateWheelSwitch: SwitchAction
    var stateWheel: WheelTarget
    var stateVolume: int
    var stateStation: int
    var stateBlanked: bool
    /** Every call made on the player and on the display thread, oldest first. */
    var calls: seq<Call>

    function State(): Settings
      reads this
    {
      Settings(statePlaying, stateVolume, stateStation, stateBlanked, stateWheel, stateWheelSwitch)
    }

    ghost predicate Valid()
      reads this
    {
      stations == Stations && ValidStation(State()) && Mirrors(State(), calls)
    }

    /** Stopped, unblanked, first station; the volume goes from 0 to 50, which is shown. */
    constructor ()
      ensures Valid()
      ensures !statePlaying && !stateBlanked && stateStation == 0 && stateVolume == INITIAL_VOLUME
      ensures calls == [DisplayNumber(INITIAL_VOLUME)]
    {
      stations := Stations;
      statePlaying := false;
      stateWheelSwitch := PlayAction;
      stateWheel := VolumeTarget;
      stateVolume := 0;
      stateStation := 0;
      stateBlanked := false;
      calls := [];
      new;
      StateVolumeChange(INITIAL_VOLUME);
    }

    method StatePlayingChange(on: bool)
      requires Valid()
      modifies this`statePlaying, this`calls
      ensures Valid()
      ensures State() == PlayingChange(old(State()), on).state
      ensures calls == old(calls) + PlayingChange(old(State()), on).calls
    {
      if on == statePlaying {
        return;
      }
      if on {
        calls := calls + [Play(stations[stateStation], stateVolume)];
        calls := calls + [SetVolume(stateVolume)];
        calls := calls + [DisplayNumber(stateVolume)];
      } else {
        calls := calls + [Stop];
      }
      statePlaying := on;
      assert State() == PlayingChange(old(State()), on).state;
      assert calls == old(calls) + PlayingChange(old(State()), on).calls;
      PlayingChangeMirrors(old(State()), old(calls), on);
    }

    method StatePlayingToggle()
      requires Valid()
      modifies this`statePlaying, this`calls
      ensures Valid()
      ensures State() == PlayingToggle(old(State())).state
      ensures calls == old(calls) + PlayingToggle(old(State())).calls
    {
      StatePlayingChange(!statePlaying);
    }

    method StateBlankingToggle()
      requires Valid()
      modifies this`stateBlanked, this`calls
      ensures Valid()
      ensures State() == BlankingToggle(old(State())).state
      ensures calls == old(calls) + BlankingToggle(old(State())).calls
    {
      stateBlanked := !stateBlanked;
      if stateBlanked {
        calls := calls + [Blank];
      } else {
        calls := calls + [Unblank];
      }
      BlankingToggleMirrors(old(State()), old(calls));
    }

    method StateVolumeChange(v: int)
      requires stations == Stations && ValidStation(State())
      modifies this`stateVolume, this`calls
      ensures stations == Stations && ValidStation(State())
      ensures State() == VolumeChange(old(State()), v).state
      ensures calls == old(calls) + VolumeChange(old(State()), v).calls
      ensures old(Valid()) ==> Valid()
      ensures old(calls) == [] && !statePlaying && !stateBlanked && v != old(stateVolume) ==> Valid()
    {
      if v == stateVolume {
        return;
      }
      stateVolume := v;
      calls := calls + [DisplayNumber(v)];
      if statePlaying {
        calls := calls + [SetVolume(v)];
      }
      if old(Valid()) {
        VolumeChangeMirrors(old(State()), old(calls), v);
      }
      if old(calls) == [] && !statePlaying && !stateBlanked {
        Snoc([], DisplayNumber(v));
        assert calls == [] + [DisplayNumber(v)];
      }
    }

    method Alert()
      requires Valid()
      modifies this`statePlaying, this`calls
      ensures Valid()
      ensures State() == OnAlert(old(State())).state
      ensures calls == old(calls) + OnAlert(old(State())).calls
    {
      StatePlayingChange(true);
    }

    method WheelTurned(v: int)
      requires Valid()
      modifies this`stateVolume, this`calls
      ensures Valid()
      ensures State() == OnWheelTurned(old(State()), v).state
      ensures calls == old(calls) + OnWheelTurned(old(State()), v).calls
    {
      match stateWheel
      case VolumeTarget => StateVolumeChange(v);
    }

    method WheelSwitchPressed()
      requires Valid()
      modifies this`statePlaying, this`calls
      ensures Valid()
      ensures State() == OnWheelSwitchPressed(old(State())).state
      ensures calls == old(calls) + OnWheelSwitchPressed(old(State())).calls
    {
      match stateWheelSwitch
      case PlayAction => StatePlayingToggle();
    }
  }

  // ---------------------------------------------------------------------------
  // Command-line flags

  /** The start-up modes: command line and server, command line only, server only. */
  datatype Mode = Both | Cli | Server

  /** What option parsing produces: an exit with a status, or the selected option keys. */
  datatype Parsed = Exit(status: int) | Options(keys: set<string>)

  /** One of the options in `opts` is `short` or `long`. */
  predicate Given(opts: seq<string>, short: string, long: string) {
    exists i :: 0 <= i < |opts| && (opts[i] == short || opts[i] == long)
  }

  /**
    * `parsing_args` from the option names the option parser returned onward:
    * a help flag exits with status 0; otherwise each of -c/--cli, -s/--server
    * and -b/--both selects its key, and anything else is ignored.
    */
  method ParsingArgs(opts: seq<string>) returns (r: Parsed)
    ensures r.Exit? <==> Given(opts, "-h", "--help")
    ensures r.Exit? ==> r.status == 0
    ensures r.Options? ==> r.keys <= {"cli", "server", "both"}
    ensures r.Options? ==> ("cli" in r.keys <==> Given(opts, "-c", "--cli"))
    ensures r.Options? ==> ("server" in r.keys <==> Given(opts, "-s", "--server"))
    ensures r.Options? ==> ("both" in r.keys <==> Given(opts, "-b", "--both"))
  {
    var keys: set<string> := {};
    for i := 0 to |opts|
      invariant !Given(opts[..i], "-h", "--help")
      invariant keys <= {"cli", "server", "both"}
      invariant "cli" in keys <==> Given(opts[..i], "-c", "--cli")
      invariant "server" in keys <==> Given(opts[..i], "-s", "--server")
      invariant "both" in keys <==> Given(opts[..i], "-b", "--both")
    {
      var opt := opts[i];
      if opt == "-h" || opt == "--help" {
        return Exit(0);
      } else if opt == "-c" || opt == "--cli" {
        keys := keys + {"cli"};
      } else if opt == "-s" || opt == "--server" {
        keys := keys + {"server"};
      } else if opt == "-b" || opt == "--both" {
        keys := keys + {"both"};
      }
    }
    return Options(keys);
  }

  /**
    * The mode `main` starts in: none when parsing exits; otherwise 'both'
    * wins over 'cli', which wins over 'server', and 'both' is the default.
    */
  method LaunchMode(opts: seq<string>) returns (start: Option<Mode>)
    ensures start == None <==> Given(opts, "-h", "--help")
    ensures start == Some(Cli) <==>
              !Given(opts, "-h", "--help") && !Given(opts, "-b", "--both") && Given(opts, "-c", "--cli")
    ensures start == Some(Server) <==>
              !Given(opts, "-h", "--help") && !Given(opts, "-b", "--both") && !Given(opts, "-c", "--cli") &&
              Given(opts, "-s", "--server")
    ensures start == Some(Both) <==>
              !Given(opts, "-h", "--help") &&
              (Given(opts, "-b", "--both") || (!Given(opts, "-c", "--cli") && !Given(opts, "-s", "--server")))
  {
    start := Some(Both);
    if |opts| > 0 {
      var arguments := ParsingArgs(opts);
      match arguments
      case Exit(_) =>
        start := None;
      case Options(keys) =>
        if "both" in keys {
          start := Some(Both);
        } else if "cli" in keys {
          start := Some(Cli);
        } else if "server" in keys {
          start := Some(Server);
        }
    }
  }
}
