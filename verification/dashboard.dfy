/** The control and chart state of the tractor dashboard page: the pedal and
    brake buttons that exclude each other, the dashboard/manual mode flags, and
    the chart history that keeps the newest 50 readings pushed by the server.
    Rendering, fetching and the WebSocket itself are outside the model; the
    state each handler leaves behind and the command it sends are inside. */
module Dashboard {
  import opened Wrappers
  import opened Seqs
  import opened TelemetryBackend

  /** The chart keeps `history.slice(-50)`. */
  const Window: nat := 50

  /** One chart point: the reading as displayed, and the local clock when it
      arrived. */
  datatype Point = Point(reading: TractorData, time: int)

  /** A WebSocket message as `JSON.parse` returns it: its `type`, its `data` and
      `control` objects (absent or null as None) and its `mqtt_connected` flag. */
  datatype ServerMessage = ServerMessage(
    kind: string,
    data: Option<TractorData>,
    control: Option<ControlData>,
    mqttConnected: bool)

  /** The only message types the page reacts to. */
  predicate IsDataMessage(kind: string)
  {
    kind == "data_update" || kind == "initial_data"
  }

  /** The mode a pedal or brake command carries: the dashboard flag decides, and
      anything but dashboard mode reads as manual. */
  function ModeName(isDashboardMode: bool): (mode: string)
    ensures mode == "dashboard" <==> isDashboardMode
    ensures mode == "manual" <==> !isDashboardMode
  {
    if isDashboardMode then "dashboard" else "manual"
  }

  /** `[...prev, p].slice(-50)` */
  function AppendWindow(prev: seq<Point>, p: Point): (r: seq<Point>)
    ensures |r| == Min(|prev| + 1, Window)
    ensures r[|r| - 1] == p
    ensures r[..|r| - 1] == prev[|prev| + 1 - |r|..]
    ensures |prev| < Window ==> r == prev + [p]
  {
    var all := prev + [p];
    var r := SliceFrom(all, -(Window as int));
    assert r[..|r| - 1] == all[|all| - |r|..|all| - 1];
    r
  }

  /** The pushed points, one at a time into the window starting from `start`. */
  function Feed(start: seq<Point>, points: seq<Point>): seq<Point>
  {
    if points == [] then start else AppendWindow(Feed(start, points[..|points| - 1]), points[|points| - 1])
  }

  /** However many points arrive, the chart shows exactly the newest 50 of
      everything it has held, in arrival order. */
  lemma {:induction false} FeedKeepsNewest(start: seq<Point>, points: seq<Point>)
    requires |start| <= Window
    ensures Feed(start, points) == LastN(start + points, Window)
  {
    if points == [] {
      assert start + points == start;
    } else {
      var init, last := points[..|points| - 1], points[|points| - 1];
      assert points == init + [last];
      assert start + points == (start + init) + [last];
      FeedKeepsNewest(start, init);
      LastNAppend(start + init, last, Window);
    }
  }

  class DashboardState {
    var isConnected: bool
    var currentData: TractorData
    var history: seq<Point>
    var isDashboardMode: bool
    var isManualMode: bool
    var pedal: bool
    var brake: bool

    ghost predicate Valid()
      reads this
    {
      |history| <= Window
    }

    /** The page's initial state: dashboard mode, nothing pressed, no data. */
    constructor ()
      ensures Valid()
      ensures !isConnected && currentData == TractorData(0.0, 0, 0.0, "") && history == []
      ensures isDashboardMode && !isManualMode
      ensures !pedal && !brake
    {
      isConnected := false;
      currentData := TractorData(0.0, 0, 0.0, "");
      history := [];
      isDashboardMode := true;
      isManualMode := false;
      pedal := false;
      brake := false;
    }

    /** handleModeSwitch: exactly one mode flag is set afterwards, and the command
        carries the requested mode with the pedal and brake as they are. */
    method HandleModeSwitch(mode: string) returns (cmd: ControlCommand)
      modifies this`isDashboardMode, this`isManualMode
      ensures isDashboardMode <==> mode == "dashboard"
      ensures isManualMode <==> mode != "dashboard"
      ensures isDashboardMode != isManualMode
      ensures cmd == ControlCommand(mode, pedal, brake)
    {
      var newMode := mode == "dashboard";
      isDashboardMode := newMode;
      isManualMode := !newMode;
      cmd := ControlCommand(mode, pedal, brake);
    }

    /** handlePedal: pressing the pedal releases the brake; releasing it leaves
        the brake alone. The command carries the new pair. */
    method HandlePedal(pressed: bool) returns (cmd: ControlCommand)
      modifies this`pedal, this`brake
      ensures pedal == pressed
      ensures pressed ==> !brake
      ensures !pressed ==> brake == old(brake)
      ensures !(pedal && brake)
      ensures cmd == ControlCommand(ModeName(isDashboardMode), pedal, brake)
    {
      var newBrake := if pressed then false else brake;
      pedal := pressed;
      brake := newBrake;
      cmd := ControlCommand(ModeName(isDashboardMode), pressed, newBrake);
    }

    /** handleBrake: pressing the brake releases the pedal; releasing it leaves
        the pedal alone. The command carries the new pair. */
    method HandleBrake(pressed: bool) returns (cmd: ControlCommand)
      modifies this`pedal, this`brake
      ensures brake == pressed
      ensures pressed ==> !pedal
      ensures !pressed ==> pedal == old(pedal)
      ensures !(pedal && brake)
      ensures cmd == ControlCommand(ModeName(isDashboardMode), pedal, brake)
    {
      var newPedal := if pressed then false else pedal;
      brake := pressed;
      pedal := newPedal;
      cmd := ControlCommand(ModeName(isDashboardMode), newPedal, pressed);
    }

    /** ws.onmessage for a message that parsed (`msg`), or that did not (None).
        `shownTime` is the reading's time as `toLocaleTimeString` shows it and `now`
        is `Date.now()`. Anything but a data message with a data object changes
        nothing; a data message shows the reading, records the broker flag,
        copies the control record when there is one, and pushes one point into
        the chart window. */
    method OnMessage(msg: Option<ServerMessage>, shownTime: string, now: int)
      requires Valid()
      modifies this
      ensures Valid()
      ensures msg.None? || !IsDataMessage(msg.value.kind) || msg.value.data.None? ==> unchanged(this)
      ensures msg.Some? && IsDataMessage(msg.value.kind) && msg.value.data.Some? ==>
        var m := msg.value;
        var shown := m.data.value.(timestamp := shownTime);
        && currentData == shown
        && isConnected == m.mqttConnected
        && history == AppendWindow(old(history), Point(shown, now))
        && (m.control.Some? ==>
              && pedal == m.control.value.pedal
              && brake == m.control.value.brake
              && (isDashboardMode <==> m.control.value.mode == "dashboard")
              && (isManualMode <==> m.control.value.mode == "manual"))
        && (m.control.None? ==>
              && pedal == old(pedal) && brake == old(brake)
              && isDashboardMode == old(isDashboardMode) && isManualMode == old(isManualMode))
    {
      if msg.None? || !IsDataMessage(msg.value.kind) || msg.value.data.None? {
        return;
      }
      var m := msg.value;
      var shown := m.data.value.(timestamp := shownTime);
      currentData := shown;
      isConnected := m.mqttConnected;
      if m.control.Some? {
        var c := m.control.value;
        pedal := c.pedal;
        brake := c.brake;
        isDashboardMode := c.mode == "dashboard";
        isManualMode := c.mode == "manual";
      }
      history := AppendWindow(history, Point(shown, now));
    }
  }
}
