/** The telemetry store of the tractor dashboard backend: the latest reading,
    a history capped at 1000 readings, an unbounded log of CSV rows that pair
    each reading with the control state of the moment, and the current control
    record that the control endpoint replaces. MQTT, HTTP, WebSockets and files
    are outside the model; the handlers' effect on the store is inside. */
module TelemetryBackend {
  import opened Seqs
  import opened Wrappers
  import opened PyDict

  /** An endpoint's answer: a value, or the HTTP error status it raises. */
  datatype Result<T> = Ok(value: T) | HttpError(status: int)

  /** The mode the backend starts in. */
  const DashboardMode: string := "dashboard"

  /** `deque(maxlen=1000)` */
  const MaxHistory: nat := 1000

  datatype TractorData = TractorData(velocity: real, rpm: int, gear: real, timestamp: string)

  datatype ControlData = ControlData(mode: string, pedal: bool, brake: bool, timestamp: string)

  /** The body of POST /api/control. */
  datatype ControlCommand = ControlCommand(mode: string, pedal: bool, brake: bool)

  // ---------------------------------------------------------------------------
  // Incoming payloads and their conversion

  /** One field of an incoming JSON payload as `float()`/`int()` see it: absent,
      a number, or a value the conversion raises on. */
  datatype RawField = Missing | Number(x: real) | Malformed

  datatype Payload = Payload(velocity: RawField, rpm: RawField, gear: RawField)

  /** Python's `int()` of a number: truncation toward zero. */
  function Trunc(x: real): (r: int)
    ensures 0.0 <= x ==> r as real <= x < r as real + 1.0
    ensures x < 0.0 ==> r as real - 1.0 < x <= r as real
  {
    if x >= 0.0 then x.Floor else -((-x).Floor)
  }

  /** `float(data.get(key, 0))` */
  function ToFloat(f: RawField): Option<real>
  {
    match f
    case Missing => Some(0.0)
    case Number(x) => Some(x)
    case Malformed => None
  }

  /** `int(data.get(key, 0))` */
  function ToInt(f: RawField): Option<int>
  {
    match f
    case Missing => Some(0)
    case Number(x) => Some(Trunc(x))
    case Malformed => None
  }

  /** The TractorData that process_tractor_data builds before touching any state;
      None when a conversion raises. Missing keys read as 0. */
  function BuildRecord(p: Payload, now: string): (r: Option<TractorData>)
    ensures r.Some? <==> !p.velocity.Malformed? && !p.rpm.Malformed? && !p.gear.Malformed?
    ensures r.Some? ==> r.value.timestamp == now
    ensures r.Some? && p.velocity.Missing? ==> r.value.velocity == 0.0
    ensures r.Some? && p.rpm.Missing? ==> r.value.rpm == 0
    ensures r.Some? && p.gear.Missing? ==> r.value.gear == 0.0
    ensures r.Some? && p.velocity.Number? ==> r.value.velocity == p.velocity.x
    ensures r.Some? && p.gear.Number? ==> r.value.gear == p.gear.x
    ensures r.Some? && p.rpm.Number? ==> r.value.rpm == Trunc(p.rpm.x)
  {
    match (ToFloat(p.velocity), ToInt(p.rpm), ToFloat(p.gear))
    case (Some(v), Some(n), Some(g)) => Some(TractorData(v, n, g, now))
    case _ => None
  }

  // ---------------------------------------------------------------------------
  // CSV rows

  /** The dataclass field names that become dict keys and CSV columns. */
  datatype Column = Velocity | Rpm | Gear | Timestamp | Mode | Pedal | Brake

  datatype Field = RealField(r: real) | IntField(i: int) | StrField(s: string) | BoolField(b: bool)

  type Row = Dict<Column, Field>

  /** `asdict(TractorData)` */
  function TractorDict(d: TractorData): Row
  {
    [(Velocity, RealField(d.velocity)), (Rpm, IntField(d.rpm)),
     (Gear, RealField(d.gear)), (Timestamp, StrField(d.timestamp))]
  }

  /** `asdict(ControlData)` */
  function ControlDict(c: ControlData): Row
  {
    [(Mode, StrField(c.mode)), (Pedal, BoolField(c.pedal)),
     (Brake, BoolField(c.brake)), (Timestamp, StrField(c.timestamp))]
  }

  /** The CSV row logged for a reading: `{**asdict(data), **asdict(control)}`. */
  function CsvRow(d: TractorData, c: ControlData): Row
  {
    Merge(TractorDict(d), ControlDict(c))
  }

  const CsvColumns: seq<Column> := [Velocity, Rpm, Gear, Timestamp, Mode, Pedal, Brake]

  /** A CSV row has the reading's columns then the control's; `timestamp` keeps
      its place among the reading's columns but carries the control's time. */
  lemma CsvRowLayout(d: TractorData, c: ControlData)
    ensures Keys(CsvRow(d, c)) == CsvColumns
    ensures Get(CsvRow(d, c), Timestamp) == Some(StrField(c.timestamp))
    ensures Get(CsvRow(d, c), Velocity) == Some(RealField(d.velocity))
    ensures Get(CsvRow(d, c), Rpm) == Some(IntField(d.rpm))
    ensures Get(CsvRow(d, c), Gear) == Some(RealField(d.gear))
    ensures Get(CsvRow(d, c), Mode) == Some(StrField(c.mode))
    ensures Get(CsvRow(d, c), Pedal) == Some(BoolField(c.pedal))
    ensures Get(CsvRow(d, c), Brake) == Some(BoolField(c.brake))
  {
    var r := CsvRow(d, c);
    MergedRow(d, c);
    assert Keys(r) == CsvColumns;
    GetAt(r, 2);
    GetAt(r, 3);
    GetAt(r, 4);
    GetAt(r, 5);
    GetAt(r, 6);
  }

  /** The merge written out: the control's three new keys are appended and its
      timestamp overwrites the reading's in place. */
  lemma MergedRow(d: TractorData, c: ControlData)
    ensures CsvRow(d, c) ==
      [(Velocity, RealField(d.velocity)), (Rpm, IntField(d.rpm)), (Gear, RealField(d.gear)),
       (Timestamp, StrField(c.timestamp)), (Mode, StrField(c.mode)), (Pedal, BoolField(c.pedal)),
       (Brake, BoolField(c.brake))]
  {
    var t, k := TractorDict(d), ControlDict(c);
    var t1 := Put(t, Mode, k[0].1);
    assert Keys(t) == [Velocity, Rpm, Gear, Timestamp];
    PutAppends(t, Mode, k[0].1);
    var t2 := Put(t1, Pedal, k[1].1);
    assert Keys(t1) == [Velocity, Rpm, Gear, Timestamp, Mode];
    PutAppends(t1, Pedal, k[1].1);
    var t3 := Put(t2, Brake, k[2].1);
    assert Keys(t2) == [Velocity, Rpm, Gear, Timestamp, Mode, Pedal];
    PutAppends(t2, Brake, k[2].1);
    var t4 := Put(t3, Timestamp, k[3].1);
    PutReplaces(t3, 3, k[3].1);
    assert Merge(t, k) == Merge(t1, k[1..]);
    assert Merge(t1, k[1..]) == Merge(t2, k[2..]);
    assert Merge(t2, k[2..]) == Merge(t3, k[3..]);
    assert Merge(t3, k[3..]) == Merge(t4, k[4..]);
  }

  /** The CSV log of the readings `ds`, each logged with the control record
      `cs` current when it arrived. */
  function CsvLog(ds: seq<TractorData>, cs: seq<ControlData>): (rows: seq<Row>)
    requires |ds| == |cs|
    ensures |rows| == |ds|
  {
    seq(|ds|, i requires 0 <= i < |ds| => CsvRow(ds[i], cs[i]))
  }

  /** Logging one more reading appends exactly its row. */
  lemma CsvLogAppend(ds: seq<TractorData>, cs: seq<ControlData>, d: TractorData, c: ControlData)
    requires |ds| == |cs|
    ensures CsvLog(ds + [d], cs + [c]) == CsvLog(ds, cs) + [CsvRow(d, c)]
  {
    var l, r := CsvLog(ds + [d], cs + [c]), CsvLog(ds, cs) + [CsvRow(d, c)];
    forall i | 0 <= i < |l| ensures l[i] == r[i] {
      if i < |ds| {
        assert (ds + [d])[i] == ds[i] && (cs + [c])[i] == cs[i];
      }
    }
  }

  // ---------------------------------------------------------------------------
  // The bounded history

  /** `deque.append` on a deque with maxlen 1000: a full deque drops its oldest. */
  function DequeAppend(q: seq<TractorData>, x: TractorData): (r: seq<TractorData>)
    requires |q| <= MaxHistory
    ensures |r| == Min(|q| + 1, MaxHistory)
    ensures r == (q + [x])[|q| + 1 - |r|..]
    ensures r[|r| - 1] == x
  {
    if |q| < MaxHistory then q + [x] else q[1..] + [x]
  }

  /** The deque always holds the newest 1000 readings ever appended. */
  lemma {:induction false} DequeKeepsNewest(s: seq<TractorData>, x: TractorData)
    ensures DequeAppend(LastN(s, MaxHistory), x) == LastN(s + [x], MaxHistory)
  {
    var q := LastN(s, MaxHistory);
    LastNAppend(s, x, MaxHistory);
    assert DequeAppend(q, x) == LastN(q + [x], MaxHistory);
  }

  // ---------------------------------------------------------------------------
  // The backend object

  datatype Status = Status(mqttConnected: bool, dataPoints: nat, lastUpdate: Option<string>)

  datatype CurrentView = CurrentView(data: TractorData, control: ControlData, mqttConnected: bool)

  datatype CsvExport = CsvExport(header: seq<Column>, rows: seq<Row>)

  class TractorBackend {
    var currentData: Option<TractorData>
    var historicalData: seq<TractorData>
    var csvData: seq<Row>
    var currentControl: ControlData
    /** Set by the MQTT connect/disconnect callbacks, which are not modelled. */
    var mqttConnected: bool
    /** Whether an MQTT client object exists. */
    var hasMqttClient: bool
    /** Every reading accepted so far, oldest first. */
    ghost var processed: seq<TractorData>
    /** The control record current when each of them arrived. */
    ghost var controls: seq<ControlData>

    ghost predicate Valid()
      reads this
    {
      && historicalData == LastN(processed, MaxHistory)
      && |controls| == |processed|
      && csvData == CsvLog(processed, controls)
      && currentData == (if processed == [] then None else Some(processed[|processed| - 1]))
    }

    /** __init__ with an MQTT client created but not yet connected. */
    constructor (now: string)
      ensures Valid() && processed == [] && controls == []
      ensures currentData == None && historicalData == [] && csvData == []
      ensures currentControl == ControlData(DashboardMode, false, false, now)
      ensures !mqttConnected && hasMqttClient
    {
      currentData := None;
      historicalData := [];
      csvData := [];
      currentControl := ControlData(DashboardMode, false, false, now);
      mqttConnected := false;
      hasMqttClient := true;
      processed := [];
      controls := [];
    }

    /** process_tractor_data: on a payload that converts, the reading becomes
        current, enters the history and adds one CSV row; on one that raises,
        nothing changes. */
    method ProcessTractorData(p: Payload, now: string) returns (accepted: bool)
      requires Valid()
      modifies this
      ensures Valid()
      ensures accepted <==> BuildRecord(p, now).Some?
      ensures !accepted ==> unchanged(this)
      ensures accepted ==>
        var d := BuildRecord(p, now).value;
        && processed == old(processed) + [d]
        && controls == old(controls) + [currentControl]
        && currentData == Some(d)
        && historicalData == DequeAppend(old(historicalData), d)
        && csvData == old(csvData) + [CsvRow(d, currentControl)]
      ensures currentControl == old(currentControl)
      ensures mqttConnected == old(mqttConnected) && hasMqttClient == old(hasMqttClient)
    {
      var record := BuildRecord(p, now);
      if record.None? {
        return false;
      }
      var d := record.value;
      DequeKeepsNewest(processed, d);
      CsvLogAppend(processed, controls, d, currentControl);
      currentData := Some(d);
      historicalData := DequeAppend(historicalData, d);
      csvData := csvData + [CsvRow(d, currentControl)];
      processed := processed + [d];
      controls := controls + [currentControl];
      accepted := true;
    }

    /** POST /api/control: the command replaces the control record; it is
        published only when a client exists and is connected. */
    method SendControlCommand(cmd: ControlCommand, now: string) returns (published: bool, echo: ControlData)
      requires Valid()
      modifies this`currentControl
      ensures Valid()
      ensures currentControl == ControlData(cmd.mode, cmd.pedal, cmd.brake, now)
      ensures echo == currentControl
      ensures published <==> old(hasMqttClient) && old(mqttConnected)
    {
      currentControl := ControlData(cmd.mode, cmd.pedal, cmd.brake, now);
      echo := currentControl;
      published := hasMqttClient && mqttConnected;
    }

    /** GET /api/status */
    method GetStatus() returns (s: Status)
      requires Valid()
      ensures s.mqttConnected == mqttConnected
      ensures s.dataPoints == |csvData| >= |historicalData|
      ensures s.lastUpdate.None? <==> currentData.None?
      ensures currentData.Some? ==> s.lastUpdate == Some(currentData.value.timestamp)
    {
      var last := if currentData.Some? then Some(currentData.value.timestamp) else None;
      s := Status(mqttConnected, |csvData|, last);
    }

    /** GET /api/data/current: 404 until a reading has arrived. */
    method GetCurrentData() returns (r: Result<CurrentView>)
      ensures r.HttpError? <==> currentData.None?
      ensures r.HttpError? ==> r.status == 404
      ensures r.Ok? ==> r.value == CurrentView(currentData.value, currentControl, mqttConnected)
    {
      if currentData.None? {
        return HttpError(404);
      }
      r := Ok(CurrentView(currentData.value, currentControl, mqttConnected));
    }

    /** GET /api/data/historical?limit=n: `history[-limit:]` and the history's size. */
    method GetHistoricalData(limit: int) returns (data: seq<TractorData>, totalPoints: nat)
      ensures totalPoints == |historicalData|
      ensures limit > 0 ==> data == LastN(historicalData, limit)
      ensures limit == 0 ==> data == historicalData
      ensures limit < 0 ==> data == historicalData[Min(-limit, |historicalData|)..]
    {
      data := SliceFrom(historicalData, -limit);
      totalPoints := |historicalData|;
    }

    /** GET /api/export/csv: 404 while nothing was logged; otherwise the header
        (the first row's keys) and every row. */
    method ExportCsv() returns (r: Result<CsvExport>)
      requires Valid()
      ensures r.HttpError? <==> csvData == []
      ensures r.HttpError? ==> r.status == 404
      ensures r.Ok? ==> r.value == CsvExport(CsvColumns, csvData)
    {
      if csvData == [] {
        return HttpError(404);
      }
      CsvRowLayout(processed[0], controls[0]);
      r := Ok(CsvExport(Keys(csvData[0]), csvData));
    }
  }
}
