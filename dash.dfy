/** The real-time dashboard: the chart window of recent log entries, the
    push-message handlers, the setpoint sliders and the actuator status
    publisher. */
module Dash {
  import opened Common

  /** A sensor snapshot; the two setpoints are optional. */
  datatype SensorData = SensorData(
    k: real, p: real, n: real, ec: real, pH: real,
    humidity: real, temperature: real,
    setedHumidity: Option<real>, setedTemperature: Option<real>)

  /** A `newdata` push message, already parsed. */
  datatype DataObject = DataObject(machine: string, data: SensorData)

  /** A `new/config/machine` message, in either direction. */
  datatype StatusMachine = StatusMachine(sprinkler: bool, motor: bool, pump: bool, machine: string)

  /** One chart entry; `time` is an already formatted clock string. */
  datatype LogData = LogData(time: string, humidity: real, temperature: real)

  /** The chart window's length bound. */
  const WindowCap: nat := 6

  // ------------------------------------------------------- window, as written

  /** The window-merge effect as the code has it: the sample is appended to a
      copy of the window and the oldest entry shifted out, but the copy is
      written back only when it is longer than 6. A missing sample or window
      changes nothing. */
  function MergeWindow(window: Option<seq<LogData>>, sample: Option<LogData>): (r: Option<seq<LogData>>)
    ensures r.Some? <==> window.Some?
    ensures sample.None? || window.None? ==> r == window
    ensures r.Some? ==> |r.value| == |window.value|
    ensures window.Some? && sample.Some? && |window.value| >= WindowCap ==>
      r.value[|r.value| - 1] == sample.value && r.value[..|r.value| - 1] == window.value[1..]
    ensures window.Some? && |window.value| < WindowCap ==> r == window
  {
    if sample.Some? && window.Some? then
      var previous := window.value + [sample.value];
      if |previous| > WindowCap then Some(previous[1..]) else window
    else
      window
  }

  /** The window after a run of samples, one merge per sample. */
  function MergeAll(window: Option<seq<LogData>>, samples: seq<LogData>): Option<seq<LogData>>
    decreases |samples|
  {
    if samples == [] then window
    else MergeAll(MergeWindow(window, Some(samples[0])), samples[1..])
  }

  /** As written, a window holding fewer than 6 entries never takes a sample. */
  lemma {:induction false} MergeAllBelowCapIsStuck(window: seq<LogData>, samples: seq<LogData>)
    requires |window| < WindowCap
    ensures MergeAll(Some(window), samples) == Some(window)
    decreases |samples|
  {
    if samples != [] {
      MergeAllBelowCapIsStuck(window, samples[1..]);
    }
  }

  /** As written, a window of at least 6 entries keeps its length and ends up
      holding the latest entries of the window followed by the samples, in
      arrival order. */
  lemma {:induction false} MergeAllFromCap(window: seq<LogData>, samples: seq<LogData>)
    requires |window| >= WindowCap
    ensures MergeAll(Some(window), samples) == Some((window + samples)[|samples|..])
    decreases |samples|
  {
    if samples != [] {
      var next := window[1..] + [samples[0]];
      assert (window + [samples[0]])[1..] == next;
      assert MergeWindow(Some(window), Some(samples[0])) == Some(next);
      MergeAllFromCap(next, samples[1..]);
      assert next + samples[1..] == (window + samples)[1..];
    } else {
      assert window + samples == window;
    }
  }

  /** The concrete input that shows the discrepancy: an empty window (a machine
      with no logs yet) and one sample. The code keeps the window empty where
      the intended window holds the sample. */
  lemma EmptyWindowDropsSample(s: LogData)
    ensures MergeWindow(Some([]), Some(s)) == Some([])
    ensures MergeWindowIntended([], s) == [s]
  {
  }

  // ---------------------------------------------------- window, as intended

  /** The merge as intended: append, then evict the oldest entry when the
      window grows past 6. */
  function MergeWindowIntended(window: seq<LogData>, sample: LogData): (r: seq<LogData>)
    ensures |window| <= WindowCap ==> |r| <= WindowCap
    ensures |r| > 0 && r[|r| - 1] == sample
  {
    var previous := window + [sample];
    if |previous| > WindowCap then previous[1..] else previous
  }

  function MergeAllIntended(window: seq<LogData>, samples: seq<LogData>): seq<LogData>
    decreases |samples|
  {
    if samples == [] then window
    else MergeAllIntended(MergeWindowIntended(window, samples[0]), samples[1..])
  }

  /** The last `min(|s|, n)` entries of `s`. */
  function LastN(s: seq<LogData>, n: nat): (r: seq<LogData>)
    ensures |r| == if |s| < n then |s| else n
  {
    if |s| <= n then s else s[|s| - n..]
  }

  /** Keeping the latest n entries before appending more changes nothing
      about the latest n entries afterwards. */
  lemma LastNAppend(a: seq<LogData>, b: seq<LogData>, n: nat)
    ensures LastN(LastN(a, n) + b, n) == LastN(a + b, n)
  {
    if |a| > n {
      var c := a[|a| - n..] + b;
      var ab := a + b;
      var ct, abt := c[|c| - n..], ab[|ab| - n..];
      forall i | 0 <= i < n
        ensures ct[i] == abt[i]
      {
        if |b| + i < n {
          assert c[|b| + i] == a[|a| - n + |b| + i];
        } else {
          assert c[|b| + i] == b[|b| + i - n];
        }
      }
      assert ct == abt;
    }
  }

  /** One intended merge keeps the latest 6 entries of the window and the sample. */
  lemma MergeWindowIntendedIsLastN(window: seq<LogData>, sample: LogData)
    requires |window| <= WindowCap
    ensures MergeWindowIntended(window, sample) == LastN(window + [sample], WindowCap)
  {
  }

  /** Intended behaviour: from a window within the bound, the window after
      any run of samples is the latest 6 entries, in arrival order. */
  lemma {:induction false} MergeAllIntendedKeepsLatest(window: seq<LogData>, samples: seq<LogData>)
    requires |window| <= WindowCap
    ensures MergeAllIntended(window, samples) == LastN(window + samples, WindowCap)
    decreases |samples|
  {
    if samples == [] {
      assert window + samples == window;
    } else {
      var next := MergeWindowIntended(window, samples[0]);
      MergeWindowIntendedIsLastN(window, samples[0]);
      MergeAllIntendedKeepsLatest(next, samples[1..]);
      LastNAppend(window + [samples[0]], samples[1..], WindowCap);
      assert window + [samples[0]] + samples[1..] == window + samples;
    }
  }

  /** From an empty window, N samples leave the latest min(N, 6) of them. */
  lemma IntendedFromEmpty(samples: seq<LogData>)
    ensures MergeAllIntended([], samples) == LastN(samples, WindowCap)
    ensures |MergeAllIntended([], samples)| == if |samples| < WindowCap then |samples| else WindowCap
  {
    MergeAllIntendedKeepsLatest([], samples);
    assert [] + samples == samples;
  }

  // ---------------------------------------------------------------- sliders

  /** The sensor readings (everything but the setpoints) agree. */
  predicate SameReadings(a: SensorData, b: SensorData)
  {
    && a.k == b.k && a.p == b.p && a.n == b.n && a.ec == b.ec && a.pH == b.pH
    && a.humidity == b.humidity && a.temperature == b.temperature
  }

  /** `prev => prev ? { ...prev, data: { ...prev.data, setedTemperature: v } } : null`. */
  function WithSetedTemperature(prev: Option<DataObject>, v: real): (r: Option<DataObject>)
    ensures r.None? <==> prev.None?
    ensures r.Some? ==>
      && r.value.machine == prev.value.machine
      && SameReadings(r.value.data, prev.value.data)
      && r.value.data.setedTemperature == Some(v)
      && r.value.data.setedHumidity == prev.value.data.setedHumidity
  {
    match prev
    case None => None
    case Some(o) => Some(o.(data := o.data.(setedTemperature := Some(v))))
  }

  /** `prev => prev ? { ...prev, data: { ...prev.data, setedHumidity: v } } : null`. */
  function WithSetedHumidity(prev: Option<DataObject>, v: real): (r: Option<DataObject>)
    ensures r.None? <==> prev.None?
    ensures r.Some? ==>
      && r.value.machine == prev.value.machine
      && SameReadings(r.value.data, prev.value.data)
      && r.value.data.setedHumidity == Some(v)
      && r.value.data.setedTemperature == prev.value.data.setedTemperature
  {
    match prev
    case None => None
    case Some(o) => Some(o.(data := o.data.(setedHumidity := Some(v))))
  }

  /** The two sliders edit independent fields, and the last position of a
      slider is the one that counts. */
  lemma SlidersIndependent(prev: Option<DataObject>, t: real, t': real, h: real)
    ensures WithSetedHumidity(WithSetedTemperature(prev, t), h) ==
            WithSetedTemperature(WithSetedHumidity(prev, h), t)
    ensures WithSetedTemperature(WithSetedTemperature(prev, t), t') == WithSetedTemperature(prev, t')
  {
  }

  // ----------------------------------------------------------- the component

  /** The status record the dashboard publishes, if it publishes one: only with
      a socket and a (non-empty) machine id, mirroring the three flags. */
  function StatusToEmit(socketOpen: bool, machineId: Option<string>,
                        motorOn: bool, pumpOn: bool, sprinklerOn: bool): (r: Option<StatusMachine>)
    ensures r.Some? <==> socketOpen && machineId.Some? && machineId.value != ""
    ensures r.Some? ==>
      r.value.motor == motorOn && r.value.pump == pumpOn && r.value.sprinkler == sprinklerOn &&
      r.value.machine == machineId.value
  {
    if socketOpen && machineId.Some? && machineId.value != "" then
      Some(StatusMachine(sprinklerOn, motorOn, pumpOn, machineId.value))
    else None
  }

  /** A message is for this dashboard when its machine is the user's. */
  predicate ForMachine(machine: string, machineId: Option<string>)
  {
    machineId == Some(machine)
  }

  class Dashboard {
    /** The logged-in user's machine id (null when there is no user). */
    const machineId: Option<string>
    /** The socket has been created. */
    var socketOpen: bool
    var temperature: real
    var humidity: real
    var setedTemperature: real
    var setedHumidity: real
    var graphData: Option<seq<LogData>>
    var machineData: Option<DataObject>
    var pendingChange: Option<LogData>
    var motorOn: bool
    var pumpOn: bool
    var sprinklerOn: bool
    /** Every `new/config/machine` record emitted so far, in order. */
    var statusOutbox: seq<StatusMachine>
    /** Failure toasts shown so far. */
    var errorToasts: nat

    constructor (machineId: Option<string>)
      ensures this.machineId == machineId && !socketOpen
      ensures temperature == 84.0 && humidity == 37.0
      ensures setedTemperature == 84.0 && setedHumidity == 37.0
      ensures graphData == None && machineData == None && pendingChange == None
      ensures !motorOn && !pumpOn && !sprinklerOn && statusOutbox == [] && errorToasts == 0
    {
      this.machineId := machineId;
      socketOpen := false;
      temperature, humidity := 84.0, 37.0;
      setedTemperature, setedHumidity := 84.0, 37.0;
      graphData, machineData, pendingChange := None, None, None;
      motorOn, pumpOn, sprinklerOn := false, false, false;
      statusOutbox := [];
      errorToasts := 0;
    }

    /** The last-six log fetch answered: a successful reply with a body
        installs the window; anything else leaves it. A thrown request, a
        non-ok status or an unsuccessful body each show one toast; a
        successful reply without a body shows none. */
    method OnLogsFetched(reply: Reply, logs: Option<seq<LogData>>)
      modifies this`graphData, this`errorToasts
      ensures reply == Received(true, true) && logs.Some? ==> graphData == logs
      ensures !(reply == Received(true, true) && logs.Some?) ==> graphData == old(graphData)
      ensures errorToasts == old(errorToasts) + (if reply == Received(true, true) then 0 else 1)
    {
      if reply == Received(true, true) {
        if logs.Some? {
          graphData := logs;
        }
      } else {
        errorToasts := errorToasts + 1;
      }
    }

    /** The machine snapshot fetch answered: a successful reply with a body
        installs the snapshot; anything else leaves it. Failures toast as for
        the log fetch. */
    method OnMachineFetched(reply: Reply, body: Option<DataObject>)
      modifies this`machineData, this`errorToasts
      ensures reply == Received(true, true) && body.Some? ==> machineData == body
      ensures !(reply == Received(true, true) && body.Some?) ==> machineData == old(machineData)
      ensures errorToasts == old(errorToasts) + (if reply == Received(true, true) then 0 else 1)
    {
      if reply == Received(true, true) {
        if body.Some? {
          machineData := body;
        }
      } else {
        errorToasts := errorToasts + 1;
      }
    }

    /** The socket is created on mount (`setSocket`). */
    method OpenSocket()
      modifies this`socketOpen
      ensures socketOpen
    {
      socketOpen := true;
    }

    /** The window-merge effect, run whenever `pendingChange` changes. */
    method ChartEffect()
      modifies this`graphData
      ensures graphData == MergeWindow(old(graphData), pendingChange)
    {
      if pendingChange.Some? && graphData.Some? {
        var previous := graphData.value + [pendingChange.value];
        if |previous| > WindowCap {
          previous := previous[1..];
          graphData := Some(previous);
        }
      }
    }

    /** `handleCriticalNotification` for a `newdata` message stamped `time`,
        followed by the window-merge effect its new log entry triggers. A
        message for another machine changes nothing. */
    method HandleCriticalNotification(msg: DataObject, time: string)
      modifies this`temperature, this`humidity, this`machineData, this`pendingChange, this`graphData
      ensures !ForMachine(msg.machine, machineId) ==>
        && temperature == old(temperature) && humidity == old(humidity)
        && machineData == old(machineData) && pendingChange == old(pendingChange)
        && graphData == old(graphData)
      ensures ForMachine(msg.machine, machineId) ==>
        && temperature == msg.data.temperature && humidity == msg.data.humidity
        && machineData == Some(msg)
        && pendingChange == Some(LogData(time, msg.data.humidity, msg.data.temperature))
        && graphData == MergeWindow(old(graphData), pendingChange)
    {
      if ForMachine(msg.machine, machineId) {
        temperature := msg.data.temperature;
        humidity := msg.data.humidity;
        machineData := Some(msg);
        pendingChange := Some(LogData(time, msg.data.humidity, msg.data.temperature));
        ChartEffect();
      }
    }

    /** The status effect, run when one of the three flags changed. */
    method StatusEffect()
      modifies this`statusOutbox
      ensures statusOutbox == old(statusOutbox) +
        match StatusToEmit(socketOpen, machineId, motorOn, pumpOn, sprinklerOn)
        case Some(s) => [s]
        case None => []
    {
      if !socketOpen {
        return;
      }
      if machineId.None? || machineId.value == "" {
        return;
      }
      var settings := StatusMachine(sprinklerOn, motorOn, pumpOn, machineId.value);
      statusOutbox := statusOutbox + [settings];
    }

    /** Sets the three flags and, when any of them changed, runs the status effect. */
    method SetFlags(motor: bool, pump: bool, sprinkler: bool)
      modifies this`motorOn, this`pumpOn, this`sprinklerOn, this`statusOutbox
      ensures motorOn == motor && pumpOn == pump && sprinklerOn == sprinkler
      ensures var changed := motor != old(motorOn) || pump != old(pumpOn) || sprinkler != old(sprinklerOn);
        statusOutbox == old(statusOutbox) +
          match (if changed then StatusToEmit(socketOpen, machineId, motor, pump, sprinkler) else None)
          case Some(s) => [s]
          case None => []
    {
      var changed := motor != motorOn || pump != pumpOn || sprinkler != sprinklerOn;
      motorOn, pumpOn, sprinklerOn := motor, pump, sprinkler;
      if changed {
        StatusEffect();
      }
    }

    /** `handleMachineStatus`: a message for this machine sets the three flags
        (and so, when they change, the dashboard publishes them back); any other
        message changes nothing. */
    method HandleMachineStatus(msg: StatusMachine)
      modifies this`motorOn, this`pumpOn, this`sprinklerOn, this`statusOutbox
      ensures !ForMachine(msg.machine, machineId) ==>
        && motorOn == old(motorOn) && pumpOn == old(pumpOn) && sprinklerOn == old(sprinklerOn)
        && statusOutbox == old(statusOutbox)
      ensures ForMachine(msg.machine, machineId) ==>
        motorOn == msg.motor && pumpOn == msg.pump && sprinklerOn == msg.sprinkler
      ensures ForMachine(msg.machine, machineId) ==>
        var changed := msg.motor != old(motorOn) || msg.pump != old(pumpOn) || msg.sprinkler != old(sprinklerOn);
        statusOutbox == old(statusOutbox) + (if changed && socketOpen && msg.machine != "" then [msg] else [])
    {
      if ForMachine(msg.machine, machineId) {
        SetFlags(msg.motor, msg.pump, msg.sprinkler);
      }
    }

    /** The temperature slider: only the temperature setpoint changes. */
    method EditTemperatureSetpoint(v: real)
      modifies this`machineData, this`setedTemperature
      ensures machineData == WithSetedTemperature(old(machineData), v)
      ensures setedTemperature == v
    {
      machineData := WithSetedTemperature(machineData, v);
      setedTemperature := v;
    }

    /** The humidity slider: only the humidity setpoint changes. */
    method EditHumiditySetpoint(v: real)
      modifies this`machineData, this`setedHumidity
      ensures machineData == WithSetedHumidity(old(machineData), v)
      ensures setedHumidity == v
    {
      machineData := WithSetedHumidity(machineData, v);
      setedHumidity := v;
    }
  }
}
