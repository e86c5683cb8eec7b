/** The hardware-health page: the sensor and actuator registries and the
    newest stored reading, fetched together; the icon chosen for each
    functionality; the status badges; and the pump's ON/OFF badge, which
    prefers the live reading over the stored one. */
module Sensors {
  import opened Common

  /* ---------- Functionality icons ---------- */

  /** The icon `getFuncIcon` picks. */
  datatype FuncKind = PhProbe | Thermometer | TurbidityProbe | TdsProbe | WaterPump | Generic

  /** `switch (func.toLowerCase())`. */
  function Classify(func: string): (k: FuncKind)
    ensures k == PhProbe <==> Lower(func) == "ph"
    ensures k == Thermometer <==> Lower(func) == "temperature"
    ensures k == TurbidityProbe <==> Lower(func) == "turbidity"
    ensures k == TdsProbe <==> Lower(func) == "tds"
    ensures k == WaterPump <==> Lower(func) == "water_pump"
  {
    var f := Lower(func);
    if f == "ph" then PhProbe
    else if f == "temperature" then Thermometer
    else if f == "turbidity" then TurbidityProbe
    else if f == "tds" then TdsProbe
    else if f == "water_pump" then WaterPump
    else Generic
  }

  /** The icon does not depend on how the functionality is cased. */
  lemma ClassifyIgnoresCase(func: string)
    ensures Classify(Upper(func)) == Classify(func)
    ensures Classify(Lower(func)) == Classify(func)
  {
    LowerIgnoresCase(func);
    LowerIdempotent(func);
  }

  /* ---------- Badges ---------- */

  /** `actuator.functionality === 'water_pump'`: unlike the icon, case-sensitive.
      Every pump gets the pump icon. */
  predicate IsPump(a: Asset)
    ensures IsPump(a) ==> Classify(a.functionality) == WaterPump
  {
    LowerOfLowerCase("water_pump");
    a.functionality == "water_pump"
  }

  /** `lastReading || latestState`: the live reading first, then the stored one. */
  function ActiveReading(live: Option<Reading>, latest: Option<Reading>): (r: Option<Reading>)
    ensures live.Some? ==> r == live
    ensures live.None? ==> r == latest
  {
    if live.Some? then live else latest
  }

  /** `activeReading?.pumpState?.toUpperCase() === 'ON'`: the state is one of
      "on", "On", "oN" and "ON". */
  predicate PumpStateOn(r: Option<Reading>)
    ensures PumpStateOn(r) <==>
              r.Some? && r.value.pumpState.Some? && |r.value.pumpState.value| == 2
              && r.value.pumpState.value[0] in "oO" && r.value.pumpState.value[1] in "nN"
  {
    r.Some? && r.value.pumpState.Some? && Upper(r.value.pumpState.value) == "ON"
  }

  /** What the "Pump Status" column shows for an actuator. */
  datatype StatusCell = PumpOn | PumpOff | Ready | InspectionRequired

  function ActuatorCell(a: Asset, live: Option<Reading>, latest: Option<Reading>): (c: StatusCell)
    ensures (c.PumpOn? || c.PumpOff?) <==> IsPump(a) && (live.Some? || latest.Some?)
    ensures c.PumpOn? <==> IsPump(a) && PumpStateOn(ActiveReading(live, latest))
    ensures c.Ready? <==> !(IsPump(a) && (live.Some? || latest.Some?)) && a.status == Some("working")
  {
    var active := ActiveReading(live, latest);
    if IsPump(a) && active.Some? then
      (if PumpStateOn(active) then PumpOn else PumpOff)
    else if a.status == Some("working") then Ready
    else InspectionRequired
  }

  /** Any other casing of "water_pump" (such as "WATER_PUMP") gets the pump
      icon but never the pump badge: the cell falls back to the status badge,
      whatever readings are available. */
  lemma PumpIconWithoutPumpBadge(a: Asset, live: Option<Reading>, latest: Option<Reading>)
    requires Lower(a.functionality) == "water_pump" && a.functionality != "water_pump"
    ensures Classify(a.functionality) == WaterPump
    ensures !ActuatorCell(a, live, latest).PumpOn? && !ActuatorCell(a, live, latest).PumpOff?
    ensures ActuatorCell(a, live, latest) == if a.status == Some("working") then Ready else InspectionRequired
  {
  }

  /** A live reading decides the pump badge on its own: the stored state is
      never consulted while one is present. */
  lemma LiveReadingWins(a: Asset, live: Reading, stored1: Option<Reading>, stored2: Option<Reading>)
    ensures ActuatorCell(a, Some(live), stored1) == ActuatorCell(a, Some(live), stored2)
  {
  }

  /** Without a live reading the stored state is read exactly as a live one. */
  lemma StoredStateStandsIn(a: Asset, stored: Reading, other: Option<Reading>)
    ensures ActuatorCell(a, None, Some(stored)) == ActuatorCell(a, Some(stored), other)
  {
  }

  /** The pump's state is read case-insensitively, and a missing state is OFF. */
  lemma PumpStateIgnoresCase(r: Reading, s: string)
    requires r.pumpState == Some(s)
    ensures PumpStateOn(Some(r)) == PumpStateOn(Some(r.(pumpState := Some(Upper(s)))))
    ensures PumpStateOn(Some(r)) == PumpStateOn(Some(r.(pumpState := Some(Lower(s)))))
    ensures !PumpStateOn(Some(r.(pumpState := None)))
  {
    UpperIdempotent(s);
    UpperIgnoresCase(s);
  }

  /** The sensor table's badge (and its status dot). */
  datatype SensorBadge = Operational | Broken

  function SensorBadgeOf(s: Asset): (b: SensorBadge)
    ensures b == Operational <==> s.status == Some("working")
  {
    if s.status == Some("working") then Operational else Broken
  }

  /** Unlike the status log of the audit report, the badges compare the
      status case-sensitively: "WORKING" shows as broken here. */
  lemma BadgeIsCaseSensitive(s: Asset)
    requires s.status == Some("WORKING")
    ensures SensorBadgeOf(s) == Broken
    ensures ActuatorCell(s, None, None) == InspectionRequired
  {
  }

  /* ---------- Task type label ---------- */

  /** `functionality.replace('_', ' ')`: only the first '_' becomes a space. */
  function TaskLabel(func: string): (r: string)
    ensures |r| == |func|
    ensures forall j :: 0 <= j < |func| && j != IndexOf(func, '_') ==> r[j] == func[j]
    ensures '_' in func ==> r[IndexOf(func, '_')] == ' '
    ensures '_' !in func ==> r == func
  {
    var i := IndexOf(func, '_');
    if i == |func| then func else func[..i] + " " + func[i + 1..]
  }

  /** Exactly one underscore disappears when there is one; the rest stay. */
  lemma TaskLabelDropsOneUnderscore(func: string)
    requires '_' in func
    ensures multiset(TaskLabel(func))['_'] == multiset(func)['_'] - 1
    ensures multiset(TaskLabel(func))[' '] == multiset(func)[' '] + 1
  {
    var i := IndexOf(func, '_');
    assert func == func[..i] + [func[i]] + func[i + 1..];
    assert TaskLabel(func) == func[..i] + [' '] + func[i + 1..];
  }

  /** The first underscore, and only it, becomes a space: whatever follows it
      (further underscores included) is kept as it is. */
  lemma TaskLabelSplitsAtFirst(head: string, tail: string)
    requires '_' !in head
    ensures TaskLabel(head + "_" + tail) == head + " " + tail
  {
    var s := head + "_" + tail;
    var rest := "_" + tail;
    assert rest[0] == '_';
    Regroup(head, "_", tail);
    IndexOfAfter(head, rest, '_');
    assert s[..|head|] == head && s[|head| + 1..] == tail;
  }

  /* ---------- The page ---------- */

  /** What `Promise.all` over the three requests yields. */
  datatype SensorsFetch =
    | FetchThrew
    | FetchSettled(sensorRes: Response<seq<Asset>>, actuatorRes: Response<seq<Asset>>,
                   historyRes: Response<seq<Reading>>)

  /** The page's state cells. */
  class SensorsPage {
    var sensors: seq<Asset>
    var actuators: seq<Asset>
    var latestState: Option<Reading>
    var loading: bool

    constructor ()
      ensures sensors == [] && actuators == [] && latestState == None && loading
    {
      sensors := [];
      actuators := [];
      latestState := None;
      loading := true;
    }

    /** `fetchData`: each list is replaced on its own success flag; the
        stored state becomes the history's first (newest) entry only when
        that request succeeded with a non-empty list; if any request throws
        nothing changes. `loading` ends false. */
    method FetchData(outcome: SensorsFetch)
      modifies this
      ensures sensors == (if outcome.FetchSettled? && outcome.sensorRes.success
                          then outcome.sensorRes.data else old(sensors))
      ensures actuators == (if outcome.FetchSettled? && outcome.actuatorRes.success
                            then outcome.actuatorRes.data else old(actuators))
      ensures latestState == (if outcome.FetchSettled? && outcome.historyRes.success
                                 && |outcome.historyRes.data| > 0
                              then Some(outcome.historyRes.data[0]) else old(latestState))
      ensures !loading
    {
      loading := true;
      match outcome {
        case FetchThrew =>
        case FetchSettled(sensorRes, actuatorRes, historyRes) =>
          if sensorRes.success {
            sensors := sensorRes.data;
          }
          if actuatorRes.success {
            actuators := actuatorRes.data;
          }
          if historyRes.success && |historyRes.data| > 0 {
            latestState := Some(historyRes.data[0]);
          }
      }
      loading := false;
    }

    /** The "Pump Status" column for every actuator, against a live reading. */
    function ActuatorCells(live: Option<Reading>): (cells: seq<StatusCell>)
      reads this
      ensures |cells| == |actuators|
      ensures forall i :: 0 <= i < |actuators| ==>
                cells[i] == ActuatorCell(actuators[i], live, latestState)
    {
      seq(|actuators|, i requires 0 <= i < |actuators| reads this => ActuatorCell(actuators[i], live, latestState))
    }
  }
}
