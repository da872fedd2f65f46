/**
 The sensor side of the hot-tub monitor: the per-sensor calibration table of
 the simulator, the calibration applied to raw readings, and the threshold
 evaluator that classifies each calibrated reading as too low, too high or
 normal.

 A readings dictionary is an ordered dictionary: a sequence of `Reading`s
 whose sensor names are unique, in iteration order.
 */
module Sensors {

  /** The sensors the simulator knows: the keys of its calibration table and of the threshold table. */
  const KnownSensors: set<string> := {"ph", "temperature", "turbidity", "orp"}

  /** A calibration: calibrated = (raw + offset) * scale. */
  datatype Calibration = Calibration(offset: real, scale: real)

  /** The calibration every sensor starts with. */
  const Identity := Calibration(0.0, 1.0)

  /** One entry of a readings dictionary. */
  datatype Reading = Reading(sensor: string, value: real)

  /** Sensor names of a readings dictionary never repeat. */
  ghost predicate UniqueSensors(rs: seq<Reading>) {
    forall i, j :: 0 <= i < j < |rs| ==> rs[i].sensor != rs[j].sensor
  }

  /** Every sensor of `rs` has an entry in `table`. */
  ghost predicate Covers(table: map<string, Calibration>, rs: seq<Reading>) {
    forall i :: 0 <= i < |rs| ==> rs[i].sensor in table
  }

  /** The calibration formula: offset first, then scale. */
  function Apply(c: Calibration, raw: real): real {
    (raw + c.offset) * c.scale
  }

  /**
   The calibration comprehension of the simulator: every reading is calibrated
   with its own sensor's entry of the table; sensor names and order are kept.
   */
  function Calibrate(raw: seq<Reading>, table: map<string, Calibration>): (r: seq<Reading>)
    requires Covers(table, raw)
    ensures |r| == |raw|
    ensures forall i :: 0 <= i < |raw| ==>
      r[i].sensor == raw[i].sensor &&
      r[i].value == (raw[i].value + table[raw[i].sensor].offset) * table[raw[i].sensor].scale
  {
    seq(|raw|, i requires 0 <= i < |raw| => Reading(raw[i].sensor, Apply(table[raw[i].sensor], raw[i].value)))
  }

  /**
   The calibration table after setting `sensorType` to (offset, scale): a known
   sensor gets exactly the new pair, every other entry stays, an unknown
   sensor changes nothing.
   */
  function Recalibrated(table: map<string, Calibration>, sensorType: string, offset: real, scale: real)
    : (t: map<string, Calibration>)
    ensures t.Keys == table.Keys
    ensures sensorType in table ==> t[sensorType] == Calibration(offset, scale)
    ensures forall s :: s in table && s != sensorType ==> t[s] == table[s]
    ensures sensorType !in table ==> t == table
  {
    if sensorType in table then table[sensorType := Calibration(offset, scale)] else table
  }

  /** A threshold band: values strictly below min or strictly above max raise an alert. */
  datatype Band = Band(min: real, max: real)

  /** The threshold table of the evaluator; every band is non-empty. */
  function Threshold(sensor: string): (b: Band)
    requires sensor in KnownSensors
    ensures b.min < b.max
  {
    if sensor == "ph" then Band(7.0, 7.8)
    else if sensor == "temperature" then Band(35.0, 40.0)
    else if sensor == "turbidity" then Band(0.0, 4.0)
    else Band(650.0, 750.0)
  }

  /** What an evaluation message says about the value. */
  datatype Kind = TooLow | TooHigh | Normal

  /** An evaluation message: the sensor, the verdict and the value it reports. */
  datatype Message = Message(sensor: string, kind: Kind, value: real)

  /** One entry of the evaluator's result: sensor, triggered flag, message. */
  datatype Evaluation = Evaluation(sensor: string, triggered: bool, message: Message)

  /**
   Classifies one calibrated reading against its band: too low strictly below
   min, too high strictly above max, normal otherwise (both bounds included);
   only the first two are triggered.
   */
  function Evaluate(sensor: string, value: real): (e: Evaluation)
    requires sensor in KnownSensors
    ensures e.sensor == sensor && e.message.sensor == sensor && e.message.value == value
    ensures e.message.kind == TooLow <==> value < Threshold(sensor).min
    ensures e.message.kind == TooHigh <==> value > Threshold(sensor).max
    ensures e.message.kind == Normal <==> Threshold(sensor).min <= value <= Threshold(sensor).max
    ensures e.triggered <==> e.message.kind != Normal
  {
    var band := Threshold(sensor);
    if value < band.min then Evaluation(sensor, true, Message(sensor, TooLow, value))
    else if value > band.max then Evaluation(sensor, true, Message(sensor, TooHigh, value))
    else Evaluation(sensor, false, Message(sensor, Normal, value))
  }

  /** The simulator: its calibration table is the only state it updates. */
  class SensorSimulator {
    var calibration: map<string, Calibration>

    /** Exactly one calibration entry per known sensor. */
    ghost predicate Valid()
      reads this
    {
      calibration.Keys == KnownSensors
    }

    /** Every known sensor starts uncalibrated: offset 0, scale 1. */
    constructor ()
      ensures Valid()
      ensures forall s :: s in calibration ==> calibration[s] == Identity
    {
      calibration := map["ph" := Identity, "temperature" := Identity,
                         "turbidity" := Identity, "orp" := Identity];
    }

    /**
     The calibrated readings for a given raw draw (the random draw itself is a
     parameter here).
     */
    method GetReadings(raw: seq<Reading>) returns (readings: seq<Reading>)
      requires Valid()
      requires forall i :: 0 <= i < |raw| ==> raw[i].sensor in KnownSensors
      ensures Covers(calibration, raw)
      ensures readings == Calibrate(raw, calibration)
      ensures UniqueSensors(raw) ==> UniqueSensors(readings)
    {
      readings := Calibrate(raw, calibration);
    }

    /** Overwrites one sensor's calibration; unknown sensors are ignored. */
    method UpdateCalibration(sensorType: string, offset: real, scale: real)
      requires Valid()
      modifies this
      ensures Valid()
      ensures calibration == Recalibrated(old(calibration), sensorType, offset, scale)
    {
      if sensorType in calibration {
        calibration := calibration[sensorType := Calibration(offset, scale)];
      }
    }

    /**
     Evaluates every reading against its threshold band, giving one entry per
     input sensor, in input order.
     */
    method CheckAlerts(readings: seq<Reading>) returns (alerts: seq<Evaluation>)
      requires UniqueSensors(readings)
      requires forall i :: 0 <= i < |readings| ==> readings[i].sensor in KnownSensors
      ensures |alerts| == |readings|
      ensures forall i :: 0 <= i < |readings| ==> alerts[i] == Evaluate(readings[i].sensor, readings[i].value)
      ensures forall i :: 0 <= i < |readings| ==> alerts[i].sensor == readings[i].sensor
      ensures forall i :: 0 <= i < |readings| ==>
        (alerts[i].triggered <==>
          (readings[i].value < Threshold(readings[i].sensor).min ||
           readings[i].value > Threshold(readings[i].sensor).max))
    {
      alerts := [];
      var i := 0;
      while i < |readings|
        invariant 0 <= i <= |readings|
        invariant |alerts| == i
        invariant forall k :: 0 <= k < i ==> alerts[k] == Evaluate(readings[k].sensor, readings[k].value)
      {
        alerts := alerts + [Evaluate(readings[i].sensor, readings[i].value)];
        i := i + 1;
      }
    }
  }

  /** With every sensor at offset 0 and scale 1, calibrated readings equal the raw ones. */
  lemma CalibrateIdentity(raw: seq<Reading>, table: map<string, Calibration>)
    requires Covers(table, raw)
    requires forall s :: s in table ==> table[s] == Identity
    ensures Calibrate(raw, table) == raw
  {
    var r := Calibrate(raw, table);
    forall i | 0 <= i < |raw|
      ensures r[i] == raw[i]
    {
      assert table[raw[i].sensor] == Identity;
    }
  }

  /**
   Recalibrating one sensor changes only that sensor's calibrated reading, and
   that reading then uses exactly the new offset and scale.
   */
  lemma CalibrateAfterRecalibration(raw: seq<Reading>, table: map<string, Calibration>,
                                    sensorType: string, offset: real, scale: real, i: nat)
    requires Covers(table, raw)
    requires i < |raw|
    ensures Covers(Recalibrated(table, sensorType, offset, scale), raw)
    ensures raw[i].sensor != sensorType ==>
      Calibrate(raw, Recalibrated(table, sensorType, offset, scale))[i] == Calibrate(raw, table)[i]
    ensures raw[i].sensor == sensorType ==>
      Calibrate(raw, Recalibrated(table, sensorType, offset, scale))[i].value == (raw[i].value + offset) * scale
  {
  }

  /** Setting a sensor's calibration twice with the same values is the same as setting it once. */
  lemma RecalibratedIdempotent(table: map<string, Calibration>, sensorType: string, offset: real, scale: real)
    ensures Recalibrated(Recalibrated(table, sensorType, offset, scale), sensorType, offset, scale)
         == Recalibrated(table, sensorType, offset, scale)
  {
  }

  /** A value exactly on either bound of its band is normal and raises no alert. */
  lemma BoundsAreNormal(sensor: string, value: real)
    requires sensor in KnownSensors
    requires value == Threshold(sensor).min || value == Threshold(sensor).max
    ensures Evaluate(sensor, value).message.kind == Normal
    ensures !Evaluate(sensor, value).triggered
  {
  }
}
