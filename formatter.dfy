/** The two exposition blocks the exporter writes for one scrape: the vitals
    (all gauges) and the lifetime statistics (counters and one gauge). Each is
    one format string with a fixed metric name, kind and printf verb per
    field. */
module Formatter {
  import opened Readings
  import opened Exposition

  /** Booleans are exported as 0 or 1. */
  function BoolToInt(v: bool): (r: int)
    ensures 0 <= r <= 1
    ensures r == 1 <==> v
  {
    if v then 1 else 0
  }

  /** The vitals block's metrics in the order the format string lists them:
      24 metrics, every one a gauge, the two flags rendered as 0 or 1 and
      session energy to three decimal places. */
  function VitalsMetrics(v: Vitals): (r: seq<Metric>)
    ensures |r| == 24
    ensures forall i :: 0 <= i < |r| ==> r[i].kind == Gauge
    ensures r[..4] == [Metric("contactor_closed", Gauge, Integer(if v.contactorClosed then 1 else 0)),
                       Metric("vehicle_connected", Gauge, Integer(if v.vehicleConnected then 1 else 0)),
                       Metric("session_duration", Gauge, Integer(v.sessionDuration)),
                       Metric("session_energy", Gauge, Decimal(v.sessionEnergy, 3))]
  {
    [ Metric("contactor_closed", Gauge, Integer(BoolToInt(v.contactorClosed))),
      Metric("vehicle_connected", Gauge, Integer(BoolToInt(v.vehicleConnected))),
      Metric("session_duration", Gauge, Integer(v.sessionDuration)),
      Metric("session_energy", Gauge, Decimal(v.sessionEnergy, 3)),
      Metric("grid_voltage", Gauge, Decimal(v.gridVoltage, 3)),
      Metric("grid_frequency", Gauge, Decimal(v.gridFrequency, 3)),
      Metric("vehicle_current", Gauge, Decimal(v.vehicleCurrent, 3)),
      Metric("phase_a_current", Gauge, Decimal(v.phaseACurrent, 3)),
      Metric("phase_b_current", Gauge, Decimal(v.phaseBCurrent, 3)),
      Metric("phase_c_current", Gauge, Decimal(v.phaseCCurrent, 3)),
      Metric("neutral_current", Gauge, Decimal(v.neutralCurrent, 3)),
      Metric("phase_a_voltage", Gauge, Decimal(v.phaseAVoltage, 3)),
      Metric("phase_b_voltage", Gauge, Decimal(v.phaseBVoltage, 3)),
      Metric("phase_c_voltage", Gauge, Decimal(v.phaseCVoltage, 3)),
      Metric("relay_coil_voltage", Gauge, Decimal(v.relayCoilVoltage, 3)),
      Metric("pcb_temperature", Gauge, Decimal(v.pcbTemperature, 1)),
      Metric("handle_temperature", Gauge, Decimal(v.handleTemperature, 1)),
      Metric("mcu_temperature", Gauge, Decimal(v.mcuTemperature, 3)),
      Metric("uptime", Gauge, Integer(v.uptime)),
      Metric("proximity_voltage", Gauge, Decimal(v.proximityVoltage, 1)),
      Metric("pilot_high_voltage", Gauge, Decimal(v.pilotHighVoltage, 1)),
      Metric("pilot_low_voltage", Gauge, Decimal(v.pilotLowVoltage, 1)),
      Metric("config_status", Gauge, Integer(v.configStatus)),
      Metric("evse_state", Gauge, Integer(v.evseState)) ]
  }

  /** The lifetime block's metrics in the order the format string lists them:
      9 metrics, all counters except the average start-up temperature, with
      dispensed energy as an integer. */
  function StatsMetrics(s: LifetimeStats): (r: seq<Metric>)
    ensures |r| == 9
    ensures forall i :: 0 <= i < |r| ==>
              (r[i].kind == Gauge <==> r[i].name == "average_startup_temperature")
    ensures r[4] == Metric("average_startup_temperature", Gauge, Decimal(s.averageStartupTemperature, 1))
    ensures r[6] == Metric("dispensed_energy", Counter, Integer(s.dispensedEnergy))
  {
    [ Metric("contactor_cycles", Counter, Integer(s.contactorCycles)),
      Metric("contactor_cycles_loaded", Counter, Integer(s.contactorCyclesLoaded)),
      Metric("connector_cycles", Counter, Integer(s.connectorCycles)),
      Metric("thermal_foldbacks", Counter, Integer(s.thermalFoldbacks)),
      Metric("average_startup_temperature", Gauge, Decimal(s.averageStartupTemperature, 1)),
      Metric("started_charging_sessions", Counter, Integer(s.startedChargingSessions)),
      Metric("dispensed_energy", Counter, Integer(s.dispensedEnergy)),
      Metric("total_uptime", Counter, Integer(s.totalUptime)),
      Metric("total_charging_time", Counter, Integer(s.chargingTime)) ]
  }

  /** The vitals format string ends its last value line with a newline and
      four spaces of indentation before the closing quote. */
  const VitalsTrailer: string := "    "

  /** The vitals block as printed, line by line: every value line follows the
      type comment of its metric, and it reads back as the vitals metrics. */
  function FormatVitals(v: Vitals): (r: seq<Line>)
    ensures Typed(r) && |r| > 0 && r[0] == Filler("")
    ensures Parse(r) == VitalsMetrics(v)
  {
    BlockReadsBack(VitalsMetrics(v), VitalsTrailer);
    Block(VitalsMetrics(v), VitalsTrailer)
  }

  /** The lifetime block as printed: its format string ends with a newline,
      so the print's own newline leaves one empty line. It is typed like the
      vitals block and reads back as the lifetime metrics. */
  function FormatLifetimeStats(s: LifetimeStats): (r: seq<Line>)
    ensures Typed(r) && |r| > 0 && r[0] == Filler("")
    ensures Parse(r) == StatsMetrics(s)
  {
    BlockReadsBack(StatsMetrics(s), "");
    Block(StatsMetrics(s), "")
  }

  /** The response body: the vitals block, then the lifetime block. Every
      value line comes right after a type comment for the same metric, and
      reading it back yields the vitals metrics followed by the lifetime
      metrics: nothing lost, added or reordered. */
  function ResponseBody(v: Vitals, s: LifetimeStats): (r: seq<Line>)
    ensures Typed(r)
    ensures Parse(r) == VitalsMetrics(v) + StatsMetrics(s)
  {
    var vitals, stats := FormatVitals(v), FormatLifetimeStats(s);
    TypedAppend(vitals, stats);
    ParseBlock(VitalsMetrics(v), VitalsTrailer, stats);
    vitals + stats
  }
}
