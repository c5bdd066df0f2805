/** The two records the device client returns for one scrape: the wallbox's
    point-in-time vitals and its lifetime counters. Their field set is the one
    the exporter formats; their values are whatever the fetch produced (on a
    failed fetch, the zero value of each field). */
module Readings {

  /** Instantaneous measurements. Session energy is the only field the exporter
      inspects (it compares it with zero), so the floating-point fields are
      modelled as reals and the integer ones as ints. */
  datatype Vitals = Vitals(
    contactorClosed: bool,
    vehicleConnected: bool,
    sessionDuration: int,
    sessionEnergy: real,
    gridVoltage: real,
    gridFrequency: real,
    vehicleCurrent: real,
    phaseACurrent: real,
    phaseBCurrent: real,
    phaseCCurrent: real,
    neutralCurrent: real,
    phaseAVoltage: real,
    phaseBVoltage: real,
    phaseCVoltage: real,
    relayCoilVoltage: real,
    pcbTemperature: real,
    handleTemperature: real,
    mcuTemperature: real,
    uptime: int,
    proximityVoltage: real,
    pilotHighVoltage: real,
    pilotLowVoltage: real,
    configStatus: int,
    evseState: int)

  /** Counters since the device was manufactured or reset, plus one average
      temperature. Dispensed energy is an unsigned integer. */
  datatype LifetimeStats = LifetimeStats(
    contactorCycles: int,
    contactorCyclesLoaded: int,
    connectorCycles: int,
    thermalFoldbacks: int,
    averageStartupTemperature: real,
    startedChargingSessions: int,
    dispensedEnergy: nat,
    totalUptime: int,
    chargingTime: int)

  /** What a failed vitals fetch hands back: every field at its zero value. */
  const ZeroVitals: Vitals :=
    Vitals(false, false, 0, 0.0, 0.0, 0.0, 0.0, 0.0, 0.0, 0.0, 0.0, 0.0, 0.0, 0.0,
           0.0, 0.0, 0.0, 0.0, 0, 0.0, 0.0, 0.0, 0, 0)

  /** What a failed lifetime-stats fetch hands back. */
  const ZeroStats: LifetimeStats := LifetimeStats(0, 0, 0, 0, 0.0, 0, 0, 0, 0)
}
