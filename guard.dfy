/** The stale-value guard of the `/query` handler. When the wallbox cannot be
    reached the fetched records come back zero-valued; with the guard enabled
    the handler then reports the last session energy and dispensed energy it
    emitted instead of a zero, and remembers what it emitted for the next
    request. A genuine zero reading is treated the same way. */
module Guard {
  import opened Readings
  import opened Exposition
  import opened Formatter

  /** The two values the handler carries from one request to the next. */
  datatype Carried = Carried(sessionEnergy: real, dispensedEnergy: nat)

  /** Both carried values start at zero when the process starts. */
  const Initial: Carried := Carried(0.0, 0)

  /** One fetched pair of records, as one request sees it. */
  datatype Fetch = Fetch(vitals: Vitals, stats: LifetimeStats)

  /** What one request emits and the carried values it leaves behind. */
  datatype Outcome = Outcome(vitals: Vitals, stats: LifetimeStats, carried: Carried)

  /** A fetched value, or the carried one when the fetched value is zero. */
  function Substitute<T(==)>(incoming: T, zero: T, carried: T): (r: T)
    ensures incoming != zero ==> r == incoming
    ensures incoming == zero ==> r == carried
  {
    if incoming == zero then carried else incoming
  }

  /** The guard on one request. Disabled, it passes both records through and
      keeps the carried values. Enabled, a non-zero session energy or dispensed
      energy is emitted as fetched and a zero one is replaced by the carried
      value, the two fields independently; the carried values become exactly
      what was emitted; no other field of either record changes. */
  function Guarded(keep: bool, carried: Carried, f: Fetch): (r: Outcome)
    ensures !keep ==> r == Outcome(f.vitals, f.stats, carried)
    ensures keep && f.vitals.sessionEnergy != 0.0 ==> r.vitals.sessionEnergy == f.vitals.sessionEnergy
    ensures keep && f.vitals.sessionEnergy == 0.0 ==> r.vitals.sessionEnergy == carried.sessionEnergy
    ensures keep && f.stats.dispensedEnergy != 0 ==> r.stats.dispensedEnergy == f.stats.dispensedEnergy
    ensures keep && f.stats.dispensedEnergy == 0 ==> r.stats.dispensedEnergy == carried.dispensedEnergy
    ensures keep ==> r.carried == Carried(r.vitals.sessionEnergy, r.stats.dispensedEnergy)
    ensures r.vitals == f.vitals.(sessionEnergy := r.vitals.sessionEnergy)
    ensures r.stats == f.stats.(dispensedEnergy := r.stats.dispensedEnergy)
  {
    if keep then
      var sessionEnergy := Substitute(f.vitals.sessionEnergy, 0.0, carried.sessionEnergy);
      var dispensedEnergy := Substitute(f.stats.dispensedEnergy, 0, carried.dispensedEnergy);
      Outcome(f.vitals.(sessionEnergy := sessionEnergy),
              f.stats.(dispensedEnergy := dispensedEnergy),
              Carried(sessionEnergy, dispensedEnergy))
    else
      Outcome(f.vitals, f.stats, carried)
  }

  /** Feeding the enabled guard its own output, with the carried values it
      left, changes nothing: neither the records nor the carried values. */
  lemma GuardIdempotent(carried: Carried, f: Fetch)
    ensures var r := Guarded(true, carried, f);
            Guarded(true, r.carried, Fetch(r.vitals, r.stats)) == r
  {
  }

  /** The carried values after a series of requests, handled one after the
      other from `carried`. With the guard disabled they are never written. */
  function Replay(keep: bool, carried: Carried, fs: seq<Fetch>): (r: Carried)
    ensures !keep ==> r == carried
  {
    if |fs| == 0 then carried
    else Guarded(keep, Replay(keep, carried, fs[..|fs| - 1]), fs[|fs| - 1]).carried
  }

  /** The most recent non-zero session energy among the fetches, or `default`
      when every one of them was zero. */
  function LastSessionEnergy(fs: seq<Fetch>, default: real): (r: real)
  {
    if |fs| == 0 then default
    else if fs[|fs| - 1].vitals.sessionEnergy != 0.0 then fs[|fs| - 1].vitals.sessionEnergy
    else LastSessionEnergy(fs[..|fs| - 1], default)
  }

  /** The most recent non-zero dispensed energy among the fetches, or
      `default` when every one of them was zero. */
  function LastDispensedEnergy(fs: seq<Fetch>, default: nat): (r: nat)
  {
    if |fs| == 0 then default
    else if fs[|fs| - 1].stats.dispensedEnergy != 0 then fs[|fs| - 1].stats.dispensedEnergy
    else LastDispensedEnergy(fs[..|fs| - 1], default)
  }

  /** With the guard enabled, each carried value is always the most recently
      fetched non-zero reading of its field, or its starting value when there
      has been none; in particular zeros fetched before any non-zero reading
      leave it at 0 from the initial state. */
  lemma {:induction false} ReplayCarriesLastNonzero(carried: Carried, fs: seq<Fetch>)
    ensures Replay(true, carried, fs)
            == Carried(LastSessionEnergy(fs, carried.sessionEnergy),
                       LastDispensedEnergy(fs, carried.dispensedEnergy))
  {
    if |fs| > 0 {
      ReplayCarriesLastNonzero(carried, fs[..|fs| - 1]);
    }
  }

  /** A reading of 12.5 followed by a failed fetch: the second request still
      reports 12.5 for the session energy. */
  lemma CarryAcrossFailedFetch()
    ensures var first := Guarded(true, Initial, Fetch(ZeroVitals.(sessionEnergy := 12.5), ZeroStats));
            var second := Guarded(true, first.carried, Fetch(ZeroVitals, ZeroStats));
            && first.vitals.sessionEnergy == 12.5
            && second.vitals.sessionEnergy == 12.5
            && second.carried == Carried(12.5, 0)
  {
  }

  /** The `/query` handler's state: whether the guard is enabled, fixed at
      start-up, and the two carried values. */
  class QueryHandler {
    const keepPowerMeters: bool
    var lastSessionEnergyValue: real
    var lastDispensedEnergyValue: nat

    function CarriedValues(): Carried
      reads this
    {
      Carried(lastSessionEnergyValue, lastDispensedEnergyValue)
    }

    constructor (keep: bool)
      ensures keepPowerMeters == keep
      ensures CarriedValues() == Initial
    {
      keepPowerMeters := keep;
      lastSessionEnergyValue := 0.0;
      lastDispensedEnergyValue := 0;
    }

    /** The guard step of one request: patches the fetched records and
        updates the carried values. */
    method Apply(vitals: Vitals, stats: LifetimeStats) returns (emittedVitals: Vitals, emittedStats: LifetimeStats)
      modifies this
      ensures Outcome(emittedVitals, emittedStats, CarriedValues())
              == Guarded(keepPowerMeters, old(CarriedValues()), Fetch(vitals, stats))
    {
      emittedVitals, emittedStats := vitals, stats;
      if keepPowerMeters {
        if emittedVitals.sessionEnergy == 0.0 {
          emittedVitals := emittedVitals.(sessionEnergy := lastSessionEnergyValue);
        }
        if emittedStats.dispensedEnergy == 0 {
          emittedStats := emittedStats.(dispensedEnergy := lastDispensedEnergyValue);
        }
        lastSessionEnergyValue := emittedVitals.sessionEnergy;
        lastDispensedEnergyValue := emittedStats.dispensedEnergy;
      }
    }

    /** One scrape: the fetched records (zero-valued where a fetch failed) go
        through the guard, and the body is the vitals block followed by the
        lifetime block of what the guard emitted. */
    method Query(vitals: Vitals, stats: LifetimeStats) returns (body: seq<Line>)
      modifies this
      ensures var r := Guarded(keepPowerMeters, old(CarriedValues()), Fetch(vitals, stats));
              && CarriedValues() == r.carried
              && body == ResponseBody(r.vitals, r.stats)
              && Parse(body) == VitalsMetrics(r.vitals) + StatsMetrics(r.stats)
    {
      var emittedVitals, emittedStats := Apply(vitals, stats);
      body := ResponseBody(emittedVitals, emittedStats);
    }
  }
}
