# Tesla wallbox exporter — Dafny model

This project models the core of `tesla_wallbox_exporter`. The exporter is a
small Go program. It polls a Tesla Wall Connector over its local API and
re-exposes the readings as a plain-text metrics endpoint (`GET /query`) for
periodic scraping.

Modules, one per part of the program:

- `Readings` (`readings.dfy`): the two records one fetch returns. These are
  the wallbox *vitals* (24 exported fields) and its *lifetime stats* (9
  fields). It also holds their zero values, which is what a failed fetch
  hands back.
- `Config` (`config.dfy`): the start-up decision from the environment.
  `TESLA_WALLBOX_IP` and `DEBUG` are looked up with `getEnvVariableOrDie`.
  `KEEP_POWER_METER` is looked up optionally. A fatal `log.Fatalf` becomes
  the error value `MissingVariable(name)`.
- `Exposition` (`exposition.dfy`): the text exposition format, one line at a
  time. A metric is a `# TYPE <name> <kind>` line followed by a
  `<name> <value>` line, with blank lines between metrics. `Parse` recovers
  one (name, kind, sample) metric from each `# TYPE` line that is directly
  followed by its value line, and skips all other lines. It is the partner
  against which the layout is proved.
- `Formatter` (`formatter.dfy`): `boolToInt` and the two format strings
  (`prometheusFormatWallboxVitals`, `prometheusFormatWallboxLifetimeStats`).
  Each becomes an ordered list of (name, kind, value) metrics.
- `Guard` (`guard.dfy`): the stale-value carry-forward guard of the `/query`
  handler. `Guarded` is the pure specification of one request.
  `QueryHandler` is a class. Its fields are the two carried values
  (`lastSessionEnergyValue: real`, `lastDispensedEnergyValue: nat`) and the
  start-up flag. Its methods are `Apply` (the guard, proved equal to
  `Guarded`) and `Query` (guard, then format). `Replay` gives the carried
  values after a series of requests, taken one after another.

`DEBUG` only raises the log level, but the program reads it with
`getEnvVariableOrDie` (tesla_wallbox_exporter.go:59), so a missing `DEBUG`
is fatal. `Config.LoadSettings` models that.

## Model

| member | source | states |
|---|---|---|
| `Config.GetEnvVariableOrDie` | tesla_wallbox_exporter.go:44-52 | succeeds exactly when the variable is set, even to the empty string, and then returns its value; otherwise the error names the variable |
| `Config.LoadSettings` | tesla_wallbox_exporter.go:54-71 | succeeds iff both `TESLA_WALLBOX_IP` and `DEBUG` are set; a missing address is reported first, then a missing `DEBUG`; the address is the variable's value; debug is on iff `DEBUG == "true"`; the guard is on iff `KEEP_POWER_METER` is set and equals `"true"` |
| `Config.KeepPowerMeterIsOptional` | tesla_wallbox_exporter.go:63-71 | setting or unsetting `KEEP_POWER_METER` never turns success into failure; it changes only the guard flag, and an absent variable leaves the guard off |
| `Formatter.BoolToInt` | tesla_wallbox_exporter.go:259-265 | the result is 0 or 1, and it is 1 exactly for `true` |
| `Formatter.VitalsMetrics` | tesla_wallbox_exporter.go:157-256 | the vitals block has 24 metrics, all gauges; the first four are `contactor_closed` and `vehicle_connected` as 0/1, `session_duration` as an integer and `session_energy` at three decimal places, each holding the record's value |
| `Formatter.StatsMetrics` | tesla_wallbox_exporter.go:116-155 | the lifetime block has 9 metrics; a metric is a gauge exactly when it is `average_startup_temperature` (one decimal place), and all others are counters; `dispensed_energy` is an integer counter holding the record's value |
| `Formatter.FormatVitals` | tesla_wallbox_exporter.go:157-230 | the printed vitals block opens with a blank line, every value line follows the `# TYPE` line of its metric, and it reads back as exactly the vitals metrics |
| `Formatter.FormatLifetimeStats` | tesla_wallbox_exporter.go:116-144 | the printed lifetime block opens with a blank line, every value line follows the `# TYPE` line of its metric, and it reads back as exactly the lifetime metrics |
| `Formatter.ResponseBody` | tesla_wallbox_exporter.go:104-105 | in the response body every value line comes right after a `# TYPE` line for the same metric; reading the body back gives the vitals metrics and then the lifetime metrics, with nothing lost, added or reordered |
| `Exposition.EntriesTyped` | tesla_wallbox_exporter.go:117-144 | the entries of a format string are three lines per metric, minus the final separator; each value line follows a type line of the same name |
| `Exposition.BlockTyped` | tesla_wallbox_exporter.go:158-230 | a whole block, with its opening blank line and its trailer, keeps every value line typed and starts with a blank line |
| `Exposition.ParseEntries` | tesla_wallbox_exporter.go:117-144 | reading back a block's entries yields exactly its metric list in order, followed by whatever comes after |
| `Exposition.ParseBlock` | tesla_wallbox_exporter.go:145-155 | reading back a printed block yields exactly its metrics in order, whatever its trailer and whatever follows it |
| `Exposition.BlockReadsBack` | tesla_wallbox_exporter.go:117-144 | a printed block on its own is typed, opens with a blank line and reads back as exactly its metrics |
| `Guard.Substitute` | tesla_wallbox_exporter.go:90-96 | a non-zero fetched value is kept, and a zero one is replaced by the carried value |
| `Guard.Guarded` | tesla_wallbox_exporter.go:89-100 | disabled: both records pass through and the carried values stay as they were. Enabled: a non-zero session or dispensed energy is emitted as fetched, and a zero one becomes the carried value, each field on its own; the new carried values equal what was emitted. No other field of either record changes |
| `Guard.GuardIdempotent` | tesla_wallbox_exporter.go:89-100 | re-applying the enabled guard to its own output and updated state yields the same output and state |
| `Guard.Replay` | tesla_wallbox_exporter.go:89-100 | the carried values after a series of requests handled one after another; with the guard disabled they are never written |
| `Guard.ReplayCarriesLastNonzero` | tesla_wallbox_exporter.go:63-100 | over any series of enabled requests, each carried value is the most recent non-zero fetched reading of its field; if there was none it is the starting value, so zeros before any reading stay 0 |
| `Guard.CarryAcrossFailedFetch` | tesla_wallbox_exporter.go:76-100 | a reading of 12.5 followed by a failed (zero-valued) fetch reports 12.5 both times and leaves 12.5 carried |
| `Guard.QueryHandler.constructor` | tesla_wallbox_exporter.go:63-71 | the guard flag is the one decided at start-up and both carried values start at 0 |
| `Guard.QueryHandler.Apply` | tesla_wallbox_exporter.go:89-100 | the emitted records and the new values of both carried fields are exactly those `Guarded` gives for the old carried values |
| `Guard.QueryHandler.Query` | tesla_wallbox_exporter.go:75-109 | the handler carries what the guard leaves, and its body is the vitals block followed by the lifetime block of the guarded records, which reads back as those metrics in that order |

## Left out

- HTTP serving, the `/query` route, port 8420 and the status 200 that is
  always written: I/O plumbing. `QueryHandler.Query` models only the body.
- The device client (`FetchVitals`, `FetchLifetimeStats`): it is an external
  library and is not part of this model. Its results are inputs to `Query`,
  zero-valued when a fetch failed. Fetch errors are only logged, so they do
  not appear.
- Logging (logrus, debug level) and process termination. A fatal start-up
  error is the value `Config.MissingVariable(name)`.
- Decimal rendering (`%d`, `%.1f`, `%.3f`): a value line records the value
  and the printf verb (`Integer`, or `Decimal` with its places), not its
  characters.
- Floating point: session energy and the other float fields are `real`. A
  Go float64 NaN (never equal to 0) and negative zero (equal to 0) have no
  counterpart. The guard only tests equality with zero, so apart from these
  two values the behaviour is the same.
- Field types of the library's records other than session energy and
  dispensed energy are not visible. Integer fields are modelled as `int`.
- Concurrent requests: the carried fields are shared without
  synchronisation across concurrent handler calls. The model treats requests
  as a sequential series (`Replay`, successive `Apply` calls), so lost
  updates are not captured.
- In-place update of the fetched records: `Apply` returns the patched records
  instead of writing through the pointer. Each fetch yields fresh records,
  so nothing else can observe the difference.
- A loop of requests: the source has none, because the HTTP server calls
  the handler once per request. A series of requests is described by the
  pure `Replay` fold instead.
