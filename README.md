# TeamCity → Graphite poller, modelled in Dafny

The program polls a TeamCity server and sends build statistics to Graphite in its
plaintext line format. Each iteration of its loop does four things:

1. It sends the queue length as `<prefix>.queuesize`.
2. It fetches the successful builds finished since the *watermark* (`lastPollTime`)
   and moves the watermark forward to the latest finish date among all of them.
3. It drops every build whose configuration id is fully matched by one of the
   configured exclusion patterns.
4. For each remaining build it sends `<prefix>.build.<id>.buildtime` (finish − start)
   and then `<prefix>.build.<id>.queuetime` (start − queued), in whole seconds.

Settings come from a YAML file, and missing optional keys get defaults.

Modules:

- `Numerics`: JVM `Long` wrap-around, `Long` division (truncating toward zero),
  and `Int`/`Long.toString()` with the parser that reads it back.
- `Graphite`: the metric record, the line `name value timestamp\n`, and a
  line-based collector's parse of such a line. The parse inverts the format for
  names and values without spaces or newlines.
- `Config`: the YAML values, the settings record `ConfigInfo` with its three
  metric-name getters, and `LoadConfig`.
- `Poll`: the specification functions of one iteration and the methods that run
  it (`ScanWatermark`, `IsIncluded`, `FilterBuilds`, `SendBuildMetrics`, `Step`).
  Each method is proved against those functions.

In these places the code does not do what its own messages and error handling
suggest, and the model follows the code:

- An absent `graphite` or `teamcity` key does not print the "must be specified"
  message. `get` returns null and `toString()` turns it into `"null"`, which is not
  empty. Only an explicitly empty value prints the message. In both cases a
  configuration is still returned (`Config.LoadConfig`).
- A collector that refuses the connection is not caught by the `catch` of
  `IOException` in `sendGraphiteStat`: `Socket(...)` is created outside its
  `try`, so the exception reaches the loop's `catch` and ends the iteration. Only write and flush errors are
  swallowed. `Step` models this with `faults.firstRefusedSend`. If the queue-length send
  is refused, the watermark does not move in that iteration.
- When `maxbuilds` is absent, the "defaulting to 100" message is printed but the value applied is 10.
- Nothing checks that `pollsecs` or `maxbuilds` is positive.

## Model

| member | source | states |
|---|---|---|
| `Numerics.WrapLong` | src/main/kotlin/com/kenyee/teamcity/util/GraphiteStats.kt:84-85 | a `Long` subtraction gives the unique 64-bit value congruent to the exact difference modulo 2^64, and the exact difference when it fits |
| `Numerics.TruncDiv` | src/main/kotlin/com/kenyee/teamcity/util/GraphiteStats.kt:84-85 | `Long` division by a positive divisor rounds toward zero: the remainder has the sign of the dividend and is smaller than the divisor |
| `Numerics.TruncDivOfNegative` | src/main/kotlin/com/kenyee/teamcity/util/GraphiteStats.kt:84-85 | -1500 ms gives -1 s, where Euclidean division would give -2 |
| `Numerics.NatDigits` | src/main/kotlin/com/kenyee/teamcity/util/GraphiteStats.kt:88-89 | a rendered natural number is a non-empty string of decimal digits with no leading zero |
| `Numerics.NatDigitsRoundTrip` | src/main/kotlin/com/kenyee/teamcity/util/GraphiteStats.kt:88-89 | the digits of `n` denote `n` |
| `Numerics.DecimalString` | src/main/kotlin/com/kenyee/teamcity/util/GraphiteStats.kt:53 | `toString()` of an integer is non-empty, has no space or newline, and starts with '-' exactly when the number is negative |
| `Numerics.DecimalRoundTrip` | src/main/kotlin/com/kenyee/teamcity/util/GraphiteStats.kt:88-89 | parsing the `toString()` of any integer gives that integer back |
| `Graphite.FormatMetricRoundTrip` | src/main/kotlin/com/kenyee/teamcity/util/GraphiteStats.kt:166-168 | a line `name value ts\n` is read by `ParseLine`, a one-line collector parse, as exactly that name, value and timestamp, when name and value contain no space and no newline |
| `Graphite.MetricLineRoundTrip` | src/main/kotlin/com/kenyee/teamcity/util/GraphiteStats.kt:153-154 | when the metric's name has no space and no newline, `ParseLine` recovers its path, its numeric value and the timestamp from the line sent for it |
| `Config.MetricNamesDistinct` | src/main/kotlin/com/kenyee/teamcity/util/GraphiteStats.kt:181-191 | run-time names and wait-time names are each injective in the configuration id; no run-time name is a wait-time name; the queue-size name is neither |
| `Config.MetricNameExample` | src/main/kotlin/com/kenyee/teamcity/util/GraphiteStats.kt:181-191 | prefix `ci` and id `build1` give `ci.build.build1.queuetime`, `ci.build.build1.buildtime` and `ci.queuesize` |
| `Config.AsInt` | src/main/kotlin/com/kenyee/teamcity/util/GraphiteStats.kt:126-136 | an `as Int?` cast gives null exactly for null, and the number itself exactly for a number that fits in 32 bits; anything else is a cast failure |
| `Config.AsList` | src/main/kotlin/com/kenyee/teamcity/util/GraphiteStats.kt:139-142 | an `as List<String>?` cast gives null exactly for null and the list itself exactly for a list; anything else is a cast failure |
| `Config.LoadConfig` | src/main/kotlin/com/kenyee/teamcity/util/GraphiteStats.kt:102-151 | a missing file or a non-mapping document gives no config; a mapping always gives a config unless a cast fails, reported at the first offending key in reading order; every field is the `toString()` of its key or the cast value; absent `pollsecs`/`maxbuilds` become 10 and absent `exclude` becomes empty; the messages are exactly those printed before loading ended, in order: an empty `graphite`, an empty `teamcity`, an absent `pollsecs`, an absent `maxbuilds` (announcing 100); an empty server value only adds a message; an absent `graphite` becomes `"null"` with no message |
| `Poll.DurationsAreTruncatedSeconds` | src/main/kotlin/com/kenyee/teamcity/util/GraphiteStats.kt:84-85 | without overflow, run and wait times are the millisecond differences divided by 1000 and rounded toward zero, negative differences included |
| `Poll.DurationExample` | src/main/kotlin/com/kenyee/teamcity/util/GraphiteStats.kt:84-85 | queued 1000000, start 1010000, finish 1050000 give a wait of 10 s and a run of 40 s; a finish 1500 ms before the start gives -1 s |
| `Poll.WatermarkIsRunningMax` | src/main/kotlin/com/kenyee/teamcity/util/GraphiteStats.kt:66-71 | the new watermark is at least the old one and at least every finish date, and it is either the old watermark or a finish date strictly later than it |
| `Poll.LatestFinishSetsWatermark` | src/main/kotlin/com/kenyee/teamcity/util/GraphiteStats.kt:66-82 | the latest finish date, when later than the watermark, becomes the watermark whatever the exclusions say |
| `Poll.WatermarkAcrossPolls` | src/main/kotlin/com/kenyee/teamcity/util/GraphiteStats.kt:48-71 | two successive scans equal one scan over both lists, so the watermark after several polls is the maximum of everything seen |
| `Poll.IsIncluded` | src/main/kotlin/com/kenyee/teamcity/util/GraphiteStats.kt:73-82 | a build is kept exactly when no pattern matches its id; on a match the loop stops at the first matching pattern, and otherwise every pattern is tried (`evaluated`, the number of patterns tried, exists only to make the `break` observable) |
| `Poll.SurvivingMembership` | src/main/kotlin/com/kenyee/teamcity/util/GraphiteStats.kt:72-82 | a build is in the filtered list exactly when it was in the input and no pattern matches its id |
| `Poll.SurvivingConcat` | src/main/kotlin/com/kenyee/teamcity/util/GraphiteStats.kt:72-82 | filtering distributes over concatenation, so kept builds stay in input order |
| `Poll.NoExclusionsKeepAll` | src/main/kotlin/com/kenyee/teamcity/util/GraphiteStats.kt:74-81 | with an empty exclusion list the filter returns the input unchanged |
| `Poll.BuildMetricsShape` | src/main/kotlin/com/kenyee/teamcity/util/GraphiteStats.kt:83-90 | each build emits exactly two metrics, its run time and then its wait time, in list order |
| `Poll.EmissionShape` | src/main/kotlin/com/kenyee/teamcity/util/GraphiteStats.kt:53-90 | the metrics for a list of kept builds are the queue length first, then each build's run time and wait time in list order, `1 + 2·kept` in all; an iteration's planned metrics are this emission for the builds the filter keeps |
| `Poll.ExcludedEmitsNothing` | src/main/kotlin/com/kenyee/teamcity/util/GraphiteStats.kt:72-90 | no build metric of an iteration carries the name of an excluded configuration id |
| `Poll.Delivered` | src/main/kotlin/com/kenyee/teamcity/util/GraphiteStats.kt:153-155 | when send `k` is refused, exactly the first `k` planned metrics are sent; otherwise all of them are |
| `Poll.ScanWatermark` | src/main/kotlin/com/kenyee/teamcity/util/GraphiteStats.kt:66-71 | the scan loop computes `AdvanceWatermark` of the unfiltered list, or of the builds before the one whose finish-date fetch throws, and reports how many builds it got through |
| `Poll.FilterBuilds` | src/main/kotlin/com/kenyee/teamcity/util/GraphiteStats.kt:72-82 | the filter loop computes `Surviving` |
| `Poll.SendBuildMetrics` | src/main/kotlin/com/kenyee/teamcity/util/GraphiteStats.kt:83-90 | the send loop sends the planned metrics up to, and not including, whichever comes first: the first refused connection, or the run-time metric of the first kept build whose dates cannot be fetched |
| `Poll.Step` | src/main/kotlin/com/kenyee/teamcity/util/GraphiteStats.kt:49-96 | the watermark never decreases. A failed queue query sends nothing and keeps the watermark. A refused queue-length send does the same. A failed build query sends only the queue length and keeps the watermark. Otherwise the watermark becomes the running maximum of the builds scanned before any finish-date fetch throws. A throw in the scan leaves only the queue length sent. A complete scan sends the planned metrics cut at the first refused connection or at the first kept build whose dates cannot be fetched |

## Left out

- TeamCity REST client (`TeamCityInstance`, `queuedBuilds()`, the build locator with `withStatus`, `sinceDate` and `limitResults`, and the always-true `is BuildLocator` test): these are calls into a foreign library. Their answers are parameters of `Step`: the queue length and the build list, or `None` when the query throws. The date getters `fetchFinishDate()`, `fetchStartDate()` and `fetchQueuedDate()` also ask the server: a build's dates are fields of `Build`, and the first getter that throws is a position in `Step`'s `faults`, in the scan or among the kept builds. A finish date read in the scan is taken to be the same value when it is read again for the run time. The server-side date and count filtering is not modelled.
- Socket I/O to port 2003 (`Socket`, `OutputStreamWriter`, `flush`): this is network I/O. The model keeps the ordered list of metrics handed to a connected socket, and a refused connection is the position `firstRefusedSend` in `Step`'s `faults`. The sockets are never closed; that resource leak is not modelled.
- YAML parsing and `File.exists`: these are library and filesystem calls. `LoadConfig` takes `None` for a missing file, or else the parsed document. A malformed file makes SnakeYAML throw out of `loadConfig`, and that case is not modelled. The "Loading configuration from" message is not modelled either, because it prints an absolute filesystem path.
- Non-string list elements: a YAML list is modelled as a list of strings only. `as List<String>?` does not check element types, so a list of other values would fail later inside the filter; that is not modelled.
- Clock: the initial `Date()` and `Math.round(System.currentTimeMillis() / 1000.0)` read the clock, the second with floating-point rounding. The start watermark and the epoch-seconds timestamp are integer parameters.
- Regex engine (`toRegex().matches`): this is a library. It is the parameter `matches(pattern, id)`, a full-match predicate. An invalid pattern throws during the filter, after the watermark scan; that is not modelled.
- Loop and error plumbing (`main`, `System.exit(1)`, `while (true)`, `Thread.sleep` with its `Int` product `pollPeriodSecs * 1000`, logging, the broad `catch`): this is process control and I/O. The model covers one iteration, and a caught exception ends it as `Step` describes.
- `someLibraryMethod`: it is a stub that always returns `true`.
- Nullable settings fields: `prefix`, `username` and `password` are declared nullable, but the only construction site passes `toString()` results. The model therefore uses plain strings. A null prefix would render as `"null"`, the same as an absent key.
