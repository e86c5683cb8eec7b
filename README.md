# Aquarium monitor front-end: a Dafny model of its decision rules

This project models the parts of the aquarium-surveillance web front-end that make choices. Those are:

- the `useSocket` hook, a three-cell state machine driven by the streaming channel's `connect`, `disconnect` and `new_sensor_reading` events;
- the live dashboard:
  - a window of at most 50 readings, seeded from the history endpoint in reverse and grown one reading per push;
  - the statistics refetch;
  - the gauges, which clamp a value into a domain and take it from a `||` fallback chain in which 0 counts as missing;
- the reports page:
  - the statistics URL, with date parameters only for the "custom" period;
  - the rule for storing the statistics;
  - the operational status log;
  - the PDF export: a raster placed aspect-preserved and centred on a page, saved under a dated file name, with a flag that disables the download button while an export runs;
- the hardware-health page:
  - the icon classification by functionality;
  - the sensor and actuator badges;
  - the pump's ON/OFF badge, which prefers the live reading over the stored one;
  - the task-type label;
  - the fetch that fills the page.

State that the source changes step by step is modelled as classes whose methods change fields: `Socket.SocketHook`, `Dashboard.DashboardView`, `Reports.ReportsPage` and `Sensors.SensorsPage`. Expressions are modelled as functions:

- the clamp;
- the fallback chain;
- the URL;
- the rows;
- the badges;
- the file name.

The libraries (the socket transport, the HTTP client, the rasteriser and the PDF writer) are replaced by inputs. A request is modelled as its outcome: it threw, or it answered with a success flag and data. The export is modelled as a raster size or a failure, and the page size as two positive reals.

JavaScript truthiness is written out:

- A reading's numeric field is an `Option<real>`, truthy when present and non-zero.
- A string is truthy when present and non-empty.
- `toUpperCase` and `toLowerCase` act on ASCII letters only.

Modules:

- `Common`: shared records, case mapping and `IndexOf`.
- `Socket`: the hook.
- `Gauge`: the clamp and the fallback chain.
- `Dashboard`: the window and the dashboard's state.
- `Reports`: the reports page.
- `Sensors`: the hardware-health page.

The socket state is tied to a ghost trace of the events handled, and `SocketHook.Valid` states that each cell is a function of that trace. Several lemmas characterise those functions:

- `lastReading` is the payload of the latest reading event;
- `isConnected` holds exactly when some connect has no later disconnect.

Two behaviours of the code bound what can be proved:

- The code never truncates the seed (`src/pages/Dashboard.jsx:26`), so the 50-reading bound on the history window holds only when the seed respects it. `Dashboard.WindowHoldsNewest` proves the bound in that case. `Dashboard.OverlongSeedStaysOverlong` proves that a seed over 50 stays over 50 forever.
- `handleDownloadPDF` has no re-entrancy check (`src/pages/Reports.jsx:53-57`): `Reports.ReportsPage.BeginDownload` raises the flag, and counts one more running export, whatever the flag was. Only `disabled={isDownloading}` (`src/pages/Reports.jsx:168`) prevents a second export (`Reports.ReportsPage.ClickDownload`).

## Model

| member | source | states |
|---|---|---|
| Common.Upper | src/pages/Reports.jsx:329 | Upper-casing keeps the length, maps each character on its own, and leaves no lower-case ASCII letter |
| Common.Lower | src/pages/Sensors.jsx:52 | Lower-casing keeps the length, maps each character on its own, and leaves no upper-case ASCII letter |
| Common.UpperIdempotent | src/pages/Reports.jsx:329 | Upper-casing twice is upper-casing once |
| Common.LowerIdempotent | src/pages/Sensors.jsx:52 | Lower-casing twice is lower-casing once |
| Common.UpperIgnoresCase | src/pages/Reports.jsx:329 | Upper-casing a lower-cased string gives the same result as upper-casing the original |
| Common.LowerIgnoresCase | src/pages/Sensors.jsx:52 | Lower-casing an upper-cased string gives the same result as lower-casing the original |
| Common.IndexOf | src/pages/Sensors.jsx:179 | The position of the first occurrence of a character, or the length when the character is absent; no earlier occurrence exists |
| Socket.LatestReadingIsLastPayload | src/hooks/useSocket.js:25-28 | `lastReading` is absent iff no payload was delivered; otherwise it is the last payload delivered |
| Socket.LatestReadingCharacterised | src/hooks/useSocket.js:25-28 | `lastReading` is `r` iff some event carried `r` and no reading event followed it |
| Socket.NoReadingEventNoReading | src/hooks/useSocket.js:9 | `lastReading` stays null iff no reading event was handled |
| Socket.LinkUpCharacterised | src/hooks/useSocket.js:14-23 | `isConnected` holds iff some connect event is followed by no disconnect event |
| Socket.SocketHook.constructor | src/hooks/useSocket.js:7-12 | Initially: no socket, not connected, no reading, the channel open, no events handled |
| Socket.SocketHook.OnConnect | src/hooks/useSocket.js:14-18 | Connected, and the socket is the mounted instance; the reading is kept; the trace-derived invariant is kept |
| Socket.SocketHook.OnDisconnect | src/hooks/useSocket.js:20-23 | Not connected; the socket and the last reading are untouched; the invariant is kept |
| Socket.SocketHook.OnNewSensorReading | src/hooks/useSocket.js:25-28 | The payload replaces `lastReading`; the connection flag and the socket are untouched; the invariant is kept |
| Socket.SocketHook.Deliver | src/hooks/useSocket.js:11-28 | An open channel dispatches each event to its handler; a closed one changes nothing |
| Socket.SocketHook.Teardown | src/hooks/useSocket.js:30-32 | Cleanup closes the channel and leaves the three state cells as they were |
| Gauge.Clamp | src/pages/Dashboard.jsx:231 | For a proper domain the result lies in [min, max], is the nearest point of the domain to the value, and equals the value when it is in range; it is always one of value, min and max |
| Gauge.Segments | src/pages/Dashboard.jsx:230-233 | `filled` is the clamped value and `filled + remaining == max`; with min <= max, remaining lies in [0, max - min], a value at or above max leaves nothing remaining, and one at or below min fills only min |
| Gauge.ClampIdempotent | src/pages/Dashboard.jsx:231 | Clamping, or segmenting, an already clamped value changes nothing |
| Gauge.ClampMonotone | src/pages/Dashboard.jsx:231 | A larger value never clamps to a smaller one |
| Gauge.GaugeValue | src/pages/Dashboard.jsx:200-217 | The live field if it is truthy, else the last history entry's field if truthy, else the default (7.0, 25.0 or 0) |
| Gauge.ZeroReadingIsMissing | src/pages/Dashboard.jsx:200 | A live field of exactly 0 gives the same gauge value as having no live reading |
| Gauge.GaugeValueNeverZero | src/pages/Dashboard.jsx:200-207 | The pH and temperature gauges never receive 0 |
| Gauge.GaugeFor | src/pages/Dashboard.jsx:198-221 | Each gauge's segments sum to the top of its domain and stay inside it; an in-domain value is drawn unchanged |
| Dashboard.Appended | src/pages/Dashboard.jsx:55-58 | Below 50 the reading is appended (length + 1); at or above 50 exactly the head is dropped (length kept); the last entry is the reading; the bound is kept if it held and an over-long window stays over-long |
| Dashboard.Reversed | src/pages/Dashboard.jsx:26 | Reversing keeps the length and swaps the first and last entries |
| Dashboard.ReversedPermutes | src/pages/Dashboard.jsx:26 | Reversing loses no reading and adds none: the result is a permutation of the input |
| Dashboard.SeedOrder | src/pages/Dashboard.jsx:26 | The seed puts the server's newest reading last and its oldest first; reversing twice gives the list back |
| Dashboard.WindowHoldsNewest | src/pages/Dashboard.jsx:53-60 | From a seed of at most 50, any run of appends leaves exactly the 50 newest of seed-then-appended readings, oldest first |
| Dashboard.WindowLength | src/pages/Dashboard.jsx:57 | From a seed of at most 50, the length after N appends is min(seed + N, 50) |
| Dashboard.OverlongSeedStaysOverlong | src/pages/Dashboard.jsx:55-58 | A seed longer than 50 (never truncated at line 26) keeps its length: each append drops exactly its oldest entry |
| Dashboard.AppendAllLast | src/pages/Dashboard.jsx:56-57 | After appending at least one reading, the window ends with the last one |
| Dashboard.FiftyFiveReadings | src/pages/Dashboard.jsx:57 | 55 readings pushed into an empty window leave the 6th to the 55th, in order |
| Dashboard.NewestEntryIsLastReading | src/pages/Dashboard.jsx:53-60 | With one append per reading event, the window's newest entry is the hook's `lastReading` |
| Dashboard.DashboardView.constructor | src/pages/Dashboard.jsx:12-15 | Empty history, no stats, loading, period "week" |
| Dashboard.DashboardView.FetchData | src/pages/Dashboard.jsx:17-36 | The history becomes the reversed server list on its success flag; the stats are replaced on theirs; a thrown request changes neither; `loading` ends false; the bound holds afterwards iff the new seed respects it |
| Dashboard.DashboardView.OnLastReading | src/pages/Dashboard.jsx:53-60 | A present reading is appended by the window rule and ends the history; an absent one changes nothing; the bound is preserved |
| Dashboard.DashboardView.FetchStatsOnly | src/pages/Dashboard.jsx:38-47 | Requests the given period's stats URL; stats are replaced on success and kept otherwise; nothing else changes |
| Dashboard.DashboardView.HandlePeriodChange | src/pages/Dashboard.jsx:62-66 | The period is selected and its statistics fetched |
| Common.StatsPeriodUrl | src/pages/Reports.jsx:24 | The statistics URL starts with the base URL, ends with the period, and is exactly as long as base, fixed path and period together (the same template is used at `src/pages/Dashboard.jsx:22` and `:40`) |
| Reports.StatsUrl | src/pages/Reports.jsx:24-27 | Any period but "custom" gives the plain statistics URL; "custom" extends it by the two date parameters, with exactly their lengths added |
| Reports.BuildStatsUrl | src/pages/Reports.jsx:24-27 | The URL starts with the base plus `/api/reports/stats?period=` plus period, and is longer exactly when the period is "custom" |
| Reports.StatsUrlParts | src/pages/Reports.jsx:24-27 | The URL's query splits at '&' into `period=…`, followed by `startDate=…` and `endDate=…` only for "custom" |
| Reports.StatsUrlParams | src/pages/Reports.jsx:24-27 | For values without '&' (the dates only matter for "custom"), a server splitting the query at '&' and each part at its first '=' reads back exactly `period`, followed by the two dates only for "custom" |
| Reports.StatsAfter | src/pages/Reports.jsx:33-40 | On success the stats become the payload plus the server's `dateRange`, or a null/null range when none came; otherwise they are unchanged |
| Reports.RowOf | src/pages/Reports.jsx:322-333 | A row shows the name; it says SENSOR iff `type` is truthy; its health label is the upper-cased status when a status exists and absent otherwise; it is green iff the upper-cased status is ACTIF, ON or WORKING |
| Reports.StatusRows | src/pages/Reports.jsx:322 | No stats or no sensors list gives no rows; otherwise one row per sensor, then one per actuator (missing actuators count as none), in order |
| Reports.HealthIgnoresCase | src/pages/Reports.jsx:329 | The health colour does not depend on how the status is cased |
| Reports.ContainFit | src/pages/Reports.jsx:75-86 | For positive sizes the image fits the page, keeps the raster's aspect, fills one side, and is centred with non-negative margins (2·margin + size == page on both axes) |
| Reports.ContainFitIsLargest | src/pages/Reports.jsx:75-83 | No rectangle of the raster's aspect that fits the page is wider or taller than the fitted one |
| Reports.WidthFills | src/pages/Reports.jsx:77-78 | When the width-filling size is not too tall, it is exactly the contain-fit |
| Reports.HeightFills | src/pages/Reports.jsx:80-83 | When it is too tall, the height-filling size is exactly the contain-fit, and it leaves the width unfilled |
| Reports.PlaceImage | src/pages/Reports.jsx:75-86 | The handler's branching computation equals the reference contain-fit; it takes the width-filling branch iff `pdfWidth / ratio <= pdfHeight`, and otherwise fills the height |
| Reports.WideRasterExample | src/pages/Reports.jsx:75-86 | 1600×900 on 1200×800 gives size 1200×675 at margins (0, 62.5) |
| Reports.TallRasterExample | src/pages/Reports.jsx:75-86 | 900×1600 on 1200×800 gives size 450×800 at margins (375, 0) |
| Reports.DatePart | src/pages/Reports.jsx:89 | The timestamp's prefix up to (not including) the first 'T', or all of it when there is none |
| Reports.PdfFileName | src/pages/Reports.jsx:89 | The name is the fixed prefix, then the date part, then ".pdf"; the date part can be read back from it, and it contains no 'T' |
| Reports.IsoTimestampFileName | src/pages/Reports.jsx:89 | For an ISO timestamp the name carries its first ten characters and is 42 characters long |
| Reports.ReportsPage.constructor | src/pages/Reports.jsx:11-18 | No stats, loading, period "custom", the date range from a week ago up to today, not downloading |
| Reports.ReportsPage.FetchStats | src/pages/Reports.jsx:21-47 | Requests the current period's URL; the stats follow the storing rule; `loading` ends false; the period, range and download state are unchanged |
| Reports.ReportsPage.SelectPeriod | src/pages/Reports.jsx:49-51 | The button selects the period; the effect refetches (with the new period) only when the value changed |
| Reports.ReportsPage.SetStartDate | src/pages/Reports.jsx:132 | Only the range's start changes |
| Reports.ReportsPage.SetEndDate | src/pages/Reports.jsx:141 | Only the range's end changes |
| Reports.ReportsPage.BeginDownload | src/pages/Reports.jsx:53-57 | Without a capture target nothing changes; otherwise the flag is raised and one more export runs, with no check of the flag |
| Reports.ReportsPage.CompleteDownload | src/pages/Reports.jsx:58-94 | A raster is saved as one file under the dated name at the contain-fit placement; a failure saves nothing; the flag is lowered either way |
| Reports.ReportsPage.DownloadEnabled | src/pages/Reports.jsx:168 | The button is enabled iff no export is in flight, that is iff no export runs |
| Reports.ReportsPage.ClickDownload | src/pages/Reports.jsx:166-168 | An export starts iff the button is enabled and there is a capture target; a start raises the flag and adds exactly one running export; otherwise flag and count are unchanged; at most one export runs and the flag says whether one does |
| Sensors.Classify | src/pages/Sensors.jsx:51-59 | ph, temperature, turbidity, tds and water_pump, compared after lower-casing, each get their own icon; anything else gets the default |
| Sensors.ClassifyIgnoresCase | src/pages/Sensors.jsx:52 | The icon is the same for the upper-cased and lower-cased functionality |
| Sensors.IsPump | src/pages/Sensors.jsx:167 | Every actuator counted as a pump gets the pump icon |
| Sensors.PumpStateOn | src/pages/Sensors.jsx:170 | The pump reads ON iff the active reading has a two-letter pump state spelled "on" in any casing |
| Sensors.PumpIconWithoutPumpBadge | src/pages/Sensors.jsx:166-194 | A functionality that lower-cases to water_pump but is not spelled exactly so (such as "WATER_PUMP") gets the pump icon, yet its cell never shows ON or OFF: it shows Ready or Inspection Required from the status, whatever readings exist |
| Sensors.ActiveReading | src/pages/Sensors.jsx:169 | The live reading when there is one, else the stored state |
| Sensors.ActuatorCell | src/pages/Sensors.jsx:166-194 | The pump badge appears iff the functionality is exactly water_pump and some reading is available; it says ON iff the active reading's upper-cased pumpState is "ON"; otherwise Ready iff the status is exactly "working" |
| Sensors.LiveReadingWins | src/pages/Sensors.jsx:169 | With a live reading the stored state has no effect on the badge |
| Sensors.StoredStateStandsIn | src/pages/Sensors.jsx:169-170 | Without a live reading the stored state decides the badge exactly as a live reading would |
| Sensors.PumpStateIgnoresCase | src/pages/Sensors.jsx:170 | The pump state is compared case-insensitively, and a missing pumpState reads as OFF |
| Sensors.SensorBadgeOf | src/pages/Sensors.jsx:126-128 | Operational iff the status is exactly "working" |
| Sensors.BadgeIsCaseSensitive | src/pages/Sensors.jsx:126-128 | A status "WORKING" shows Broken for a sensor and Inspection Required for an actuator |
| Sensors.TaskLabel | src/pages/Sensors.jsx:179 | Same length; the first '_' becomes a space and every other character is kept; without '_' the label is the functionality |
| Sensors.TaskLabelDropsOneUnderscore | src/pages/Sensors.jsx:179 | Exactly one underscore becomes one space |
| Sensors.TaskLabelSplitsAtFirst | src/pages/Sensors.jsx:179 | `head + "_" + tail` with no '_' in head becomes `head + " " + tail`, keeping later underscores |
| Sensors.SensorsPage.constructor | src/pages/Sensors.jsx:21-24 | No sensors, no actuators, no stored state, loading |
| Sensors.SensorsPage.FetchData | src/pages/Sensors.jsx:26-45 | Each list is replaced on its own success flag; the stored state becomes the history's first entry only on success with a non-empty list; a thrown request changes nothing; `loading` ends false |
| Sensors.SensorsPage.ActuatorCells | src/pages/Sensors.jsx:166-170 | One status cell per actuator, all from the same active reading |

## Left out

- Rendering is not modelled: JSX markup, styles, chart configuration and icon components. The About page, the sidebar, the routing and the static file server are not part of this model.
- The libraries' behaviour is not modelled; the model takes their results as inputs:
  - the socket transport and its reconnection;
  - the HTTP client;
  - `html2canvas`;
  - `jsPDF`'s page size, image properties, `addImage` and `save`.
- The asynchronous structure is not modelled:
  - `Promise.all` interleaving;
  - React effect scheduling and state batching;
  - the race between the initial seed and live appends.

  Each reading event is taken to cause exactly one window append.
- The 1500 ms settling delay before rasterising is not modelled.
- `Reports.ReportsPage.BeginDownload` and `Reports.ReportsPage.CompleteDownload` split the export handler at its first await.
- Reports.ReportsPage.FetchStats: the in-flight state of a fetch is not modelled. While `fetchStats` runs, `loading` is true (`src/pages/Reports.jsx:23`); the page then shows the spinner instead of the report (lines 154-158), which unmounts the capture target (line 178). The model sets and clears `loading` within one method, so it does not capture an export clicked during a fetch losing its target.
- Floating point is modelled as exact reals:
  - JavaScript double rounding in the fit arithmetic;
  - NaN in the clamp and in truthiness;
  - the logarithmic turbidity scaling and `toFixed` formatting on the dashboard.
- Reports.ContainFit: requires positive image and page sizes; a zero-size raster (a division by zero in the source) is not modelled.
- The clock and the locale are not modelled: `Date.now`, `toISOString` (the timestamps are parameters), `formatDate`/`toLocaleDateString`, and the report's REF number.
- Unicode case mapping is not modelled; `Common.Upper` and `Common.Lower` change ASCII letters only.
- `console.log` and `console.error` are not modelled.
- Sensors.Classify: assumes `functionality` is present; the source would throw on a missing one.
- Reports.StatsUrlParams: the round trip holds only for values without '&' (and a base URL without '?'), because the source does not encode the query.
