# Sentinel Core dashboard: live state and per-packet classification

This project models the live state of the network-intrusion dashboard and the
server step that feeds it.

The dashboard script (`static/script.js`) keeps these pieces of state:

- per-label packet counts (`stats`) and the totals `total` and `threats`;
- an accumulator `threatCounter` of alerts since the last 2-second tick;
- a 20-slot intensity window that each tick shifts;
- an activity log of at most 25 rows, newest first, that the pause button freezes;
- a confirmation-gated clear;
- a CSV export of the log.

The server (`app.py`) handles each captured packet in one step:

- it records `(time, source)` in a history bounded at 2000 entries;
- it counts the recent sightings of the same source (the density feature);
- it maps the classifier's integer prediction through `ATTACK_LABELS`;
- it emits `label` together with `alert = pred != 0`.

Modules:

- `Labels` (labels.dfy) holds the five classification labels, their keys and names, and the emitted event record.
- `Report` (report.dfy) holds the CSV export. It also has a reader for the format the export writes, used to state that a report reads back as the exported rows.
- `Dashboard` (dashboard.dfy) holds class `LiveState`, the script's module-level state, and its methods for the packet handler, the tick, the pause toggle and the clear.
  - Ghost fields record every event handled (`events`), every sample a tick has pushed (`samples`) and where the last tick happened (`lastTick`).
  - `Valid()` ties the counters to counts over `events`. It ties the window to the last 20 samples, padded with the 20 initial zeros.
- `Sensor` (sensor.dfy) holds the `pkt_history` deque as class `PacketHistory`, the density count, the label lookup and the emitted event.
- `Wrappers` (wrappers.dfy) holds `Option` and `Result`.

The two sides meet in the event's label type. A dashboard label is always one of the five keys: the server can only emit a value of `ATTACK_LABELS`. A prediction outside 0..4 emits nothing.

static/script.js:117 deletes only the row at index 25. `Valid()` keeps the log at 25 rows or fewer, so one insert makes at most 26 rows, and deleting index 25 is then the same as truncating to 25. The model follows the code.

## Model

| member | source | states |
|---|---|---|
| `Labels.LabelsEnumerated` | static/script.js:2 | every label has its own slot in the fixed `stats` order, and the five label names are pairwise distinct |
| `Sensor.AttackLabel` | app.py:29 | the lookup succeeds exactly for keys 0..4, and the label found has that key |
| `Sensor.AttackLabelsOneToOne` | app.py:29 | `ATTACK_LABELS` is one-to-one and onto: a label is found for key k iff k is that label's key |
| `Sensor.PacketHistory.constructor` | app.py:30 | the history starts empty |
| `Sensor.PacketHistory.Append` | app.py:70 | the new sighting becomes the newest entry; a full history (2000) drops its oldest entry; otherwise nothing is dropped and order is kept; the bound 2000 is preserved |
| `Sensor.Density` | app.py:71 | the density counts a subset of the history's entries, so it is at most the history length |
| `Sensor.DensityConcat` | app.py:71 | the density of a history is the sum of the densities of any split of it |
| `Sensor.DensityAfterAppend` | app.py:70-71 | appending the current packet raises the density by one, minus one if the evicted oldest entry was itself a recent sighting of that source |
| `Sensor.Protocol` | app.py:66 | the protocol feature is 6 iff the packet has a TCP layer, 17 iff it has UDP but no TCP, and 1 iff it has neither |
| `Sensor.Emit` | app.py:75-84 | an event is emitted iff the prediction is a key 0..4; it carries the clock, source and destination, the label with that key, and `alert` iff the prediction is non-zero, which is iff the label is not Benign |
| `Sensor.EmittedAlertSounds` | app.py:81-82 | for an emitted event, the dashboard sounds its cue iff the prediction is 2, 3 or 4 (DoS, R2L, U2R) |
| `Sensor.ProcessPacket` | app.py:63-84 | one packet: the history gains the sighting (even when the lookup then fails), the density is between 1 and the history length and counts the sightings of that source, and the event is the one `Emit` gives for the prediction on `[length, proto, density, density]` |
| `Dashboard.RiskLevel` | static/script.js:115 | the risk text is "HIGH" iff the event is an alert and "LOW" iff it is not |
| `Dashboard.RowOf` | static/script.js:111-116 | the displayed row carries the event's time and source, its label's name, and the risk "HIGH" iff the event is an alert and "LOW" iff it is not |
| `Dashboard.InsertRow` | static/script.js:108-117 | for a log of at most 25 rows: the new log has one more row, capped at 25; the new row is on top; the older rows follow in order, and only the oldest is lost when the log was full |
| `Dashboard.AlertSounds` | static/script.js:98-102 | the cue sounds iff the event is an alert and its label is DoS, R2L or U2R (the Benign/Probe filter of line 12) |
| `Dashboard.LabelCountsSum` | static/script.js:121 | every event counts towards exactly one label, so the five per-label counts add up to the number of events |
| `Dashboard.CountsAppend` | static/script.js:94-121 | one more event raises exactly its own label's count by 1 (the `stats` increment, line 121), and the alert count by 1 iff it is an alert (lines 94-99) |
| `Dashboard.AlertsSinceAppend` | static/script.js:98-100 | the alerts counted since a tick grow by 1 iff the new event is an alert |
| `Dashboard.SumConcat` | static/script.js:87 | the sum of the samples of a concatenation is the sum of the parts |
| `Dashboard.RecentTick` | static/script.js:86-89 | the window after one more sample is the old window shifted left by one, with the sample as the newest slot |
| `Dashboard.QuietWindow` | static/script.js:65 | once 20 or more ticks in a row have pushed 0, every one of the 20 slots is 0 |
| `Dashboard.RecentSum` | static/script.js:87-88 | the window never holds more alerts than all samples ever pushed |
| `Dashboard.InitiallyTallied` | static/script.js:2-4 | the initial zero counters agree with an empty event history, and the initial window is 20 zeros |
| `Dashboard.TalliedAfterEvent` | static/script.js:93-124 | the handler's counter updates keep every counter equal to its count over the events seen |
| `Dashboard.TalliedAfterTick` | static/script.js:86-91 | pushing and resetting the accumulator keeps the samples plus the open interval equal to `threats` |
| `Dashboard.LiveState.constructor` | static/script.js:2-4 | the session starts with all five counts 0, zero totals, a window of 20 zeros, an empty log and the feed not paused |
| `Dashboard.LiveState.HandlePacket` | static/script.js:93-124 | an event adds 1 to `total` and to its own label's count; it adds 1 to `threats` and `threatCounter` iff it is an alert; it sounds the cue per `AlertSounds`; it puts the row on top of the log only when not paused; it leaves the pause flag and window alone |
| `Dashboard.LiveState.CountEvent` | static/script.js:94-121 | the counting part of the handler (lines 94-103 and the `stats` increment, line 121); it leaves the log unchanged |
| `Dashboard.LiveState.ShowRow` | static/script.js:107-117 | the display part of the handler: the log becomes `InsertRow` of the old log |
| `Dashboard.LiveState.Tick` | static/script.js:86-91 | the window becomes the old window with its oldest slot dropped and `threatCounter` appended; it stays 20 long; the accumulator is reset to 0; nothing else changes |
| `Dashboard.LiveState.TogglePause` | static/script.js:128-133 | the flag flips and nothing else changes |
| `Dashboard.TogglePauseTwice` | static/script.js:128-129 | two toggles restore the flag and leave the counts, totals, accumulator, window, log and recorded history as they were |
| `Dashboard.LiveState.ClearLogs` | static/script.js:179-183 | a confirmed clear empties the log; an unconfirmed one changes nothing; the counters, window and accumulator are untouched either way |
| `Dashboard.LiveState.Distribution` | static/script.js:122 | the chart data is the five counts in label order, and they add up to `total` |
| `Dashboard.LiveState.SessionInvariants` | static/script.js:94-121 | at every point: the counts sum to `total`; `threats <= total`; the window's alerts plus the accumulator are at most `threats`; the window has 20 slots; the log has at most 25 rows |
| `Report.Export` | static/script.js:142-166 | an empty log fails with no output; otherwise the text is the header line followed by the rows' lines, appended in log (most-recent-first) order |
| `Report.BodyAppend` | static/script.js:154-166 | `Body`, the `forEach` accumulation: appending a row to the exported rows appends exactly its line to the text |
| `Report.ReadQuotedEscape` | static/script.js:163 | `Escape`, the `replace(/"/g, '""')`: escaped text followed by the closing quote reads back as the original text, with the rest of the input left over |
| `Report.UnquoteQuote` | static/script.js:163 | `Quote`: reading back a quoted field recovers the original text, including any `"` (doubled on output), commas and newlines |
| `Report.ReadLineOfLine` | static/script.js:163-164 | `Line`: a row's line reads back as exactly that row |
| `Report.ReportRoundTrip` | static/script.js:151-166 | a report reads back as exactly the exported rows: one line per row, in order, each field intact |

## Left out

- Rendering and transport are left out: the DOM updates (`innerText`, `innerHTML` templating, the row's CSS class), Chart.js (`chart.update`), socket.io and the Flask routes. The log is modelled as a sequence of 4-field rows, not table cells.
- `Report.Export` takes the log rows as the text shown in the cells. This makes the `cols.length >= 4` guard always true. The model does not capture that the script interpolates the fields into HTML and reads them back via `innerText`.
- The first `clearLogs` (static/script.js:135-137) is not modelled: the later declaration at line 179 replaces it.
- The tone synthesis (static/script.js:14-28) is left out. It is floating-point audio over a foreign API; only the decision to sound is modelled.
- `setInterval` timing is left out. A tick is an explicit `Tick` call. The code has no way to cancel the timer, and neither does the model.
- The `confirm()` and `alert()` prompts are left out. Confirmation is a boolean parameter. The empty-export notice is the `Failure(NothingToExport)` result.
- Export delivery is left out: `encodeURI`, the `data:` URI prefix, the download link and the dated file name. These are library calls and the wall clock.
- A label outside the five cannot reach the dashboard in the model: the event's label is the `Label` type. In the script such a label would create a `NaN` entry in `stats`. The server never emits one (`Sensor.Emit`).
- Packet capture (pyshark), interface detection (psutil), the thread, the asyncio loop and the classifier are left out. `time.time()` is the real parameter `now`. The formatted clock is the string `clock`. The classifier is the function parameter `predict`.
- Sensor.ProcessPacket: takes the packet's length, protocol flags, source and destination as already extracted. So it does not model the bare `except` skipping a packet whose fields fail to parse, whose prediction raises, or whose `pkt.ip.dst` (app.py:80) raises. That field is read after the history append and the prediction and before the `ATTACK_LABELS` lookup, so the sighting stays recorded and nothing is emitted. Only the failed lookup is modelled as a skip.
- Timestamps are unbounded reals, so floating-point rounding in `now - 2` is not modelled.
