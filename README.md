# Log parser core, modelled in Dafny

A model of the two deterministic cores of a log parser. The log files it reads
hold lines of the form `timestamp origin destination`. Timestamps are 13-digit
millisecond numbers.

* **The range scanner.** This is `log_parser/connected_hostnames.py`. It
  collects the origin hosts that connected to a given host inside a time range
  `[start, end)`.
  * `process_batch` walks one chunk of lines. `grouper` produces the chunks.
  * The walk stops at the first `None` pad. It also stops at the first line
    stamped later than `end + TIMESTAMP_MARGIN`.
  * Each line is read by fixed slicing. The first 13 characters are the
    timestamp. The `host_len` characters before the newline are the
    destination. The rest between them is the origin.
  * The single-thread scan runs the same walk over the whole file.
  * The multi-process scan unions `process_batch` over the chunks.
  * `get_connected_hostnames` fills in the defaults for a falsy `workers` or
    `batch_size`, then picks a mode.
* **The hourly window state machine.** This is `unlimited` in
  `log_parser/unlimited_parser.py`. It follows a growing log and reports once
  per hour.
  * Each report lists the hosts that connected to the end host and the hosts
    the origin host connected to. It also counts every host.
  * The loop keeps the current hour's accumulator, the next hour's accumulator
    and the start of the current hour.
  * A line past the current hour's margin makes it report the hour and move
    on. So does an idle clock reading past that margin.

Files:

| file | contents |
|---|---|
| `common.dfy` | `Option` and `Result` |
| `py_text.dfy` | Python slicing with negative and out-of-range bounds; `int()` on a digit string |
| `grouping.dfy` | `grouper` |
| `batch_scan.dfy` | `process_batch` and the single-thread scan (loops), what their results mean, the line format, the two tests of `process_batch` |
| `connected_hostnames.dfy` | the multi-process scan as a union over chunks, the defaulting dispatcher, and the equivalence of the two modes on a sorted log |
| `hourly_window.dfy` | the step function of `unlimited` over `(actual, next_hour, init_timestamp)`, the run over a finite sequence of events, and its invariants |
| `unlimited_parser.dfy` | the loop of `unlimited` (imperative, proved equal to the run) |

How it is modelled:

* **Accumulators.** An accumulator is the value `Window`. The `Counter` is a
  multiset. `deepcopy` and the rotation at a flush become value semantics. A
  report is the tuple `log_resume_last_hour` receives, appended to an output
  sequence.
* **The scan results.** `process_batch` and the scans return a `Result`. The
  error case is the `ValueError` that `int(line[:13])` raises.
  `ProcessBatch` also returns how many elements it drew from the iterator.
  The test at tests/test_connected_hostnames.py:34 checks this through `next`.
* **Hosts.** `connected_from` receives the destination of a line whose origin
  is the origin host (log_parser/unlimited_parser.py:46, :53), as the code
  does.
* **Flushes.** A record triggers at most one flush, however far past the hour
  it is stamped. The record is then folded into the new current hour, or the
  one after it (log_parser/unlimited_parser.py:39-57). One might expect the
  record to be re-evaluated after a flush, flushing again after a gap of
  several hours. The code does not do this, and the model follows the code.
* **Destinations.** The destination test compares only the last `host_len`
  characters before the newline with the host name
  (log_parser/connected_hostnames.py:29). So a destination that merely ends
  with the host name passes. The origin slice of such a line then keeps the
  separating space. The model reproduces this; `SuffixDestinationMatches`
  shows it on a line to `xhost-H`.

## Model

| member | source | states |
|---|---|---|
| PyText.SliceBound | log_parser/connected_hostnames.py:29 | a slice bound counts from the end when negative and is clamped to `[0, len]` |
| PyText.Slice | log_parser/connected_hostnames.py:24-32 | `s[a:b]` never fails: its length is the distance between the normalised bounds, it is empty when they cross, and its characters are those of `s` from the normalised start |
| PyText.ParseDecimal | log_parser/connected_hostnames.py:24 | `int(text)` yields a value exactly when the text is a nonempty string of ASCII digits |
| PyText.DigitsValueAppend | log_parser/connected_hostnames.py:24 | the value read is positional decimal: appending a digit multiplies by ten and adds the digit |
| Grouping.Grouper | log_parser/connected_hostnames.py:12-15 | every chunk has exactly `n` elements; no chunk when `n <= 0` or the input is empty, at least one otherwise |
| Grouping.PadCount | log_parser/connected_hostnames.py:12-15 | the number of fill values is below `n`, and zero for an empty input |
| Grouping.GrouperFlatten | log_parser/connected_hostnames.py:12-15 | laid end to end, the chunks are the input followed by fewer than `n` `None` pads |
| Grouping.GrouperCount | log_parser/connected_hostnames.py:12-15 | the chunks hold exactly the input and its pads (number of chunks times `n`) |
| Grouping.GrouperPadsOnlyLast | log_parser/connected_hostnames.py:12-15 | every chunk but the last holds input elements only |
| Grouping.GrouperExamples | tests/test_connected_hostnames.py:10-18 | `grouper(range(5), 2)` and `grouper(range(5), 6)` give the chunks the test expects |
| BatchScan.StopFrom | log_parser/connected_hostnames.py:21-26 | the walk stops at the first `None`, unreadable timestamp or line beyond `end + margin`, and at the end of the batch if there is none |
| BatchScan.ProcessBatch | log_parser/connected_hostnames.py:18-33 | the loop returns the hosts collected up to the stop point (or the parse error of the line that stops it) and draws elements up to and including the stop point |
| BatchScan.ScanFile | log_parser/connected_hostnames.py:48-63 | the single-thread scan, with `host_len = len(hostname)`, returns what `process_batch` returns on the same `None`-free lines |
| BatchScan.TakeIffContributes | log_parser/connected_hostnames.py:27-32 | before the stop point a line adds a host exactly when its timestamp is in `[start, end)`, its destination slice is the host name, and the host is its origin slice |
| BatchScan.BatchResultMembers | log_parser/connected_hostnames.py:21-32 | soundness and completeness: a host is in the result exactly when some line before the stop point contributes it |
| BatchScan.BatchResultFails | log_parser/connected_hostnames.py:24 | the batch raises exactly when the element that stops it is a line whose 13-character prefix is not a number |
| BatchScan.VerdictsConcat | log_parser/connected_hostnames.py:21-32 | the verdicts of two runs of elements are the verdicts of each |
| BatchScan.TakenPrefix | log_parser/connected_hostnames.py:21-32 | what a walk collects up to a point depends only on the verdicts before that point |
| BatchScan.CutOff | log_parser/connected_hostnames.py:21-26 | a pad or a line beyond `end + margin` cuts off everything after it: the result is that of the elements before it, and nothing past it is drawn |
| BatchScan.StopsAtPadding | log_parser/connected_hostnames.py:21-23 | nothing after the first `None` is examined or contributes |
| BatchScan.StopsBeyondEnd | log_parser/connected_hostnames.py:24-26 | the first line stamped later than `end + margin` and all after it contribute nothing, and nothing past that line is drawn |
| BatchScan.FieldsOfFormattedLine | log_parser/connected_hostnames.py:24-32 | on `stamp origin destination\n` with a 13-digit stamp the slices read the stamp's value, the last `host_len` characters of the destination, and the origin when `host_len` is the destination's length |
| BatchScan.SuffixDestinationMatches | log_parser/connected_hostnames.py:29-32 | a line `stamp host-B xhost-H` inside the range counts as a connection to `host-H` and adds the origin slice `"host-B "`, space included |
| BatchScan.FormattedLineVerdict | log_parser/connected_hostnames.py:24-32 | the loop body's decision on such a line, in terms of its fields |
| BatchScan.SharedVerdicts | tests/test_connected_hostnames.py:24-28 | the decisions on the five lines both tests share: skip, take `host-B`, skip, skip, take `host-C` |
| BatchScan.EndTimeOutcome | tests/test_connected_hostnames.py:21-34 | those decisions followed by a line beyond the margin give `{host-B, host-C}` after six elements drawn |
| BatchScan.EndBatchOutcome | tests/test_connected_hostnames.py:37-51 | those decisions, then a skipped line and a pad, give `{host-B, host-C}` with every element drawn |
| BatchScan.ProcessBatchEndTime | tests/test_connected_hostnames.py:21-34 | on the test's seven lines with stamps counted from any `t`, the batch returns `{host-B, host-C}` and leaves the seventh line for `next` |
| BatchScan.ProcessBatchEndTimeExample | tests/test_connected_hostnames.py:21-34 | the same on the test's own timestamps, for any margin from 2 to 300003 |
| BatchScan.ProcessBatchEndBatch | tests/test_connected_hostnames.py:37-51 | on the test's six lines and a `None` pad, the batch returns `{host-B, host-C}` and exhausts the iterator |
| BatchScan.ProcessBatchEndBatchExample | tests/test_connected_hostnames.py:37-51 | the same on the test's own timestamps, for any margin of at least 4 |
| ConnectedHostnames.UnionAll | log_parser/connected_hostnames.py:44-45 | the union succeeds exactly when every batch does; then a host is in it exactly when it is in some batch's result; otherwise it is the error of the first failing batch |
| ConnectedHostnames.BatchResults | log_parser/connected_hostnames.py:41-44 | one `process_batch` result per chunk, in chunk order |
| ConnectedHostnames.Dispatch | log_parser/connected_hostnames.py:79-85 | the multi-process mode is chosen exactly when asked for, with a falsy `workers` replaced by 8 and a falsy `batch_size` by 200000 |
| ConnectedHostnames.GetConnectedHostnames | log_parser/connected_hostnames.py:66-85 | the hosts reported are those of the scan the dispatcher picks; on a sorted log they are the single-thread result in either mode, for a positive batch size |
| ConnectedHostnames.TakenConcat | log_parser/connected_hostnames.py:36-45 | what two runs of verdicts collect is the union of what each collects |
| ConnectedHostnames.WrappedTakenSplit | log_parser/connected_hostnames.py:36-45 | what a log contributes is what its first `n` lines contribute together with the rest |
| ConnectedHostnames.SortedScan | log_parser/connected_hostnames.py:21-26 | on a sorted log followed by pads, the early exit loses nothing: the batch returns every contribution of the log |
| ConnectedHostnames.ModesAgree | log_parser/connected_hostnames.py:36-45 | on a sorted log the union of `process_batch` over the `grouper` chunks equals the single-thread result, for every positive batch size |
| ConnectedHostnames.BatchSizeIrrelevant | log_parser/connected_hostnames.py:36-45 | on a sorted log the multi-process result is the same for any two positive batch sizes |
| ConnectedHostnames.NegativeBatchSizeFindsNothing | log_parser/connected_hostnames.py:36-45 | a negative batch size yields no chunk, so no host is reported |
| HourlyWindow.InitialWindowStart | log_parser/unlimited_parser.py:27 | the first hour starts at `init_timestamp`, or at the clock when it is missing or zero |
| HourlyWindow.InitialConsistent | log_parser/unlimited_parser.py:28-30 | both accumulators start empty, hence consistent |
| HourlyWindow.FoldEffect | log_parser/unlimited_parser.py:45-50 | `connected_from` gains `end` exactly when the origin is the origin host; `connected_to` gains `origin` exactly when the destination is the end host; the counts of `origin` and `end` each rise by one, so the total rises by exactly 2, and no other count moves |
| HourlyWindow.RecordBeforeWindow | log_parser/unlimited_parser.py:37-38 | a line older than the current hour changes nothing and reports nothing |
| HourlyWindow.RecordClosesWindow | log_parser/unlimited_parser.py:39-57 | a line past the margin reports `(ws, origin_host, end_host, actual)` exactly once and moves to `ws + HOUR`, with `actual := next_hour`; the line then goes to the new hour, or to the one after when it is stamped at or after `ws + 2 HOUR` |
| HourlyWindow.RecordInWindow | log_parser/unlimited_parser.py:44-57 | a line within the hour or its margin reports nothing, keeps the hour, and is folded into exactly one accumulator, the other unchanged: `next_hour` when stamped at or after `ws + HOUR`, `actual` otherwise |
| HourlyWindow.IdleStep | log_parser/unlimited_parser.py:58-63 | with no line, the clock at or past `ws + HOUR + MARGIN` reports and rotates; before that nothing changes and nothing is reported |
| HourlyWindow.StepShape | log_parser/unlimited_parser.py:33-63 | each turn of the loop reports at most once; a turn that reports, reports the current hour as it stands and moves one hour on, and a turn that does not keeps the hour |
| HourlyWindow.RunAppend | log_parser/unlimited_parser.py:40-42 | running events one after the other is running them together: later events never alter a report already emitted |
| HourlyWindow.RunReportsConsecutive | log_parser/unlimited_parser.py:39-63 | the reports of a run are of consecutive hours, one `HOUR` apart, starting with the hour the run started in; the run ends in the hour after the last reported one; each report names the two hosts asked about |
| HourlyWindow.ConsecutiveStarts | log_parser/unlimited_parser.py:43 | the `i`-th report of a run is of the hour starting `i` hours after the first |
| HourlyWindow.ConsecutiveIncrease | log_parser/unlimited_parser.py:61 | with a positive hour, consecutive hours strictly increase |
| HourlyWindow.ReportsIncrease | log_parser/unlimited_parser.py:39-63 | the hours reported by any run strictly increase |
| HourlyWindow.WindowStartNeverDecreases | log_parser/unlimited_parser.py:39-63 | the current hour never moves back |
| HourlyWindow.FoldConsistent | log_parser/unlimited_parser.py:45-57 | folding keeps every listed host counted, and a nonempty list implies the end or origin host is counted |
| HourlyWindow.StepConsistent | log_parser/unlimited_parser.py:33-63 | a turn of the loop keeps both accumulators consistent, and what it reports is consistent |
| HourlyWindow.RunConsistent | log_parser/unlimited_parser.py:32-63 | every report of a run is consistent |
| UnlimitedParser.FoldRecord | log_parser/unlimited_parser.py:45-50 | the field-by-field update of an accumulator is the fold of the connection |
| UnlimitedParser.Unlimited | log_parser/unlimited_parser.py:13-64 | the loop emits exactly the reports of the run of its events from the initial state, and ends in the run's final state |
| UnlimitedParser.UnlimitedTestHours | tests/test_unlimited_parser.py:39-44 | started at 1565721477219 with an hour of 3600000, the first two reports are of the hours starting at 1565721477219 and 1565725077219, and both are about `Denija` and `Yurith` |

## Left out

- `log_parser/logger.py`: the reporter is not modelled. That covers log handlers, file rotation, directory creation and date formatting. A report is the tuple appended to an output sequence.
- The busiest host of a report: `Counter.most_common` breaks ties by insertion order inside a library. The model keeps the full count multiset instead.
- `log_parser/config.py`, `main.py` and `noxfile.py`: environment variables, argument parsing and build tooling. `main.py` passes `None` for an absent `--workers`, `--batch-size` or `--init_timestamp`; this is why those arguments are `Option<int>`.
- `log_parser.constants` is not part of this model. `TIMESTAMP_MARGIN` and `HOUR_TIMESTAMP` are parameters. For the lemmas that need it, `HOUR > 0` and `MARGIN >= 0`.
- `multiprocessing.Pool`: the batches run in chunk order. The number of workers is never consulted. A pool refusing fewer than one worker is not modelled. When several batches raise, a real pool reports whichever failure it collects first; the model reports the first failing chunk.
- File `open`/`readline` and the iterator protocol: logs are sequences of lines. The consumption of `process_batch`'s iterator is returned as a count.
- The `while True` loop, `sleep(10.1)` and `datetime.now()`: the loop runs over a finite sequence of events. The clock is an integer millisecond input: once when starting, and once per idle event.
- The idle check in float seconds: it compares `now` against `(init_timestamp + HOUR + MARGIN) / 1000`. The model compares milliseconds, so fractions of a millisecond in the clock are not modelled.
- `line.split()` and `int(timestamp_str)` in `unlimited`: records arrive parsed. The `ValueError` of a malformed line or of an unpacking mismatch is not modelled.
- Python `int()` leniency: a sign, surrounding whitespace, underscores or non-ASCII digits in the 13-character prefix are treated as the error case. In Python some of these would parse.
- UnlimitedTestHours: states only the hours and hosts of the first two reports, not their accumulators. The contents of the accumulators the test expects come from tests/data/example.txt, which is not part of this model.
- The test of `get_connected_hostnames` in both modes (tests/test_connected_hostnames.py:54-63) depends on the same data file. `ModesAgree` states the equivalence for any sorted log instead.
