/**
 * The hourly resume of log_parser/unlimited_parser.py as a state machine.
 *
 * The state of the `while True` loop of `unlimited` is the accumulator of the
 * current hour (`actual`), the accumulator of the hour after it (`next_hour`)
 * and the start of the current hour (`init_timestamp`). Every line read is a
 * record event and every empty read is an idle event that consults the clock;
 * a step may emit one call of `log_resume_last_hour`, here a `Report`.
 *
 * Timestamps are integers of milliseconds. `HOUR_TIMESTAMP` and
 * `TIMESTAMP_MARGIN` come from a constants module that is not part of this
 * model: they are the `hour` and `margin` of `Params`.
 */
module HourlyWindow {
  import opened Common

  /** One accumulator, the dict `{'connected_to': set(), 'connected_from': set(),
      'counter_connections': Counter()}`, with the Counter as a multiset. */
  datatype Window = Window(connectedTo: set<string>, connectedFrom: set<string>, connections: multiset<string>)

  /** `default`, the empty accumulator. */
  const EmptyWindow := Window({}, {}, multiset{})

  /** The two hosts the resume is about, `HOUR_TIMESTAMP` and `TIMESTAMP_MARGIN`. */
  datatype Params = Params(originHost: string, endHost: string, hour: int, margin: int)

  predicate ValidParams(p: Params) { p.hour > 0 && p.margin >= 0 }

  /** `(actual, next_hour, init_timestamp)` */
  datatype State = State(actual: Window, next: Window, windowStart: int)

  /** One call `log_resume_last_hour(init_timestamp, origin_host, end_host, actual)`. */
  datatype Report = Report(windowStart: int, originHost: string, endHost: string, window: Window)

  /** What one turn of the loop sees: a line `timestamp origin end`, or no line
      and the clock reading `now` in milliseconds. */
  datatype Event = Record(timestamp: int, origin: string, end: string) | Idle(now: int)

  /** The state after some steps and the reports they emitted, in order. */
  datatype Outcome = Outcome(state: State, reports: seq<Report>)

  /** Folding the connection `origin -> end` into an accumulator. */
  function Fold(w: Window, p: Params, origin: string, end: string): Window {
    Window(if end == p.endHost then w.connectedTo + {origin} else w.connectedTo,
           if origin == p.originHost then w.connectedFrom + {end} else w.connectedFrom,
           w.connections + multiset{origin} + multiset{end})
  }

  /** `init_timestamp or now`: a missing or zero start is replaced by the clock. */
  function InitialWindowStart(init: Option<int>, now: int): (ws: int)
    ensures init.None? || init.value == 0 ==> ws == now
    ensures init.Some? && init.value != 0 ==> ws == init.value
  {
    if init.None? || init.value == 0 then now else init.value
  }

  /** The state before the first line is read. */
  function Initial(init: Option<int>, now: int): State {
    State(EmptyWindow, EmptyWindow, InitialWindowStart(init, now))
  }

  /** The hour that started at `windowStart` is over at time `t`. */
  predicate Due(s: State, p: Params, t: int) {
    t >= s.windowStart + p.hour + p.margin
  }

  /** Report the current hour, then move to the next one. */
  function Rotate(s: State, p: Params): Outcome {
    Outcome(State(s.next, EmptyWindow, s.windowStart + p.hour),
            [Report(s.windowStart, p.originHost, p.endHost, s.actual)])
  }

  /** A line read: ignored when older than the current hour; otherwise the hour
      is reported first if the line is past its margin, and then the line goes
      to the next hour's accumulator or to the current one. */
  function OnRecord(s: State, p: Params, timestamp: int, origin: string, end: string): Outcome {
    if timestamp < s.windowStart then Outcome(s, [])
    else
      var r := if Due(s, p, timestamp) then Rotate(s, p) else Outcome(s, []);
      var t := r.state;
      if timestamp >= t.windowStart + p.hour then
        Outcome(State(t.actual, Fold(t.next, p, origin, end), t.windowStart), r.reports)
      else
        Outcome(State(Fold(t.actual, p, origin, end), t.next, t.windowStart), r.reports)
  }

  /** No line read: the hour is reported once the clock is past its margin. */
  function OnIdle(s: State, p: Params, now: int): Outcome {
    if Due(s, p, now) then Rotate(s, p) else Outcome(s, [])
  }

  function OnEvent(s: State, p: Params, e: Event): Outcome {
    match e
    case Record(timestamp, origin, end) => OnRecord(s, p, timestamp, origin, end)
    case Idle(now) => OnIdle(s, p, now)
  }

  /** The loop over a finite run of events. */
  function Run(s: State, p: Params, events: seq<Event>): Outcome
    decreases |events|
  {
    if events == [] then Outcome(s, [])
    else
      var o := Run(s, p, events[..|events| - 1]);
      var last := OnEvent(o.state, p, events[|events| - 1]);
      Outcome(last.state, o.reports + last.reports)
  }

  // ---------------------------------------------------------------------------
  // One step

  /** Folding `origin -> end`: `connected_from` gains `end` exactly when the
      origin is the origin host, `connected_to` gains `origin` exactly when the
      destination is the end host, the counts of `origin` and `end` each rise
      by one (by two when they are the same host) and no other count moves. */
  lemma FoldEffect(w: Window, p: Params, origin: string, end: string)
    ensures forall h :: h in Fold(w, p, origin, end).connectedFrom <==>
                        h in w.connectedFrom || (origin == p.originHost && h == end)
    ensures forall h :: h in Fold(w, p, origin, end).connectedTo <==>
                        h in w.connectedTo || (end == p.endHost && h == origin)
    ensures forall h :: Fold(w, p, origin, end).connections[h] ==
                        w.connections[h] + (if h == origin then 1 else 0) + (if h == end then 1 else 0)
    ensures |Fold(w, p, origin, end).connections| == |w.connections| + 2
  {
  }

  /** A line older than the current hour changes nothing and reports nothing. */
  lemma RecordBeforeWindow(s: State, p: Params, timestamp: int, origin: string, end: string)
    requires timestamp < s.windowStart
    ensures OnRecord(s, p, timestamp, origin, end) == Outcome(s, [])
  {
  }

  /** A line past the margin of the current hour reports that hour exactly once
      and moves one hour on, however far in the future the line is; the line
      then goes to the new hour or, when it is past that too, to the one after. */
  lemma RecordClosesWindow(s: State, p: Params, timestamp: int, origin: string, end: string)
    requires ValidParams(p) && Due(s, p, timestamp)
    ensures var o := OnRecord(s, p, timestamp, origin, end);
            && o.reports == [Report(s.windowStart, p.originHost, p.endHost, s.actual)]
            && o.state.windowStart == s.windowStart + p.hour
            && (timestamp >= s.windowStart + 2 * p.hour ==>
                  o.state.actual == s.next && o.state.next == Fold(EmptyWindow, p, origin, end))
            && (timestamp < s.windowStart + 2 * p.hour ==>
                  o.state.actual == Fold(s.next, p, origin, end) && o.state.next == EmptyWindow)
  {
  }

  /** A line within the current hour or its margin reports nothing, keeps the
      hour, and is folded into exactly one accumulator: the next hour's when it
      is stamped at or after the hour's end, the current one's otherwise. */
  lemma RecordInWindow(s: State, p: Params, timestamp: int, origin: string, end: string)
    requires s.windowStart <= timestamp && !Due(s, p, timestamp)
    ensures var o := OnRecord(s, p, timestamp, origin, end);
            && o.reports == []
            && o.state.windowStart == s.windowStart
            && (timestamp >= s.windowStart + p.hour ==>
                  o.state.actual == s.actual && o.state.next == Fold(s.next, p, origin, end))
            && (timestamp < s.windowStart + p.hour ==>
                  o.state.actual == Fold(s.actual, p, origin, end) && o.state.next == s.next)
  {
  }

  /** With no line to read, the hour is reported and rotated once the clock is
      past its margin, and nothing happens before. */
  lemma IdleStep(s: State, p: Params, now: int)
    ensures Due(s, p, now) ==> OnIdle(s, p, now) == Rotate(s, p)
    ensures !Due(s, p, now) ==> OnIdle(s, p, now) == Outcome(s, [])
  {
  }

  /** Every step reports at most once; a step that reports, reports the current
      hour as it stands and moves one hour on, and a step that does not keeps
      the hour. */
  lemma StepShape(s: State, p: Params, e: Event)
    ensures |OnEvent(s, p, e).reports| <= 1
    ensures OnEvent(s, p, e).reports == [] ==> OnEvent(s, p, e).state.windowStart == s.windowStart
    ensures OnEvent(s, p, e).reports != [] ==>
              && OnEvent(s, p, e).reports[0] == Report(s.windowStart, p.originHost, p.endHost, s.actual)
              && OnEvent(s, p, e).state.windowStart == s.windowStart + p.hour
  {
  }

  // ---------------------------------------------------------------------------
  // Runs

  /** Running two runs of events one after the other is running them together:
      what the later events do never touches a report already emitted. */
  lemma {:induction false} RunAppend(s: State, p: Params, a: seq<Event>, b: seq<Event>)
    ensures var first := Run(s, p, a);
            var second := Run(first.state, p, b);
            Run(s, p, a + b) == Outcome(second.state, first.reports + second.reports)
    decreases |b|
  {
    if b == [] {
      assert a + b == a;
    } else {
      var b' := b[..|b| - 1];
      RunAppend(s, p, a, b');
      assert (a + b)[..|a + b| - 1] == a + b';
      assert (a + b)[|a + b| - 1] == b[|b| - 1];
    }
  }

  /** Reports of consecutive hours, the first one of the hour starting at `ws`. */
  predicate Consecutive(rs: seq<Report>, ws: int, hour: int) {
    && (rs != [] ==> rs[0].windowStart == ws)
    && (forall i :: 0 < i < |rs| ==> rs[i].windowStart == rs[i - 1].windowStart + hour)
  }

  /** The hour a run is in after emitting `rs` from the hour starting at `ws`. */
  function HourAfter(rs: seq<Report>, ws: int, hour: int): int {
    if rs == [] then ws else rs[|rs| - 1].windowStart + hour
  }

  /** The reports of a run, in order, are of consecutive hours starting with
      the hour the run started in, and the run ends in the hour after the last
      one reported. Each report is about the two hosts asked about. */
  lemma {:induction false} RunReportsConsecutive(s: State, p: Params, events: seq<Event>)
    ensures var o := Run(s, p, events);
            && Consecutive(o.reports, s.windowStart, p.hour)
            && o.state.windowStart == HourAfter(o.reports, s.windowStart, p.hour)
            && (forall i :: 0 <= i < |o.reports| ==>
                  o.reports[i].originHost == p.originHost && o.reports[i].endHost == p.endHost)
    decreases |events|
  {
    if events != [] {
      var o := Run(s, p, events[..|events| - 1]);
      RunReportsConsecutive(s, p, events[..|events| - 1]);
      StepShape(o.state, p, events[|events| - 1]);
    }
  }

  /** In a run of consecutive hours the `i`-th report is of the hour starting
      `i` hours after the first. */
  lemma {:induction false} ConsecutiveStarts(rs: seq<Report>, ws: int, hour: int, i: nat)
    requires Consecutive(rs, ws, hour) && i < |rs|
    ensures rs[i].windowStart == ws + i * hour
  {
    if i > 0 {
      ConsecutiveStarts(rs, ws, hour, i - 1);
    }
  }

  /** With a positive hour, the hours reported strictly increase. */
  lemma {:induction false} ConsecutiveIncrease(rs: seq<Report>, ws: int, hour: int, i: nat, j: nat)
    requires Consecutive(rs, ws, hour) && hour > 0 && i < j < |rs|
    ensures rs[i].windowStart < rs[j].windowStart
    decreases j
  {
    if i < j - 1 {
      ConsecutiveIncrease(rs, ws, hour, i, j - 1);
    }
  }

  /** Hence in any run the hours reported strictly increase, and the current
      hour never moves back. */
  lemma {:induction false} ReportsIncrease(s: State, p: Params, events: seq<Event>, i: nat, j: nat)
    requires ValidParams(p) && i < j < |Run(s, p, events).reports|
    ensures Run(s, p, events).reports[i].windowStart < Run(s, p, events).reports[j].windowStart
  {
    RunReportsConsecutive(s, p, events);
    ConsecutiveIncrease(Run(s, p, events).reports, s.windowStart, p.hour, i, j);
  }

  /** The current hour never moves back. */
  lemma {:induction false} WindowStartNeverDecreases(s: State, p: Params, events: seq<Event>)
    requires ValidParams(p)
    ensures Run(s, p, events).state.windowStart >= s.windowStart
  {
    var o := Run(s, p, events);
    RunReportsConsecutive(s, p, events);
    if o.reports != [] {
      ConsecutiveStarts(o.reports, s.windowStart, p.hour, |o.reports| - 1);
      assert (|o.reports| - 1) * p.hour >= 0;
    }
  }

  // ---------------------------------------------------------------------------
  // What an accumulator can hold

  /** Every host an accumulator lists is also counted, and a nonempty list
      means the end host or the origin host was counted too. */
  predicate Consistent(w: Window, p: Params) {
    && (forall h :: h in w.connectedTo ==> h in w.connections)
    && (forall h :: h in w.connectedFrom ==> h in w.connections)
    && (w.connectedTo != {} ==> p.endHost in w.connections)
    && (w.connectedFrom != {} ==> p.originHost in w.connections)
  }

  predicate StateConsistent(s: State, p: Params) {
    Consistent(s.actual, p) && Consistent(s.next, p)
  }

  lemma FoldConsistent(w: Window, p: Params, origin: string, end: string)
    requires Consistent(w, p)
    ensures Consistent(Fold(w, p, origin, end), p)
  {
  }

  lemma StepConsistent(s: State, p: Params, e: Event)
    requires StateConsistent(s, p)
    ensures StateConsistent(OnEvent(s, p, e).state, p)
    ensures forall r :: r in OnEvent(s, p, e).reports ==> Consistent(r.window, p)
  {
    match e
    case Record(timestamp, origin, end) =>
      FoldConsistent(s.actual, p, origin, end);
      FoldConsistent(s.next, p, origin, end);
      FoldConsistent(EmptyWindow, p, origin, end);
    case Idle(_) =>
  }

  /** Every report a run emits from the initial state is consistent. */
  lemma {:induction false} RunConsistent(s: State, p: Params, events: seq<Event>)
    requires StateConsistent(s, p)
    ensures StateConsistent(Run(s, p, events).state, p)
    ensures forall r :: r in Run(s, p, events).reports ==> Consistent(r.window, p)
    decreases |events|
  {
    if events != [] {
      var o := Run(s, p, events[..|events| - 1]);
      RunConsistent(s, p, events[..|events| - 1]);
      StepConsistent(o.state, p, events[|events| - 1]);
    }
  }

  lemma InitialConsistent(init: Option<int>, now: int, p: Params)
    ensures StateConsistent(Initial(init, now), p)
  {
  }
}
