/**
 * `unlimited` from log_parser/unlimited_parser.py: the loop that reads the log
 * as it grows and reports one hour at a time.
 *
 * The loop keeps `actual`, `next_hour` and `init_timestamp` in local variables
 * and updates them line by line. Here it runs over a finite sequence of events
 * (a line read, or an empty read with the clock's reading) and returns the
 * reports it emitted, with the state it ended in; every report is a copy of
 * an accumulator, so nothing done after it can change it.
 */
module UnlimitedParser {
  import opened Common
  import opened HourlyWindow

  /** Lines 45-50 (and 52-57): add the connection `origin -> end` to an
      accumulator, one field at a time. */
  method FoldRecord(acc: Window, p: Params, origin: string, end: string) returns (r: Window)
    ensures r == Fold(acc, p, origin, end)
  {
    r := acc;
    if origin == p.originHost {
      r := r.(connectedFrom := r.connectedFrom + {end});
    }
    if end == p.endHost {
      r := r.(connectedTo := r.connectedTo + {origin});
    }
    r := r.(connections := r.connections + multiset{origin});
    r := r.(connections := r.connections + multiset{end});
  }

  /** `unlimited(log_file, origin_host, end_host, init_timestamp)` over the
      events `events`, with `startNow` the clock when it starts. */
  method Unlimited(events: seq<Event>, originHost: string, endHost: string, initTimestamp: Option<int>,
                   startNow: int, hour: int, margin: int)
    returns (reports: seq<Report>, final: State)
    ensures Outcome(final, reports) ==
            Run(Initial(initTimestamp, startNow), Params(originHost, endHost, hour, margin), events)
  {
    var p := Params(originHost, endHost, hour, margin);
    ghost var s0 := Initial(initTimestamp, startNow);
    var init := if initTimestamp.None? || initTimestamp.value == 0 then startNow else initTimestamp.value;
    var actual := EmptyWindow;
    var nextHour := EmptyWindow;
    reports := [];
    var i := 0;
    while i < |events|
      invariant i <= |events|
      invariant Run(s0, p, events[..i]) == Outcome(State(actual, nextHour, init), reports)
    {
      assert events[..i + 1][..i] == events[..i];
      var e := events[i];
      if e.Record? {
        var timestamp, origin, end := e.timestamp, e.origin, e.end;
        if timestamp >= init {
          if timestamp >= init + hour + margin {
            reports := reports + [Report(init, originHost, endHost, actual)];
            actual := nextHour;
            nextHour := EmptyWindow;
            init := init + hour;
          }
          if timestamp >= init + hour {
            nextHour := FoldRecord(nextHour, p, origin, end);
          } else {
            actual := FoldRecord(actual, p, origin, end);
          }
        }
      } else {
        if e.now >= init + hour + margin {
          reports := reports + [Report(init, originHost, endHost, actual)];
          init := init + hour;
          actual := nextHour;
          nextHour := EmptyWindow;
        }
      }
      i := i + 1;
    }
    assert events[..|events|] == events;
    final := State(actual, nextHour, init);
  }

  /** tests/test_unlimited_parser.py:39-44 with an hour of 3600000 ms: started
      at 1565721477219, the first two reports, if the log yields two, are of
      the hours starting at 1565721477219 and at 1565725077219. */
  lemma {:induction false} UnlimitedTestHours(events: seq<Event>, startNow: int, margin: int)
    requires |Run(Initial(Some(1565721477219), startNow), Params("Denija", "Yurith", 3600000, margin), events).reports| >= 2
    ensures var rs := Run(Initial(Some(1565721477219), startNow), Params("Denija", "Yurith", 3600000, margin), events).reports;
            && rs[0].windowStart == 1565721477219 && rs[1].windowStart == 1565725077219
            && rs[0].originHost == "Denija" && rs[0].endHost == "Yurith"
            && rs[1].originHost == "Denija" && rs[1].endHost == "Yurith"
  {
    RunReportsConsecutive(Initial(Some(1565721477219), startNow), Params("Denija", "Yurith", 3600000, margin), events);
  }
}
