/**
 * The range scanner's per-line logic (log_parser/connected_hostnames.py):
 * `process_batch`, which walks one chunk of lines, and the single-thread scan,
 * which runs the same walk over the whole file.
 *
 * A line is read by fixed slicing: the first 13 characters are the timestamp,
 * the `hostLen` characters before the final one are the destination and what
 * lies between position 14 and the destination (less its separating space) is
 * the origin.
 */
module BatchScan {
  import opened Common
  import opened PyText
  import opened Grouping

  /** The question asked of a batch: origins that connected to `hostname`
      inside [start, end). `hostLen` is passed separately by the caller. */
  datatype Query = Query(start: int, end: int, hostname: string, hostLen: int)

  /** What `int(line[:13])` raises on a line whose prefix is not a number. */
  datatype ParseError = InvalidTimestamp(literal: string)

  function TimestampText(line: string): string { Slice(line, 0, 13) }

  /** `int(line[:13])`, or None where it raises. */
  function Timestamp(line: string): Option<int> {
    match ParseDecimal(TimestampText(line))
    case None => None
    case Some(v) => Some(v)
  }

  /** `line[-host_len - 1:-1]` */
  function Destination(line: string, hostLen: int): string { Slice(line, -hostLen - 1, -1) }

  /** `line[14:-host_len - 2]` */
  function Origin(line: string, hostLen: int): string { Slice(line, 14, -hostLen - 2) }

  /** How the loop body treats one element of a batch. */
  datatype Verdict =
    | Padding            // a `None` fill value: break
    | Malformed          // `int(...)` raises
    | Beyond             // timestamp > end + margin: break
    | Skip               // continue without adding
    | Take(host: string) // add the origin to the result

  /** The verdict of the loop body of `process_batch` on one element. */
  function Classify(x: Option<string>, q: Query, margin: int): Verdict {
    match x
    case None => Padding
    case Some(line) =>
      match Timestamp(line)
      case None => Malformed
      case Some(ts) =>
        if ts > q.end + margin then Beyond
        else if ts < q.start then Skip
        else if Destination(line, q.hostLen) != q.hostname then Skip
        else if ts < q.end then Take(Origin(line, q.hostLen))
        else Skip
  }

  /** The verdicts that end the walk over a batch. */
  predicate Halts(v: Verdict) { v.Padding? || v.Malformed? || v.Beyond? }

  /** The verdict on every element of a batch, in order. */
  function Verdicts(batch: seq<Option<string>>, q: Query, margin: int): (vs: seq<Verdict>)
    ensures |vs| == |batch|
    ensures forall i :: 0 <= i < |batch| ==> vs[i] == Classify(batch[i], q, margin)
  {
    seq(|batch|, i requires 0 <= i < |batch| => Classify(batch[i], q, margin))
  }

  /** The first position at or after `i` whose verdict ends the walk, or `|vs|`. */
  function StopFrom(vs: seq<Verdict>, i: nat): (k: nat)
    requires i <= |vs|
    ensures i <= k <= |vs|
    ensures k < |vs| ==> Halts(vs[k])
    ensures forall j :: i <= j < k ==> !Halts(vs[j])
    decreases |vs| - i
  {
    if i == |vs| || Halts(vs[i]) then i else StopFrom(vs, i + 1)
  }

  /** Where a walk with verdicts `vs` stops. */
  function Stop(vs: seq<Verdict>): (k: nat)
    ensures k <= |vs|
  {
    StopFrom(vs, 0)
  }

  function Gain(v: Verdict): set<string> {
    if v.Take? then {v.host} else {}
  }

  /** The hosts the first `k` verdicts add, whatever stops the walk. */
  function Taken(vs: seq<Verdict>, k: nat): set<string>
    requires k <= |vs|
  {
    if k == 0 then {} else Taken(vs, k - 1) + Gain(vs[k - 1])
  }

  /** Where `process_batch` stops on `batch`. */
  function BatchStop(batch: seq<Option<string>>, q: Query, margin: int): (k: nat)
    ensures k <= |batch|
  {
    Stop(Verdicts(batch, q, margin))
  }

  /** What `process_batch` returns (or raises) on `batch`. */
  function BatchResult(batch: seq<Option<string>>, q: Query, margin: int): Result<set<string>, ParseError> {
    var vs := Verdicts(batch, q, margin);
    var k := Stop(vs);
    if k < |batch| && batch[k].Some? && vs[k].Malformed? then
      Err(InvalidTimestamp(TimestampText(batch[k].value)))
    else
      Ok(Taken(vs, k))
  }

  /** How many elements `process_batch` draws from its iterator: up to and
      including the one that stops it. */
  function Consumed(batch: seq<Option<string>>, q: Query, margin: int): nat {
    var k := BatchStop(batch, q, margin);
    if k < |batch| then k + 1 else |batch|
  }

  /** `process_batch(batch_lines, int_timestamp, end_timestamp, hostname, host_len)`,
      also reporting how many elements it took from the iterator. */
  method ProcessBatch(batch: seq<Option<string>>, start: int, end: int, hostname: string, hostLen: int, margin: int)
    returns (hostnames: Result<set<string>, ParseError>, consumed: nat)
    ensures hostnames == BatchResult(batch, Query(start, end, hostname, hostLen), margin)
    ensures consumed == Consumed(batch, Query(start, end, hostname, hostLen), margin)
  {
    ghost var vs := Verdicts(batch, Query(start, end, hostname, hostLen), margin);
    var found: set<string> := {};
    var i := 0;
    while i < |batch|
      invariant i <= |batch|
      invariant StopFrom(vs, i) == Stop(vs)
      invariant found == Taken(vs, i)
    {
      var item := batch[i];
      if item.None? {
        break;
      }
      var line := item.value;
      var stamp := Timestamp(line);
      if stamp.None? {
        return Err(InvalidTimestamp(TimestampText(line))), i + 1;
      }
      var timestamp := stamp.value;
      if timestamp > end + margin {
        break;
      }
      i := i + 1;
      if timestamp < start {
        continue;
      }
      if Destination(line, hostLen) != hostname {
        continue;
      }
      if timestamp < end {
        found := found + {Origin(line, hostLen)};
      }
    }
    hostnames := Ok(found);
    consumed := if i < |batch| then i + 1 else i;
  }

  /** `_get_connected_hostnames_single_thread` over the lines of the file: the
      same walk without the `None` check, with `host_len = len(hostname)`.
      It returns what `process_batch` returns on the same lines. */
  method ScanFile(lines: seq<string>, start: int, end: int, hostname: string, margin: int)
    returns (hostnames: Result<set<string>, ParseError>)
    ensures hostnames == BatchResult(Wrap(lines), Query(start, end, hostname, |hostname|), margin)
  {
    ghost var vs := Verdicts(Wrap(lines), Query(start, end, hostname, |hostname|), margin);
    var found: set<string> := {};
    var hostLen := |hostname|;
    var i := 0;
    while i < |lines|
      invariant i <= |lines|
      invariant StopFrom(vs, i) == Stop(vs)
      invariant found == Taken(vs, i)
    {
      var line := lines[i];
      var stamp := Timestamp(line);
      if stamp.None? {
        return Err(InvalidTimestamp(TimestampText(line)));
      }
      var timestamp := stamp.value;
      if timestamp > end + margin {
        break;
      }
      i := i + 1;
      if timestamp < start {
        continue;
      }
      if Destination(line, hostLen) != hostname {
        continue;
      }
      if timestamp < end {
        found := found + {Origin(line, hostLen)};
      }
    }
    hostnames := Ok(found);
  }

  // ---------------------------------------------------------------------------
  // What the result means

  /** The source's condition for a line to contribute `host`: a readable
      timestamp in [start, end), the destination slice equal to the host, and
      `host` its origin slice. */
  predicate Contributes(x: Option<string>, q: Query, host: string) {
    && x.Some?
    && Timestamp(x.value).Some?
    && q.start <= Timestamp(x.value).value < q.end
    && Destination(x.value, q.hostLen) == q.hostname
    && Origin(x.value, q.hostLen) == host
  }

  /** Before the stop point a line is taken exactly when it contributes. */
  lemma TakeIffContributes(x: Option<string>, q: Query, margin: int, host: string)
    requires !Halts(Classify(x, q, margin))
    ensures Classify(x, q, margin) == Take(host) <==> Contributes(x, q, host)
  {
  }

  lemma {:induction false} TakenMembers(vs: seq<Verdict>, k: nat, host: string)
    requires k <= |vs|
    ensures host in Taken(vs, k) <==> exists j :: 0 <= j < k && vs[j] == Take(host)
  {
    if k > 0 {
      TakenMembers(vs, k - 1, host);
    }
  }

  /** Soundness and completeness of `process_batch`: when it returns, a host is
      in the result exactly when some line before the stop point contributes it. */
  lemma {:induction false} BatchResultMembers(batch: seq<Option<string>>, q: Query, margin: int, host: string)
    requires BatchResult(batch, q, margin).Ok?
    ensures host in BatchResult(batch, q, margin).value <==>
            exists j :: 0 <= j < BatchStop(batch, q, margin) && Contributes(batch[j], q, host)
  {
    var vs := Verdicts(batch, q, margin);
    var k := Stop(vs);
    TakenMembers(vs, k, host);
    forall j | 0 <= j < k
      ensures vs[j] == Take(host) <==> Contributes(batch[j], q, host)
    {
      TakeIffContributes(batch[j], q, margin, host);
    }
  }

  /** `process_batch` raises exactly when the element that stops it is a line
      whose 13-character prefix is not a number. */
  lemma {:induction false} BatchResultFails(batch: seq<Option<string>>, q: Query, margin: int)
    ensures BatchResult(batch, q, margin).Err? <==>
            (var k := BatchStop(batch, q, margin);
             k < |batch| && batch[k].Some? && Timestamp(batch[k].value).None?)
  {
  }

  // ---------------------------------------------------------------------------
  // Early exits

  /** The stop point is the first verdict that ends the walk. */
  lemma StopIsFirstHalt(vs: seq<Verdict>, k: nat)
    requires k <= |vs|
    requires k < |vs| ==> Halts(vs[k])
    requires forall j :: 0 <= j < k ==> !Halts(vs[j])
    ensures Stop(vs) == k
  {
  }

  /** What the first `k` verdicts add depends on those verdicts only. */
  lemma {:induction false} TakenPrefix(a: seq<Verdict>, b: seq<Verdict>, k: nat)
    requires k <= |a| && k <= |b|
    requires forall j :: 0 <= j < k ==> a[j] == b[j]
    ensures Taken(a, k) == Taken(b, k)
  {
    if k > 0 {
      TakenPrefix(a, b, k - 1);
    }
  }

  /** Each element's verdict is its own: the verdicts of two runs of elements
      are the verdicts of each. */
  lemma VerdictsConcat(a: seq<Option<string>>, b: seq<Option<string>>, q: Query, margin: int)
    ensures Verdicts(a + b, q, margin) == Verdicts(a, q, margin) + Verdicts(b, q, margin)
  {
  }

  /** An element that ends the walk without raising (a `None` pad or a line
      beyond `end + margin`) cuts off everything after it: the result is that of
      the lines before it, and nothing past it is drawn from the iterator. */
  lemma {:induction false} CutOff(pre: seq<Option<string>>, x: Option<string>, tail: seq<Option<string>>, q: Query, margin: int)
    requires Classify(x, q, margin).Padding? || Classify(x, q, margin).Beyond?
    ensures BatchResult(pre + [x] + tail, q, margin) == BatchResult(pre, q, margin)
    ensures Consumed(pre + [x] + tail, q, margin) <= |pre| + 1
  {
    var batch := pre + [x] + tail;
    var vs, us := Verdicts(batch, q, margin), Verdicts(pre, q, margin);
    var k := Stop(us);
    assert forall j :: 0 <= j < |pre| ==> batch[j] == pre[j];
    assert forall j :: 0 <= j < |pre| ==> vs[j] == us[j];
    if k < |pre| {
      StopIsFirstHalt(vs, k);
    } else {
      assert batch[|pre|] == x;
      StopIsFirstHalt(vs, |pre|);
    }
    TakenPrefix(vs, us, k);
  }

  /** `process_batch` stops at the first `None`: nothing after it is examined
      or contributes (tests/test_connected_hostnames.py:37-51). */
  lemma {:induction false} StopsAtPadding(pre: seq<Option<string>>, tail: seq<Option<string>>, q: Query, margin: int)
    ensures BatchResult(pre + [None] + tail, q, margin) == BatchResult(pre, q, margin)
    ensures Consumed(pre + [None] + tail, q, margin) <= |pre| + 1
  {
    CutOff(pre, None, tail, q, margin);
  }

  /** `process_batch` stops at the first line stamped later than `end + margin`:
      that line and all after it contribute nothing, and the iterator is left
      just past it (tests/test_connected_hostnames.py:21-34). */
  lemma {:induction false} StopsBeyondEnd(pre: seq<Option<string>>, line: string, tail: seq<Option<string>>, q: Query, margin: int)
    requires Timestamp(line).Some? && Timestamp(line).value > q.end + margin
    ensures BatchResult(pre + [Some(line)] + tail, q, margin) == BatchResult(pre, q, margin)
    ensures Consumed(pre + [Some(line)] + tail, q, margin) <= |pre| + 1
  {
    CutOff(pre, Some(line), tail, q, margin);
  }

  // ---------------------------------------------------------------------------
  // The line format

  /** A log line as the file holds it: `timestamp origin destination\n`. */
  function FormatLine(stamp: string, origin: string, destination: string): string {
    stamp + " " + origin + " " + destination + "\n"
  }

  /** The fixed slices read back the fields of a well-formed line whose
      timestamp has 13 digits: the destination slice is the last `hostLen`
      characters of the destination, and the origin slice is the origin when
      `hostLen` is the destination's length. */
  lemma {:induction false} FieldsOfFormattedLine(stamp: string, origin: string, destination: string, hostLen: int)
    requires |stamp| == 13 && AllDigits(stamp)
    ensures Timestamp(FormatLine(stamp, origin, destination)) == Some(DigitsValue(stamp))
    ensures 0 <= hostLen <= |destination| ==>
              Destination(FormatLine(stamp, origin, destination), hostLen) == destination[|destination| - hostLen..]
    ensures hostLen == |destination| ==> Origin(FormatLine(stamp, origin, destination), hostLen) == origin
  {
    var line := FormatLine(stamp, origin, destination);
    assert line[..13] == stamp;
    assert TimestampText(line) == stamp;
    if 0 <= hostLen <= |destination| {
      assert line[|line| - 1 - hostLen..|line| - 1] == destination[|destination| - hostLen..];
    }
    if hostLen == |destination| {
      assert line[14..14 + |origin|] == origin;
    }
  }

  /** A 13-character timestamp field that reads as `v`. */
  predicate StampReads(stamp: string, v: int) {
    |stamp| == 13 && AllDigits(stamp) && DigitsValue(stamp) == v
  }

  /** The destination test compares only the last `host_len` characters of the
      line before its newline, so a destination that merely ends with the host
      name passes it. Then the origin slice, cut `host_len + 2` characters
      from the end, keeps the separating space and loses as many characters
      as the destination is longer. */
  lemma {:induction false} SuffixDestinationMatches(stamp: string, v: int, q: Query, margin: int)
    requires StampReads(stamp, v) && q.hostname == "host-H" && q.hostLen == 6 && q.start <= v < q.end && 0 <= margin
    ensures Classify(Some(FormatLine(stamp, "host-B", "xhost-H")), q, margin) == Take("host-B ")
  {
    var line := FormatLine(stamp, "host-B", "xhost-H");
    FieldsOfFormattedLine(stamp, "host-B", "xhost-H", 6);
    assert "xhost-H"[1..] == "host-H";
    assert |line| == 29;
    assert line[14..21] == "host-B ";
  }

  /** The verdict on a well-formed line whose destination is `host_len` long. */
  lemma {:induction false} FormattedLineVerdict(stamp: string, v: int, origin: string, destination: string, q: Query, margin: int)
    requires StampReads(stamp, v) && q.hostLen == |destination|
    ensures Classify(Some(FormatLine(stamp, origin, destination)), q, margin) ==
            if v > q.end + margin then Beyond
            else if v < q.start || destination != q.hostname || v >= q.end then Skip
            else Take(origin)
  {
    FieldsOfFormattedLine(stamp, origin, destination, q.hostLen);
  }

  /** The five lines the two tests of `process_batch` share
      (tests/test_connected_hostnames.py:24-28 and 40-44), given their
      timestamp fields. */
  function SharedLines(s: seq<string>): seq<Option<string>>
    requires |s| >= 5
  {
    [ Some(FormatLine(s[0], "host-A", "host-H")),
      Some(FormatLine(s[1], "host-B", "host-H")),
      Some(FormatLine(s[2], "host-A", "host-H2")),
      Some(FormatLine(s[3], "host-D", "host-H")),
      Some(FormatLine(s[4], "host-C", "host-H")) ]
  }

  /** The seven lines of tests/test_connected_hostnames.py:24-30. */
  function EndTimeLines(s: seq<string>): seq<Option<string>>
    requires |s| == 7
  {
    SharedLines(s) + [Some(FormatLine(s[5], "host-E", "host-H")), Some(FormatLine(s[6], "host-E", "host-H"))]
  }

  /** The seven elements of tests/test_connected_hostnames.py:40-46, the last a pad. */
  function EndBatchLines(s: seq<string>): seq<Option<string>>
    requires |s| == 6
  {
    SharedLines(s) + [Some(FormatLine(s[5], "host-E", "host-H")), None]
  }

  /** The shared timestamps counted from `t`: t, t + 1, t + 2, t + 5 and t + 2. */
  predicate SharedStamps(s: seq<string>, t: int) {
    && |s| >= 5
    && StampReads(s[0], t) && StampReads(s[1], t + 1) && StampReads(s[2], t + 2)
    && StampReads(s[3], t + 5) && StampReads(s[4], t + 2)
  }

  /** The first test's last two timestamps: t + 300007 and t + 300005. */
  predicate EndTimeStamps(s: seq<string>, t: int) {
    |s| == 7 && SharedStamps(s, t) && StampReads(s[5], t + 300007) && StampReads(s[6], t + 300005)
  }

  /** The second test's last timestamp: t + 7. */
  predicate EndBatchStamps(s: seq<string>, t: int) {
    |s| == 6 && SharedStamps(s, t) && StampReads(s[5], t + 7)
  }

  /** The verdict on the line before the range. */
  lemma {:induction false} SharedVerdict0(s: seq<string>, t: int, margin: int)
    requires SharedStamps(s, t) && 2 <= margin
    ensures Classify(SharedLines(s)[0], Query(t + 1, t + 3, "host-H", 6), margin) == Skip
  {
    FormattedLineVerdict(s[0], t, "host-A", "host-H", Query(t + 1, t + 3, "host-H", 6), margin);
  }

  /** The verdict on the first match. */
  lemma {:induction false} SharedVerdict1(s: seq<string>, t: int, margin: int)
    requires SharedStamps(s, t) && 2 <= margin
    ensures Classify(SharedLines(s)[1], Query(t + 1, t + 3, "host-H", 6), margin) == Take("host-B")
  {
    FormattedLineVerdict(s[1], t + 1, "host-B", "host-H", Query(t + 1, t + 3, "host-H", 6), margin);
  }

  /** The verdict on the line to another host. */
  lemma {:induction false} SharedVerdict2(s: seq<string>, t: int, margin: int)
    requires SharedStamps(s, t) && 2 <= margin
    ensures Classify(SharedLines(s)[2], Query(t + 1, t + 3, "host-H", 6), margin) == Skip
  {
    // `host-H2` is one character longer than host_len: its slice is `ost-H2`
    FieldsOfFormattedLine(s[2], "host-A", "host-H2", 6);
    assert "host-H2"[1..] != "host-H" by {
      assert "host-H2"[1..][0] == 'o';
    }
  }

  /** The verdict on the line after the range, within the margin. */
  lemma {:induction false} SharedVerdict3(s: seq<string>, t: int, margin: int)
    requires SharedStamps(s, t) && 2 <= margin
    ensures Classify(SharedLines(s)[3], Query(t + 1, t + 3, "host-H", 6), margin) == Skip
  {
    FormattedLineVerdict(s[3], t + 5, "host-D", "host-H", Query(t + 1, t + 3, "host-H", 6), margin);
  }

  /** The verdict on the second match, out of order. */
  lemma {:induction false} SharedVerdict4(s: seq<string>, t: int, margin: int)
    requires SharedStamps(s, t) && 2 <= margin
    ensures Classify(SharedLines(s)[4], Query(t + 1, t + 3, "host-H", 6), margin) == Take("host-C")
  {
    FormattedLineVerdict(s[4], t + 2, "host-C", "host-H", Query(t + 1, t + 3, "host-H", 6), margin);
  }

  /** All five shared verdicts. */
  lemma {:induction false} SharedVerdicts(s: seq<string>, t: int, margin: int)
    requires SharedStamps(s, t) && 2 <= margin
    ensures var q, xs := Query(t + 1, t + 3, "host-H", 6), SharedLines(s);
            && Classify(xs[0], q, margin) == Skip && Classify(xs[1], q, margin) == Take("host-B")
            && Classify(xs[2], q, margin) == Skip && Classify(xs[3], q, margin) == Skip
            && Classify(xs[4], q, margin) == Take("host-C")
  {
    SharedVerdict0(s, t, margin);
    SharedVerdict1(s, t, margin);
    SharedVerdict2(s, t, margin);
    SharedVerdict3(s, t, margin);
    SharedVerdict4(s, t, margin);
  }

  /** What the shared verdicts make of the first five elements of a batch. */
  lemma {:induction false} SharedTaken(vs: seq<Verdict>)
    requires |vs| >= 5
    requires vs[0] == Skip && vs[1] == Take("host-B") && vs[2] == Skip && vs[3] == Skip && vs[4] == Take("host-C")
    ensures Taken(vs, 5) == {"host-B", "host-C"}
  {
    assert Taken(vs, 1) == {};
    assert Taken(vs, 2) == {"host-B"};
    assert Taken(vs, 3) == {"host-B"};
    assert Taken(vs, 4) == {"host-B"};
  }

  /** The first test's verdicts make two hosts, with six lines drawn. */
  lemma {:induction false} EndTimeOutcome(batch: seq<Option<string>>, q: Query, margin: int)
    requires |batch| == 7
    requires Classify(batch[0], q, margin) == Skip
    requires Classify(batch[1], q, margin) == Take("host-B")
    requires Classify(batch[2], q, margin) == Skip
    requires Classify(batch[3], q, margin) == Skip
    requires Classify(batch[4], q, margin) == Take("host-C")
    requires Classify(batch[5], q, margin) == Beyond
    ensures BatchResult(batch, q, margin) == Ok({"host-B", "host-C"})
    ensures Consumed(batch, q, margin) == 6
  {
    var vs := Verdicts(batch, q, margin);
    StopIsFirstHalt(vs, 5);
    SharedTaken(vs);
  }

  /** The second test's verdicts make two hosts, with every element drawn. */
  lemma {:induction false} EndBatchOutcome(batch: seq<Option<string>>, q: Query, margin: int)
    requires |batch| == 7
    requires Classify(batch[0], q, margin) == Skip
    requires Classify(batch[1], q, margin) == Take("host-B")
    requires Classify(batch[2], q, margin) == Skip
    requires Classify(batch[3], q, margin) == Skip
    requires Classify(batch[4], q, margin) == Take("host-C")
    requires Classify(batch[5], q, margin) == Skip
    requires Classify(batch[6], q, margin) == Padding
    ensures BatchResult(batch, q, margin) == Ok({"host-B", "host-C"})
    ensures Consumed(batch, q, margin) == |batch|
  {
    var vs := Verdicts(batch, q, margin);
    StopIsFirstHalt(vs, 6);
    SharedTaken(vs);
    assert Taken(vs, 6) == Taken(vs, 5);
  }

  /** `process_batch` on the batch of tests/test_connected_hostnames.py:21-34
      (start t + 1, end t + 3, host `host-H`, host_len 6) returns {host-B, host-C}
      and consumes six lines, so the seventh is still there for `next`. */
  lemma {:induction false} ProcessBatchEndTime(s: seq<string>, t: int, margin: int)
    requires EndTimeStamps(s, t) && 2 <= margin < 300004
    ensures BatchResult(EndTimeLines(s), Query(t + 1, t + 3, "host-H", 6), margin) == Ok({"host-B", "host-C"})
    ensures Consumed(EndTimeLines(s), Query(t + 1, t + 3, "host-H", 6), margin) == 6
  {
    var q, xs := Query(t + 1, t + 3, "host-H", 6), EndTimeLines(s);
    SharedVerdicts(s, t, margin);
    assert forall i :: 0 <= i < 5 ==> xs[i] == SharedLines(s)[i];
    FormattedLineVerdict(s[5], t + 300007, "host-E", "host-H", q, margin);
    EndTimeOutcome(xs, q, margin);
  }

  /** `process_batch` on the batch of tests/test_connected_hostnames.py:37-51
      returns {host-B, host-C} and draws every element, the pad included, so the
      iterator is exhausted. The sixth line is within the margin only when the
      margin is at least 4. */
  lemma {:induction false} ProcessBatchEndBatch(s: seq<string>, t: int, margin: int)
    requires EndBatchStamps(s, t) && 4 <= margin
    ensures BatchResult(EndBatchLines(s), Query(t + 1, t + 3, "host-H", 6), margin) == Ok({"host-B", "host-C"})
    ensures Consumed(EndBatchLines(s), Query(t + 1, t + 3, "host-H", 6), margin) == |EndBatchLines(s)|
  {
    var q, xs := Query(t + 1, t + 3, "host-H", 6), EndBatchLines(s);
    SharedVerdicts(s, t, margin);
    assert forall i :: 0 <= i < 5 ==> xs[i] == SharedLines(s)[i];
    FormattedLineVerdict(s[5], t + 7, "host-E", "host-H", q, margin);
    EndBatchOutcome(xs, q, margin);
  }

  /** A zero-padded 13-digit field reads back as the number it was written from. */
  lemma {:induction false} StampOf(v: nat)
    requires v < 10000000000000
    ensures StampReads(DecimalText(v, 13), v)
  {
    assert Pow10(13) == 10000000000000;
    DecimalTextRoundTrip(v, 13);
  }

  /** The shared timestamp fields, zero-padded to 13 digits, counted from `t`;
      the tests have t = 1000000000000. */
  function SharedTestStamps(t: nat): seq<string> {
    [ DecimalText(t, 13), DecimalText(t + 1, 13), DecimalText(t + 2, 13),
      DecimalText(t + 5, 13), DecimalText(t + 2, 13) ]
  }

  lemma {:induction false} SharedTestStampsRead(t: nat, rest: seq<string>)
    requires t + 5 < 10000000000000
    ensures SharedStamps(SharedTestStamps(t) + rest, t)
  {
    var s := SharedTestStamps(t) + rest;
    assert forall i :: 0 <= i < 5 ==> s[i] == SharedTestStamps(t)[i];
    StampOf(t);
    StampOf(t + 1);
    StampOf(t + 2);
    StampOf(t + 5);
  }

  /** The first test itself. The outcome depends on the margin only through
      the fourth line being within it and the sixth beyond it. */
  lemma {:induction false} ProcessBatchEndTimeExample(margin: int)
    requires 2 <= margin < 300004
    ensures var s := SharedTestStamps(1000000000000) + [DecimalText(1000000300007, 13), DecimalText(1000000300005, 13)];
            && BatchResult(EndTimeLines(s), Query(1000000000001, 1000000000003, "host-H", 6), margin) == Ok({"host-B", "host-C"})
            && Consumed(EndTimeLines(s), Query(1000000000001, 1000000000003, "host-H", 6), margin) == 6
  {
    var rest := [DecimalText(1000000300007, 13), DecimalText(1000000300005, 13)];
    var s := SharedTestStamps(1000000000000) + rest;
    SharedTestStampsRead(1000000000000, rest);
    StampOf(1000000300007);
    StampOf(1000000300005);
    assert s[5] == rest[0] && s[6] == rest[1];
    ProcessBatchEndTime(s, 1000000000000, margin);
  }

  /** The second test itself, for a margin of at least 4. */
  lemma {:induction false} ProcessBatchEndBatchExample(margin: int)
    requires 4 <= margin
    ensures var s := SharedTestStamps(1000000000000) + [DecimalText(1000000000007, 13)];
            && BatchResult(EndBatchLines(s), Query(1000000000001, 1000000000003, "host-H", 6), margin) == Ok({"host-B", "host-C"})
            && Consumed(EndBatchLines(s), Query(1000000000001, 1000000000003, "host-H", 6), margin) == 7
  {
    var rest := [DecimalText(1000000000007, 13)];
    var s := SharedTestStamps(1000000000000) + rest;
    SharedTestStampsRead(1000000000000, rest);
    StampOf(1000000000007);
    assert s[5] == rest[0];
    ProcessBatchEndBatch(s, 1000000000000, margin);
  }
}
