/**
 * The range scanner's coordinator (log_parser/connected_hostnames.py): the
 * multi-process mode, which runs `process_batch` over the `grouper` chunks of
 * the file and unions what they return, and `get_connected_hostnames`, which
 * fills in defaults and picks a mode.
 *
 * The process pool only decides where the batches run; the model runs them in
 * chunk order and combines their results as `starmap` and `set().union` do.
 */
module ConnectedHostnames {
  import opened Common
  import opened PyText
  import opened Grouping
  import opened BatchScan

  const DefaultWorkers := 8
  const DefaultBatchSize := 200000

  /** `set().union(*results)`, where each result may instead be the error its
      batch raised; the first failing batch in chunk order is the one reported. */
  function UnionAll(results: seq<Result<set<string>, ParseError>>): (r: Result<set<string>, ParseError>)
    ensures r.Ok? <==> forall i :: 0 <= i < |results| ==> results[i].Ok?
    ensures r.Ok? ==> forall h :: h in r.value <==> exists i :: 0 <= i < |results| && results[i].Ok? && h in results[i].value
    ensures r.Err? ==> exists i :: 0 <= i < |results| && results[i] == r && forall j :: 0 <= j < i ==> results[j].Ok?
    decreases |results|
  {
    if results == [] then Ok({})
    else if results[0].Err? then results[0]
    else
      match UnionAll(results[1..])
      case Err(e) => Err(e)
      case Ok(rest) => Ok(results[0].value + rest)
  }

  /** `process_batch` applied to every chunk, in order (the `starmap`). */
  function BatchResults(chunks: seq<seq<Option<string>>>, q: Query, margin: int): (rs: seq<Result<set<string>, ParseError>>)
    ensures |rs| == |chunks|
    ensures forall i :: 0 <= i < |chunks| ==> rs[i] == BatchResult(chunks[i], q, margin)
  {
    if chunks == [] then [] else [BatchResult(chunks[0], q, margin)] + BatchResults(chunks[1..], q, margin)
  }

  /** `_get_connected_hostnames_multithread`: the query runs with
      `host_len = len(hostname)` on every chunk of `batchSize` lines. */
  function MultiProcess(lines: seq<string>, start: int, end: int, hostname: string, batchSize: int, margin: int)
    : Result<set<string>, ParseError>
  {
    UnionAll(BatchResults(Grouper(lines, batchSize), Query(start, end, hostname, |hostname|), margin))
  }

  /** Which scan `get_connected_hostnames` runs, with its defaults filled in. */
  datatype Mode = SingleThread | MultiThread(workers: int, batchSize: int)

  /** `x or default` for an optional integer argument: `None` and `0` are falsy. */
  function OrDefault(x: Option<int>, default: int): int {
    if x.None? || x.value == 0 then default else x.value
  }

  /** The dispatch of `get_connected_hostnames`: a falsy `workers` becomes 8 and
      a falsy `batch_size` becomes 200000 before the multi-process scan is chosen. */
  function Dispatch(useMultithread: bool, workers: Option<int>, batchSize: Option<int>): (m: Mode)
    ensures m.MultiThread? <==> useMultithread
    ensures m.MultiThread? ==> m.workers == (if workers.None? || workers.value == 0 then DefaultWorkers else workers.value)
    ensures m.MultiThread? ==> m.batchSize == (if batchSize.None? || batchSize.value == 0 then DefaultBatchSize else batchSize.value)
    ensures m.MultiThread? ==> m.workers != 0 && m.batchSize != 0
  {
    if useMultithread then MultiThread(OrDefault(workers, DefaultWorkers), OrDefault(batchSize, DefaultBatchSize))
    else SingleThread
  }

  /** `get_connected_hostnames`: the set of hosts it hands to the reporter, or
      the error the scan raised. */
  method GetConnectedHostnames(lines: seq<string>, start: int, end: int, hostname: string,
                               useMultithread: bool, workers: Option<int>, batchSize: Option<int>, margin: int)
    returns (hostnames: Result<set<string>, ParseError>)
    ensures var mode := Dispatch(useMultithread, workers, batchSize);
            hostnames == match mode
                         case SingleThread => BatchResult(Wrap(lines), Query(start, end, hostname, |hostname|), margin)
                         case MultiThread(_, size) => MultiProcess(lines, start, end, hostname, size, margin)
    ensures SortedLog(lines) && (useMultithread ==> OrDefault(batchSize, DefaultBatchSize) >= 1) ==>
            hostnames == BatchResult(Wrap(lines), Query(start, end, hostname, |hostname|), margin)
  {
    var mode := Dispatch(useMultithread, workers, batchSize);
    if mode.MultiThread? {
      hostnames := MultiProcess(lines, start, end, hostname, mode.batchSize, margin);
      if SortedLog(lines) && mode.batchSize >= 1 {
        ModesAgree(lines, Query(start, end, hostname, |hostname|), mode.batchSize, margin);
      }
    } else {
      hostnames := ScanFile(lines, start, end, hostname, margin);
    }
  }

  // ---------------------------------------------------------------------------
  // Equivalence of the two modes

  /** A log whose every line has a readable timestamp, in non-decreasing order. */
  predicate SortedLog(lines: seq<string>) {
    && (forall i :: 0 <= i < |lines| ==> Timestamp(lines[i]).Some?)
    && (forall i, j :: 0 <= i <= j < |lines| ==> Timestamp(lines[i]).value <= Timestamp(lines[j]).value)
  }

  lemma SortedSlices(lines: seq<string>, n: nat)
    requires SortedLog(lines) && n <= |lines|
    ensures SortedLog(lines[..n]) && SortedLog(lines[n..])
  {
    assert forall i :: 0 <= i < |lines| - n ==> lines[n..][i] == lines[n + i];
  }

  /** Verdicts that add nothing leave the collected set as it was. */
  lemma {:induction false} TakenNoGain(vs: seq<Verdict>, a: nat, b: nat)
    requires a <= b <= |vs|
    requires forall j :: a <= j < b ==> !vs[j].Take?
    ensures Taken(vs, b) == Taken(vs, a)
    decreases b
  {
    if a < b {
      TakenNoGain(vs, a, b - 1);
    }
  }

  /** What two consecutive runs of verdicts add is the union of what each adds. */
  lemma {:induction false} TakenConcat(a: seq<Verdict>, b: seq<Verdict>, k: nat)
    requires k <= |b|
    ensures Taken(a + b, |a| + k) == Taken(a, |a|) + Taken(b, k)
    decreases k
  {
    if k == 0 {
      TakenPrefix(a + b, a, |a|);
    } else {
      TakenConcat(a, b, k - 1);
      assert (a + b)[|a| + k - 1] == b[k - 1];
    }
  }

  /** What a run of verdicts collects, split anywhere, is the union of what
      each part collects. */
  lemma {:induction false} TakenSplit(vs: seq<Verdict>, va: seq<Verdict>, vb: seq<Verdict>)
    requires vs == va + vb
    ensures Taken(vs, |vs|) == Taken(va, |va|) + Taken(vb, |vb|)
  {
    TakenConcat(va, vb, |vb|);
  }

  /** What a log contributes is what its first `n` lines contribute together
      with what the others contribute. */
  lemma {:induction false} WrappedTakenSplit(lines: seq<string>, n: nat, q: Query, margin: int)
    requires n <= |lines|
    ensures Taken(Verdicts(Wrap(lines), q, margin), |lines|) ==
            Taken(Verdicts(Wrap(lines[..n]), q, margin), |lines[..n]|) +
            Taken(Verdicts(Wrap(lines[n..]), q, margin), |lines[n..]|)
  {
    var a, b := Wrap(lines[..n]), Wrap(lines[n..]);
    WrapSplit(lines, n);
    VerdictsConcat(a, b, q, margin);
    TakenSplit(Verdicts(Wrap(lines), q, margin), Verdicts(a, q, margin), Verdicts(b, q, margin));
  }

  /** On a sorted log, followed by any number of pads, `process_batch` returns
      every contribution of the log: once a line is beyond `end + margin`, so
      is every later one. */
  lemma {:induction false} SortedScan(ys: seq<string>, k: nat, q: Query, margin: int)
    requires SortedLog(ys)
    ensures BatchResult(Wrap(ys) + Pads(k), q, margin) == Ok(Taken(Verdicts(Wrap(ys), q, margin), |ys|))
  {
    var batch := Wrap(ys) + Pads(k);
    var vs := Verdicts(batch, q, margin);
    VerdictsConcat(Wrap(ys), Pads(k), q, margin);
    var s := Stop(vs);
    if k > 0 {
      assert Halts(vs[|ys|]);
    }
    assert s <= |ys|;
    if s < |ys| {
      assert batch[s] == Some(ys[s]);
      assert vs[s].Beyond?;
      forall j | s <= j < |ys|
        ensures !vs[j].Take?
      {
        assert batch[j] == Some(ys[j]);
        assert Timestamp(ys[s]).value <= Timestamp(ys[j]).value;
      }
      TakenNoGain(vs, s, |ys|);
    }
    TakenPrefix(vs, Verdicts(Wrap(ys), q, margin), |ys|);
  }

  /** The first chunk's result joined to the rest. */
  lemma UnionAllCons(rs: seq<Result<set<string>, ParseError>>, first: set<string>, rest: set<string>)
    requires |rs| > 0 && rs[0] == Ok(first) && UnionAll(rs[1..]) == Ok(rest)
    ensures UnionAll(rs) == Ok(first + rest)
  {
  }

  /** A log that fits in one chunk: the pads at its end change nothing. */
  lemma {:induction false} ModesAgreeOneChunk(lines: seq<string>, q: Query, n: int, margin: int)
    requires SortedLog(lines) && 0 < |lines| <= n
    ensures UnionAll(BatchResults(Grouper(lines, n), q, margin)) == BatchResult(Wrap(lines), q, margin)
  {
    var rs := BatchResults(Grouper(lines, n), q, margin);
    var all := Taken(Verdicts(Wrap(lines), q, margin), |lines|);
    SortedScan(lines, 0, q, margin);
    assert Wrap(lines) + Pads(0) == Wrap(lines);
    SortedScan(lines, n - |lines|, q, margin);
    assert rs[0] == Ok(all);
    assert UnionAll(rs[1..]) == Ok({}) by {
      assert rs[1..] == [];
    }
    UnionAllCons(rs, all, {});
    assert all + {} == all;
  }

  /** On a sorted log `process_batch` returns every contribution of the log. */
  lemma {:induction false} SortedResult(ys: seq<string>, q: Query, margin: int)
    requires SortedLog(ys)
    ensures BatchResult(Wrap(ys), q, margin) == Ok(Taken(Verdicts(Wrap(ys), q, margin), |ys|))
  {
    SortedScan(ys, 0, q, margin);
    assert Wrap(ys) + Pads(0) == Wrap(ys);
  }

  /** The chunks of a log longer than one chunk: its first `n` lines, whole,
      then the chunks of the rest. */
  lemma {:induction false} ChunksOfLongLog(lines: seq<string>, q: Query, n: int, margin: int)
    requires SortedLog(lines) && 1 <= n < |lines|
    ensures var rs := BatchResults(Grouper(lines, n), q, margin);
            && |rs| > 0
            && rs[0] == Ok(Taken(Verdicts(Wrap(lines[..n]), q, margin), |lines[..n]|))
            && rs[1..] == BatchResults(Grouper(lines[n..], n), q, margin)
  {
    SortedSlices(lines, n);
    SortedResult(lines[..n], q, margin);
  }

  /** A log longer than one chunk: its first chunk, then the rest, given that
      the modes already agree on the rest. */
  lemma {:induction false} ModesAgreeStep(lines: seq<string>, q: Query, n: int, margin: int)
    requires SortedLog(lines) && 1 <= n < |lines|
    requires UnionAll(BatchResults(Grouper(lines[n..], n), q, margin)) == BatchResult(Wrap(lines[n..]), q, margin)
    ensures UnionAll(BatchResults(Grouper(lines, n), q, margin)) == BatchResult(Wrap(lines), q, margin)
  {
    var rs := BatchResults(Grouper(lines, n), q, margin);
    SortedSlices(lines, n);
    ChunksOfLongLog(lines, q, n, margin);
    SortedResult(lines, q, margin);
    SortedResult(lines[n..], q, margin);
    UnionAllCons(rs, Taken(Verdicts(Wrap(lines[..n]), q, margin), |lines[..n]|), Taken(Verdicts(Wrap(lines[n..]), q, margin), |lines[n..]|));
    WrappedTakenSplit(lines, n, q, margin);
  }

  /** On a sorted log the multi-process scan returns what the single-thread scan
      returns, whatever the batch size. */
  lemma {:induction false} ModesAgree(lines: seq<string>, q: Query, n: int, margin: int)
    requires SortedLog(lines) && n >= 1
    ensures UnionAll(BatchResults(Grouper(lines, n), q, margin)) == BatchResult(Wrap(lines), q, margin)
    decreases |lines|
  {
    if lines == [] {
      assert Taken(Verdicts(Wrap(lines), q, margin), 0) == {};
    } else if |lines| <= n {
      ModesAgreeOneChunk(lines, q, n, margin);
    } else {
      SortedSlices(lines, n);
      ModesAgree(lines[n..], q, n, margin);
      ModesAgreeStep(lines, q, n, margin);
    }
  }

  /** The multi-process mode's result does not depend on the batch size on a
      sorted log, and neither does it depend on the number of workers, which
      the model does not even consult. */
  lemma {:induction false} BatchSizeIrrelevant(lines: seq<string>, start: int, end: int, hostname: string, n1: int, n2: int, margin: int)
    requires SortedLog(lines) && n1 >= 1 && n2 >= 1
    ensures MultiProcess(lines, start, end, hostname, n1, margin) == MultiProcess(lines, start, end, hostname, n2, margin)
  {
    var q := Query(start, end, hostname, |hostname|);
    ModesAgree(lines, q, n1, margin);
    ModesAgree(lines, q, n2, margin);
  }

  /** A negative batch size makes `grouper` yield no chunk at all, so the
      multi-process scan reports no host. */
  lemma NegativeBatchSizeFindsNothing(lines: seq<string>, start: int, end: int, hostname: string, n: int, margin: int)
    requires n < 0
    ensures MultiProcess(lines, start, end, hostname, n, margin) == Ok({})
  {
  }
}
