/**
  The benchmark session of tests/test_fetch.py: the module-level `RESULTS`
  list, the timed sample loop of `TestFetch.fetch`, and the ranking and report
  that `TestFetch.tearDownClass` builds at the end of the session.
  Subprocesses, mounts, file copies and the wall clock are not modelled: the
  elapsed time of pass `i` is the parameter `elapsed(i)`.
*/
module Benchmark {
  import Sorting
  import opened Statistics

  /** The sort key of `RESULTS.sort(key=lambda x: x.total)`. */
  function TotalOf(r: Result): real { r.total }

  /** One printed summary line: `"%d%% -> %s" % (percentage, name)`. */
  datatype ReportLine = ReportLine(percent: real, name: string)

  /** The fastest result's total as a percentage of the total of entry `i`. */
  function Percentage(rs: seq<Result>, i: nat): (p: real)
    requires i < |rs| && rs[i].total != 0.0
    ensures i == 0 ==> p == 100.0
  {
    rs[0].total * 100.0 / rs[i].total
  }

  /**
    The pass loop of `fetch`: one elapsed time is appended per iteration, in
    iteration order.
  */
  method CollectSamples(iterations: nat, elapsed: nat -> real) returns (samples: seq<real>)
    ensures |samples| == iterations
    ensures forall i | 0 <= i < iterations :: samples[i] == elapsed(i)
  {
    samples := [];
    var i := 0;
    while i < iterations
      invariant i <= iterations
      invariant |samples| == i
      invariant forall k | 0 <= k < i :: samples[k] == elapsed(k)
    {
      samples := samples + [elapsed(i)];
      i := i + 1;
    }
  }

  /**
    The loop of `tearDownClass` over the ranked results: it prints a line per
    result and collects the result into `results_to_send`. A zero total makes
    the division raise ZeroDivisionError, which ends the loop there; then
    `completed` is false and nothing after that result was printed or collected.
  */
  method BuildReport(rs: seq<Result>) returns (lines: seq<ReportLine>, toSend: seq<Result>, completed: bool)
    ensures completed <==> forall i | 0 <= i < |rs| :: rs[i].total != 0.0
    ensures completed <==> |lines| == |rs|
    ensures |lines| <= |rs|
    ensures forall i | 0 <= i < |lines| ::
              rs[i].total != 0.0 && lines[i] == ReportLine(Percentage(rs, i), rs[i].name)
    ensures !completed ==> rs[|lines|].total == 0.0
    ensures toSend == rs[..|lines|]
  {
    lines, toSend := [], [];
    var i := 0;
    while i < |rs|
      invariant i <= |rs|
      invariant |lines| == i && toSend == rs[..i]
      invariant forall k | 0 <= k < i ::
                  rs[k].total != 0.0 && lines[k] == ReportLine(Percentage(rs, k), rs[k].name)
    {
      if rs[i].total == 0.0 {
        completed := false;
        return;
      }
      lines := lines + [ReportLine(rs[0].total * 100.0 / rs[i].total, rs[i].name)];
      toSend := toSend + [rs[i]];
      i := i + 1;
    }
    completed := true;
  }

  /**
    For results ranked by total with positive totals, the fastest reports
    exactly 100, no entry reports more, and the figures do not increase
    down the ranking.
  */
  lemma PercentagesBounded(rs: seq<Result>)
    requires Sorting.SortedBy(rs, TotalOf)
    requires forall i | 0 <= i < |rs| :: rs[i].total > 0.0
    ensures rs != [] ==> Percentage(rs, 0) == 100.0
    ensures forall i | 0 <= i < |rs| :: 0.0 < Percentage(rs, i) <= 100.0
    ensures forall i, j | 0 <= i < j < |rs| :: Percentage(rs, j) <= Percentage(rs, i)
  {
    forall i | 0 <= i < |rs|
      ensures 0.0 < Percentage(rs, i) <= 100.0
    {
      assert TotalOf(rs[0]) <= TotalOf(rs[i]);
      RatioBounds(rs[0].total * 100.0, rs[i].total, 100.0);
    }
    forall i, j | 0 <= i < j < |rs|
      ensures Percentage(rs, j) <= Percentage(rs, i)
    {
      assert TotalOf(rs[i]) <= TotalOf(rs[j]);
      RatioAntitone(rs[0].total * 100.0, rs[i].total, rs[j].total);
    }
  }

  lemma RatioBounds(a: real, d: real, bound: real)
    requires 0.0 < a && 0.0 < d && a <= d * bound
    ensures 0.0 < a / d <= bound
  {
  }

  lemma RatioAntitone(a: real, d: real, e: real)
    requires 0.0 < a && 0.0 < d <= e
    ensures a / e <= a / d
  {
  }

  /** The session: the module-level `RESULTS` list that the tests fill. */
  class Session {
    var results: seq<Result>

    constructor ()
      ensures results == []
    {
      results := [];
    }

    /**
      `fetch(test_name, rkt, gomaxprocs, iterations)`: time `iterations` passes,
      build the `Result` and append it to `RESULTS`. When the constructor
      raises, the test fails and `RESULTS` is left as it was.
    */
    method Fetch(testName: string, iterations: nat, elapsed: nat -> real)
      returns (samples: seq<real>, outcome: Outcome)
      modifies this
      ensures |samples| == iterations
      ensures forall i | 0 <= i < iterations :: samples[i] == elapsed(i)
      ensures outcome == NewResult(testName, samples)
      ensures outcome.Ok? <==> iterations >= 2
      ensures outcome.Ok? ==> results == old(results) + [outcome.value]
      ensures outcome.Err? ==> results == old(results)
    {
      samples := CollectSamples(iterations, elapsed);
      outcome := NewResult(testName, samples);
      if outcome.Ok? {
        results := results + [outcome.value];
      }
    }

    /**
      `RESULTS.sort(key=lambda x: x.total)`: a stable, in-place sort of the
      list by total; the list is a permutation of what it was.
    */
    method SortResults()
      modifies this
      ensures results == Sorting.SortBy(old(results), TotalOf)
      ensures Sorting.SortedBy(results, TotalOf)
      ensures multiset(results) == multiset(old(results))
      ensures forall v :: Sorting.WithKey(results, TotalOf, v) == Sorting.WithKey(old(results), TotalOf, v)
    {
      var sorted: seq<Result> := [];
      var i := 0;
      while i < |results|
        invariant i <= |results|
        invariant sorted == Sorting.SortBy(results[..i], TotalOf)
      {
        assert results[..i + 1][..i] == results[..i];
        sorted := Sorting.InsertBy(sorted, results[i], TotalOf);
        i := i + 1;
      }
      assert results[..i] == results;
      forall v
        ensures Sorting.WithKey(sorted, TotalOf, v) == Sorting.WithKey(results, TotalOf, v)
      {
        Sorting.SortByStable(results, TotalOf, v);
      }
      results := sorted;
    }

    /**
      `tearDownClass`, without the unmount, the printing and the POST: rank
      `RESULTS` by total, then build the summary lines and the list of records
      to send, one per ranked result and in ranked order.
    */
    method TearDownClass() returns (lines: seq<ReportLine>, toSend: seq<Result>, completed: bool)
      modifies this
      ensures results == Sorting.SortBy(old(results), TotalOf)
      ensures completed <==> forall i | 0 <= i < |results| :: results[i].total != 0.0
      ensures completed ==> |lines| == |results| && toSend == results
      ensures |lines| <= |results| && toSend == results[..|lines|]
      ensures forall i | 0 <= i < |lines| ::
                results[i].total != 0.0 && lines[i] == ReportLine(Percentage(results, i), results[i].name)
      ensures !completed ==> results[|lines|].total == 0.0
    {
      SortResults();
      lines, toSend, completed := BuildReport(results);
    }
  }
}
