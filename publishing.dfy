/**
  The step between the two halves: `tearDownClass` sends its list of
  `r.__dict__` records as one POST body, and the collector sums the `total`
  of each by its `__name__`. HTTP and JSON are not modelled.
*/
module Publishing {
  import Sorting
  import opened Statistics
  import Collector

  /** The two fields of `r.__dict__` that the collector reads. */
  function ToRecord(r: Result): Collector.Record {
    Collector.Record(r.name, r.total)
  }

  /** `results_to_send` as the collector receives it: one batch. */
  function ToBatch(rs: seq<Result>): (b: Collector.Batch)
    ensures |b| == |rs|
    ensures forall i | 0 <= i < |rs| :: b[i] == ToRecord(rs[i])
  {
    if rs == [] then [] else ToBatch(rs[..|rs| - 1]) + [ToRecord(rs[|rs| - 1])]
  }

  /** No two results of the session carry the same test name. */
  predicate DistinctNames(rs: seq<Result>) {
    forall i, j | 0 <= i < j < |rs| :: rs[i].name != rs[j].name
  }

  /** A name no result carries is not a name of the batch. */
  lemma {:induction false} NameAbsent(rs: seq<Result>, n: string)
    requires forall i | 0 <= i < |rs| :: rs[i].name != n
    ensures n !in Collector.NamesOf(ToBatch(rs))
  {
    if rs != [] {
      var init := rs[..|rs| - 1];
      NameAbsent(init, n);
      Collector.NamesOfSnoc(ToBatch(init), ToRecord(rs[|rs| - 1]));
    }
  }

  /** With distinct names, the batch's total for a result's name is that result's total. */
  lemma {:induction false} TotalForDistinct(rs: seq<Result>, i: nat)
    requires DistinctNames(rs) && i < |rs|
    ensures Collector.TotalFor(ToBatch(rs), rs[i].name) == rs[i].total
  {
    var init := rs[..|rs| - 1];
    var b := ToBatch(rs);
    assert b[..|b| - 1] == ToBatch(init);
    if i == |rs| - 1 {
      NameAbsent(init, rs[i].name);
      Collector.TotalForAbsent(ToBatch(init), rs[i].name);
    } else {
      assert DistinctNames(init);
      TotalForDistinct(init, i);
    }
  }

  /**
    One session published to a fresh collector: the summary counts one batch
    (when no test is named "results") and maps each test name to its total.
  */
  lemma PublishToFreshStore(rs: seq<Result>)
    requires DistinctNames(rs)
    requires forall i | 0 <= i < |rs| :: rs[i].name != Collector.ResultsKey
    ensures Collector.Read(Collector.Post(Collector.None, ToBatch(rs))) == [ToBatch(rs)]
    ensures Collector.Summary([ToBatch(rs)])[Collector.ResultsKey] == 1.0
    ensures forall i | 0 <= i < |rs| ::
              rs[i].name in Collector.Summary([ToBatch(rs)])
              && Collector.Summary([ToBatch(rs)])[rs[i].name] == rs[i].total
  {
    var b := ToBatch(rs);
    var one: seq<Collector.Batch> := [b];
    assert one[..0] == [];
    assert Collector.Records(one) == b;
    NameAbsent(rs, Collector.ResultsKey);
    Collector.SummaryCountsBatches([b]);
    forall i | 0 <= i < |rs|
      ensures rs[i].name in Collector.Summary([b]) && Collector.Summary([b])[rs[i].name] == rs[i].total
    {
      PublishedTotal(rs, i);
    }
  }

  /** In the summary of the one published batch, result `i`'s name maps to its total. */
  lemma PublishedTotal(rs: seq<Result>, i: nat)
    requires DistinctNames(rs) && i < |rs|
    requires rs[i].name != Collector.ResultsKey
    ensures rs[i].name in Collector.Summary([ToBatch(rs)])
    ensures Collector.Summary([ToBatch(rs)])[rs[i].name] == rs[i].total
  {
    var b := ToBatch(rs);
    var n := rs[i].name;
    assert b[i] in b;
    assert n in Collector.NamesOf(b);
    var one: seq<Collector.Batch> := [b];
    assert one[..0] == [];
    assert Collector.Records(one) == b;
    Collector.SummaryOfName([b], n);
    TotalForDistinct(rs, i);
  }

  /**
    A test named "baseline" timed at 1, 2 and 3 seconds gives total 6,
    average 2, median 2, minimum 1 and maximum 3.
  */
  lemma BaselineResult()
    ensures NewResult("baseline", [1.0, 2.0, 3.0])
            == Ok(Result("baseline", [1.0, 2.0, 3.0], 3.0, 1.0, 6.0, 2.0, 2.0))
  {
    BaselineStatistics();
  }

  lemma BaselineStatistics()
    ensures Sum([1.0, 2.0, 3.0]) == 6.0
    ensures Max([1.0, 2.0, 3.0]) == 3.0 && Min([1.0, 2.0, 3.0]) == 1.0
    ensures Median([1.0, 2.0, 3.0]) == 2.0
  {
    BaselineSum();
    BaselineExtremes();
    BaselineMedian();
  }

  lemma BaselineSum()
    ensures Sum([1.0, 2.0, 3.0]) == 6.0
  {
    assert [1.0, 2.0, 3.0][..2] == [1.0, 2.0];
    assert [1.0, 2.0][..1] == [1.0];
    assert [1.0][..0] == [];
  }

  lemma BaselineExtremes()
    ensures Max([1.0, 2.0, 3.0]) == 3.0 && Min([1.0, 2.0, 3.0]) == 1.0
  {
    assert [1.0, 2.0, 3.0][1..] == [2.0, 3.0];
    assert [2.0, 3.0][1..] == [3.0];
  }

  lemma BaselineMedian()
    ensures Median([1.0, 2.0, 3.0]) == 2.0
  {
    var s := [1.0, 2.0, 3.0];
    assert Sorting.SortedBy(s, Identity);
    Sorting.SortBySorted(s, Identity);
  }

  /** Published to a fresh collector, the baseline summarises to {"results": 1, "baseline": 6}. */
  lemma BaselinePublished()
    ensures Collector.Summary([ToBatch([NewResult("baseline", [1.0, 2.0, 3.0]).value])])
            == map[Collector.ResultsKey := 1.0, "baseline" := 6.0]
  {
    BaselineResult();
    var r := Result("baseline", [1.0, 2.0, 3.0], 3.0, 1.0, 6.0, 2.0, 2.0);
    assert ToBatch([r]) == [Collector.Record("baseline", 6.0)];
    Collector.SingleRecordSummary("baseline", 6.0);
  }
}
