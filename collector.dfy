/**
  The results collector of app/api.py: one cache slot, under the key
  "results", holds the list of submitted batches and never expires. A POST
  appends a batch, a GET returns the list, and the summary endpoint folds the
  list into per-name totals next to the batch count.
  Flask, JSON and the file-backed cache are not modelled: the slot is a field.
*/
module Collector {

  /** One submitted record: its `__name__` and its `total`. */
  datatype Record = Record(name: string, total: real)

  /** One POST body: the list of records a benchmark session sends. */
  type Batch = seq<Record>

  datatype Option<T> = None | Some(value: T)

  /** The key of the cache slot, which is also the summary's count key. */
  const ResultsKey: string := "results"

  /** `data = CACHE.get("results"); if not data: data = []`. */
  function Read(entry: Option<seq<Batch>>): (data: seq<Batch>)
    ensures data == [] <==> entry.None? || entry.value == []
    ensures entry.Some? ==> data == entry.value
  {
    match entry
    case None => []
    case Some(data) => data
  }

  /** The slot after a POST of `x`. */
  function Post(entry: Option<seq<Batch>>, x: Batch): (e: Option<seq<Batch>>)
    ensures Read(e) == Read(entry) + [x]
  {
    Some(Read(entry) + [x])
  }

  /** The slot after POSTs of `xs`, in order. */
  function PostAll(entry: Option<seq<Batch>>, xs: seq<Batch>): (e: Option<seq<Batch>>)
    ensures |Read(e)| == |Read(entry)| + |xs|
    ensures xs != [] ==> e.Some? && Read(e)[|Read(e)| - 1] == xs[|xs| - 1]
  {
    if xs == [] then entry else Post(PostAll(entry, xs[..|xs| - 1]), xs[|xs| - 1])
  }

  /** Every record of every batch, batch by batch, in order. */
  function Records(data: seq<Batch>): seq<Record> {
    if data == [] then [] else Records(data[..|data| - 1]) + data[|data| - 1]
  }

  /** The names occurring in some record of `rs`. */
  function NamesOf(rs: seq<Record>): set<string> {
    set r | r in rs :: r.name
  }

  /** The sum of `total` over the records of `rs` named `name`. */
  function TotalFor(rs: seq<Record>, name: string): real {
    if rs == [] then 0.0
    else
      var last := rs[|rs| - 1];
      TotalFor(rs[..|rs| - 1], name) + (if last.name == name then last.total else 0.0)
  }

  /** What the summary starts from for key `k`: the batch count under "results". */
  function Base(data: seq<Batch>, k: string): real {
    if k == ResultsKey then |data| as real else 0.0
  }

  /**
    The summary as a specification: the keys are "results" and every record
    name; each holds its starting value plus the totals of the records so named.
  */
  function Summary(data: seq<Batch>): (summary: map<string, real>)
    ensures ResultsKey in summary
    ensures forall r | r in Records(data) :: r.name in summary
    ensures forall k | k in summary && k != ResultsKey :: exists r | r in Records(data) :: r.name == k
  {
    var rs := Records(data);
    map k | k in {ResultsKey} + NamesOf(rs) :: Base(data, k) + TotalFor(rs, k)
  }

  lemma {:induction false} TotalForAbsent(rs: seq<Record>, name: string)
    requires name !in NamesOf(rs)
    ensures TotalFor(rs, name) == 0.0
  {
    if rs != [] {
      var init := rs[..|rs| - 1];
      assert NamesOf(init) <= NamesOf(rs) by {
        forall r | r in init ensures r in rs { }
      }
      TotalForAbsent(init, name);
    }
  }

  lemma NamesOfSnoc(rs: seq<Record>, r: Record)
    ensures NamesOf(rs + [r]) == NamesOf(rs) + {r.name}
  {
    assert forall q | q in rs + [r] :: q in rs || q == r;
    assert forall q | q in rs :: q in rs + [r];
    assert r in rs + [r];
  }

  lemma {:induction false} TotalForAppend(rs: seq<Record>, ss: seq<Record>, name: string)
    ensures TotalFor(rs + ss, name) == TotalFor(rs, name) + TotalFor(ss, name)
  {
    if ss == [] {
      assert rs + ss == rs;
    } else {
      var init := ss[..|ss| - 1];
      assert (rs + ss)[..|rs + ss| - 1] == rs + init;
      TotalForAppend(rs, init, name);
    }
  }

  lemma {:induction false} NamesOfAppend(rs: seq<Record>, ss: seq<Record>)
    ensures NamesOf(rs + ss) == NamesOf(rs) + NamesOf(ss)
  {
    assert forall q | q in rs + ss :: q in rs || q in ss;
    assert forall q | q in rs :: q in rs + ss;
    assert forall q | q in ss :: q in rs + ss;
  }

  /** Records(data + [x]) lists the old records followed by those of x. */
  lemma RecordsSnoc(data: seq<Batch>, x: Batch)
    ensures Records(data + [x]) == Records(data) + x
  {
    assert (data + [x])[..|data|] == data;
  }

  /** With no record named "results", the summary's "results" is the batch count. */
  lemma SummaryCountsBatches(data: seq<Batch>)
    requires ResultsKey !in NamesOf(Records(data))
    ensures ResultsKey in Summary(data)
    ensures Summary(data)[ResultsKey] == |data| as real
  {
    TotalForAbsent(Records(data), ResultsKey);
  }

  /** A record name other than "results" maps to the sum of its records' totals. */
  lemma SummaryOfName(data: seq<Batch>, name: string)
    requires name != ResultsKey
    ensures name in Summary(data) <==> name in NamesOf(Records(data))
    ensures name in Summary(data) ==> Summary(data)[name] == TotalFor(Records(data), name)
  {
  }

  /**
    Adding a batch to the list: "results" goes up by one, every name goes up
    by the totals of its records in the new batch, and the new batch's names
    join the keys.
  */
  lemma SummaryAfterPost(data: seq<Batch>, x: Batch)
    ensures Summary(data + [x]).Keys == Summary(data).Keys + NamesOf(x)
    ensures forall k | k in Summary(data + [x]) ::
              Summary(data + [x])[k]
              == (if k in Summary(data) then Summary(data)[k] else 0.0)
                 + (if k == ResultsKey then 1.0 else 0.0) + TotalFor(x, k)
  {
    var rs := Records(data);
    RecordsSnoc(data, x);
    NamesOfAppend(rs, x);
    forall k | k in Summary(data + [x])
      ensures Summary(data + [x])[k]
              == (if k in Summary(data) then Summary(data)[k] else 0.0)
                 + (if k == ResultsKey then 1.0 else 0.0) + TotalFor(x, k)
    {
      TotalForAppend(rs, x, k);
      if k !in Summary(data) {
        TotalForAbsent(rs, k);
      }
    }
  }

  /** Reading back after POSTs of `xs` gives what was there, then `xs` in order. */
  lemma {:induction false} ReadAfterPosts(entry: Option<seq<Batch>>, xs: seq<Batch>)
    ensures Read(PostAll(entry, xs)) == Read(entry) + xs
  {
    if xs == [] {
      assert Read(entry) + xs == Read(entry);
    } else {
      var init := xs[..|xs| - 1];
      ReadAfterPosts(entry, init);
      assert xs == init + [xs[|xs| - 1]];
    }
  }

  /**
    `n` POSTs on a fresh store: GET returns exactly the `n` batches, and when no
    record is named "results" the summary counts `n`.
  */
  lemma PostsOnFreshStore(xs: seq<Batch>)
    ensures Read(PostAll(None, xs)) == xs
    ensures ResultsKey !in NamesOf(Records(xs)) ==> Summary(Read(PostAll(None, xs)))[ResultsKey] == |xs| as real
  {
    ReadAfterPosts(None, xs);
    if ResultsKey !in NamesOf(Records(xs)) {
      SummaryCountsBatches(xs);
    }
  }

  /** Two batches each holding {"a", 5} summarise to {"results": 2, "a": 10}. */
  lemma TwoBatchesExample()
    ensures Summary([[Record("a", 5.0)], [Record("a", 5.0)]]) == map[ResultsKey := 2.0, "a" := 10.0]
  {
    var b := [Record("a", 5.0)];
    var data := [b, b];
    assert data[..1] == [b] && [b][..0] == [];
    assert Records([b]) == b;
    assert Records(data) == [Record("a", 5.0), Record("a", 5.0)];
    var rs := Records(data);
    assert rs[..1] == [Record("a", 5.0)] && rs[..1][..0] == [];
    assert NamesOf(rs) == {"a"} by {
      assert rs[0] in rs;
    }
    assert TotalFor(rs, "a") == 10.0;
    assert TotalFor(rs, ResultsKey) == 0.0;
    assert Summary(data).Keys == {ResultsKey, "a"};
  }

  /**
    A store holding one batch of one record: the summary counts one batch and
    maps the record's name to its total, except that a record named "results"
    collides with the count and has its total added to it.
  */
  lemma SingleRecordSummary(name: string, total: real)
    ensures name != ResultsKey ==> Summary([[Record(name, total)]]) == map[ResultsKey := 1.0, name := total]
    ensures name == ResultsKey ==> Summary([[Record(name, total)]]) == map[ResultsKey := 1.0 + total]
  {
    var r := Record(name, total);
    var data := [[r]];
    OneRecord(data, r);
    var m := Summary(data);
    assert m.Keys == {ResultsKey, name};
    assert m[ResultsKey] == 1.0 + TotalFor([r], ResultsKey);
    assert m[name] == Base(data, name) + total;
  }

  /** The records, names and totals of a store holding one batch of one record. */
  lemma OneRecord(data: seq<Batch>, r: Record)
    requires data == [[r]]
    ensures Records(data) == [r]
    ensures NamesOf([r]) == {r.name}
    ensures forall k :: TotalFor([r], k) == if k == r.name then r.total else 0.0
  {
    assert data[..0] == [];
    assert [r][..0] == [];
    assert [r][0] in [r];
  }

  /**
    `summary` holds what the summary walk has produced after the records `rs`:
    the keys seen so far, each with its starting value plus its totals so far.
  */
  ghost predicate Tallies(summary: map<string, real>, data: seq<Batch>, rs: seq<Record>) {
    && summary.Keys == {ResultsKey} + NamesOf(rs)
    && forall k | k in summary :: summary[k] == Base(data, k) + TotalFor(rs, k)
  }

  /** One step of the walk: add to a known name, or initialise a new one. */
  lemma TallyStep(summary: map<string, real>, data: seq<Batch>, rs: seq<Record>, r: Record)
    requires Tallies(summary, data, rs)
    ensures r.name in summary ==> Tallies(summary[r.name := summary[r.name] + r.total], data, rs + [r])
    ensures r.name !in summary ==> Tallies(summary[r.name := r.total], data, rs + [r])
  {
    assert (rs + [r])[..|rs|] == rs;
    NamesOfSnoc(rs, r);
    if r.name !in summary {
      TotalForAbsent(rs, r.name);
    }
  }

  /** The records up to batch `i + 1` are those up to batch `i`, then batch `i`'s. */
  lemma NextBatch(data: seq<Batch>, i: nat)
    requires i < |data|
    ensures Records(data[..i + 1]) == Records(data[..i]) + data[i]
  {
    assert data[..i + 1] == data[..i] + [data[i]];
    RecordsSnoc(data[..i], data[i]);
  }

  /**
    Walking one more record of a batch extends the records seen by that
    record; stated apart to keep the summary loop's proof small.
  */
  lemma NextRecord(done: seq<Record>, batch: Batch, j: nat)
    requires j < |batch|
    ensures done + batch[..j + 1] == (done + batch[..j]) + [batch[j]]
  {
    assert batch[..j + 1] == batch[..j] + [batch[j]];
  }

  /** A walk over all the records has produced exactly the summary. */
  lemma TalliesComplete(summary: map<string, real>, data: seq<Batch>)
    requires Tallies(summary, data, Records(data))
    ensures summary == Summary(data)
  {
  }

  /** The collector process: the cache slot under "results". */
  class Store {
    var entry: Option<seq<Batch>>

    /** A fresh cache: nothing stored under "results". */
    constructor ()
      ensures entry == None
    {
      entry := None;
    }

    /** The stored list as every endpoint reads it. */
    function Data(): seq<Batch>
      reads this
    {
      Read(entry)
    }

    /**
      `POST /api/results`: read the list (or []), append the body, and write
      the list back with no expiry.
    */
    method NewResults(newRes: Batch)
      modifies this
      ensures entry == Post(old(entry), newRes)
      ensures entry == Some(old(Data()) + [newRes])
      ensures |Data()| == |old(Data())| + 1
      ensures Data()[..|old(Data())|] == old(Data()) && Data()[|Data()| - 1] == newRes
    {
      var data := Read(entry);
      data := data + [newRes];
      entry := Some(data);
    }

    /** `GET /api/results`: the stored list, or [] when nothing is stored. */
    method GetResults() returns (data: seq<Batch>)
      ensures entry.None? ==> data == []
      ensures entry.Some? ==> data == entry.value
    {
      data := [];
      match entry
      case Some(d) => data := d;
      case None =>
    }

    /**
      `GET /api/results/total`: set "results" to the batch count, then walk
      every record of every batch; the first record with a name sets its
      entry (the KeyError branch), later ones add to it.
    */
    method GetSummaryResults() returns (summary: map<string, real>)
      ensures summary == Summary(Data())
    {
      var data := GetResults();
      summary := map[ResultsKey := |data| as real];
      assert Records(data[..0]) == [];
      var i := 0;
      while i < |data|
        invariant i <= |data|
        invariant Tallies(summary, data, Records(data[..i]))
      {
        var batch := data[i];
        ghost var done := Records(data[..i]);
        var j := 0;
        assert done + batch[..0] == done;
        while j < |batch|
          invariant j <= |batch|
          invariant Tallies(summary, data, done + batch[..j])
        {
          var r := batch[j];
          ghost var seen := done + batch[..j];
          NextRecord(done, batch, j);
          TallyStep(summary, data, seen, r);
          if r.name in summary {
            summary := summary[r.name := summary[r.name] + r.total];
          } else {
            summary := summary[r.name := r.total];
          }
          j := j + 1;
        }
        assert batch[..j] == batch;
        NextBatch(data, i);
        i := i + 1;
      }
      assert data[..i] == data;
      TalliesComplete(summary, data);
    }
  }
}
