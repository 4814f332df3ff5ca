/** What `LoadGeneratorBuilder.doRun` computes from the listeners once the load
    generator has stopped: the per-path summary map filled from the per-path
    recorders, and the detailed entries regrouped by path with their response
    times converted from nanoseconds to milliseconds. */
module Aggregation {
  import opened Wrappers
  import opened JavaInt
  import opened JavaExceptions

  /** An HdrHistogram interval histogram, as `Recorder.getIntervalHistogram`
      returns it; its contents are not modelled. */
  datatype Histogram = Histogram(handle: nat)

  /** The load generator's `CollectorInformations` built from one histogram. */
  datatype CollectorInformations = CollectorInformations(histogram: Histogram)

  /** One entry of the detailed response-time report: the request path, its time
      stamp and its response time in nanoseconds. */
  datatype DetailedEntry = DetailedEntry(path: string, timeStamp: int64, time: int64)

  /** The plugin's `ResponseTimeInfo`: a time stamp and a response time in
      milliseconds. */
  datatype ResponseTimeInfo = ResponseTimeInfo(timeStamp: int64, responseTime: int64)

  function ToInfo(entry: DetailedEntry): ResponseTimeInfo {
    ResponseTimeInfo(entry.timeStamp, NanosToMillis(entry.time))
  }

  /** The paths that occur in the entries. */
  function PathsOf(entries: seq<DetailedEntry>): set<string> {
    set e | e in entries :: e.path
  }

  /** The converted entries of one path, in the order of the report. */
  function InfosFor(entries: seq<DetailedEntry>, path: string): seq<ResponseTimeInfo> {
    if entries == [] then []
    else
      var last := entries[|entries| - 1];
      InfosFor(entries[..|entries| - 1], path) + (if last.path == path then [ToInfo(last)] else [])
  }

  /** The specification of the regrouping: one list per path that occurs. */
  function Grouped(entries: seq<DetailedEntry>): map<string, seq<ResponseTimeInfo>> {
    map p | p in PathsOf(entries) :: InfosFor(entries, p)
  }

  /** The number of elements over all the lists of a map. */
  ghost function TotalSize(m: map<string, seq<ResponseTimeInfo>>): nat
    decreases |m|
  {
    if m == map[] then 0
    else
      var p :| p in m;
      assert (m - {p}).Keys == m.Keys - {p};
      |m[p]| + TotalSize(m - {p})
  }

  /** `TotalSize` may take the lists in any order. */
  lemma {:induction false} TotalSizeRemove(m: map<string, seq<ResponseTimeInfo>>, p: string)
    requires p in m
    ensures TotalSize(m) == |m[p]| + TotalSize(m - {p})
    decreases |m|
  {
    var q :| q in m && TotalSize(m) == |m[q]| + TotalSize(m - {q});
    if q != p {
      assert (m - {q}).Keys == m.Keys - {q};
      assert (m - {p}).Keys == m.Keys - {p};
      TotalSizeRemove(m - {q}, p);
      TotalSizeRemove(m - {p}, q);
      assert m - {q} - {p} == m - {p} - {q};
    }
  }

  /** Appending one element to one list of a map adds one to its total size. */
  lemma TotalSizeAppend(m: map<string, seq<ResponseTimeInfo>>, p: string, x: ResponseTimeInfo)
    ensures var old_list := if p in m then m[p] else [];
            TotalSize(m[p := old_list + [x]]) == TotalSize(m) + 1
  {
    var old_list := if p in m then m[p] else [];
    var m' := m[p := old_list + [x]];
    TotalSizeRemove(m', p);
    assert m' - {p} == m - {p};
    if p in m {
      TotalSizeRemove(m, p);
    } else {
      assert m - {p} == m;
    }
  }

  lemma {:induction false} InfosForAbsent(entries: seq<DetailedEntry>, path: string)
    requires path !in PathsOf(entries)
    ensures InfosFor(entries, path) == []
  {
    if entries != [] {
      var init := entries[..|entries| - 1];
      assert PathsOf(init) <= PathsOf(entries) by {
        forall e | e in init ensures e in entries { }
      }
      InfosForAbsent(init, path);
    }
  }

  lemma {:induction false} InfosForPresent(entries: seq<DetailedEntry>, path: string)
    requires path in PathsOf(entries)
    ensures InfosFor(entries, path) != []
  {
    var init := entries[..|entries| - 1];
    var last := entries[|entries| - 1];
    if last.path != path {
      var e :| e in entries && e.path == path;
      assert e in init by {
        var k :| 0 <= k < |entries| && entries[k] == e;
        assert k < |entries| - 1;
        assert init[k] == e;
      }
      InfosForPresent(init, path);
    }
  }

  /** Adding one entry at the end of the report appends its converted value to
      the list of its own path and to no other list. */
  lemma GroupedSnoc(entries: seq<DetailedEntry>, entry: DetailedEntry)
    ensures var g := Grouped(entries);
            Grouped(entries + [entry]) ==
              g[entry.path := (if entry.path in g then g[entry.path] else []) + [ToInfo(entry)]]
  {
    var g := Grouped(entries);
    var all := entries + [entry];
    assert all[..|all| - 1] == entries;
    assert PathsOf(all) == PathsOf(entries) + {entry.path} by {
      forall e | e in all ensures e in entries || e == entry {
        var k :| 0 <= k < |all| && all[k] == e;
        if k < |entries| { assert entries[k] == e; }
      }
    }
    if entry.path !in g {
      InfosForAbsent(entries, entry.path);
    }
    var expected := g[entry.path := (if entry.path in g then g[entry.path] else []) + [ToInfo(entry)]];
    assert Grouped(all).Keys == expected.Keys;
    forall p | p in expected ensures Grouped(all)[p] == expected[p] {
      assert InfosFor(all, p) == InfosFor(entries, p) + (if entry.path == p then [ToInfo(entry)] else []);
    }
  }

  /** The regrouping keeps every entry: the lists hold as many elements as the
      report has entries. */
  lemma {:induction false} GroupedTotal(entries: seq<DetailedEntry>)
    ensures TotalSize(Grouped(entries)) == |entries|
  {
    if entries == [] {
      assert Grouped(entries) == map[];
    } else {
      var init := entries[..|entries| - 1];
      var last := entries[|entries| - 1];
      assert entries == init + [last];
      GroupedTotal(init);
      GroupedSnoc(init, last);
      TotalSizeAppend(Grouped(init), last.path, ToInfo(last));
    }
  }

  /** No path ends up with an empty list. */
  lemma GroupedNonEmpty(entries: seq<DetailedEntry>)
    ensures forall p :: p in Grouped(entries) ==> Grouped(entries)[p] != []
  {
    forall p | p in Grouped(entries) ensures Grouped(entries)[p] != [] {
      InfosForPresent(entries, p);
    }
  }

  /** The list built from a prefix of the report is a prefix of the full list. */
  lemma {:induction false} InfosForPrefix(entries: seq<DetailedEntry>, j: nat, path: string)
    requires j <= |entries|
    ensures InfosFor(entries[..j], path) <= InfosFor(entries, path)
    decreases |entries|
  {
    if j < |entries| {
      var init := entries[..|entries| - 1];
      assert init[..j] == entries[..j];
      InfosForPrefix(init, j, path);
    } else {
      assert entries[..j] == entries;
    }
  }

  /** Every entry lands in its own path's list, after exactly the earlier entries
      of the same path. */
  lemma EntryLandsInItsList(entries: seq<DetailedEntry>, i: nat)
    requires i < |entries|
    ensures var p := entries[i].path;
            && p in Grouped(entries)
            && |InfosFor(entries[..i], p)| < |Grouped(entries)[p]|
            && Grouped(entries)[p][|InfosFor(entries[..i], p)|] == ToInfo(entries[i])
  {
    var p := entries[i].path;
    assert entries[i] in entries;
    var upto := entries[..i + 1];
    assert upto[..|upto| - 1] == entries[..i];
    assert InfosFor(upto, p) == InfosFor(entries[..i], p) + [ToInfo(entries[i])];
    InfosForPrefix(entries, i + 1, p);
  }

  /** The regrouping loop of `doRun`: for each detailed entry, fetch its path's
      list (creating and storing an empty one when absent) and append the entry
      with its time converted to milliseconds. */
  method GroupByPath(entries: seq<DetailedEntry>) returns (byPath: map<string, seq<ResponseTimeInfo>>)
    ensures byPath == Grouped(entries)
    ensures byPath.Keys == PathsOf(entries)
    ensures forall p :: p in byPath ==> byPath[p] != []
    ensures TotalSize(byPath) == |entries|
  {
    byPath := map[];
    var i := 0;
    while i < |entries|
      invariant 0 <= i <= |entries|
      invariant byPath == Grouped(entries[..i])
    {
      var entry := entries[i];
      var infos: seq<ResponseTimeInfo>;
      if entry.path in byPath {
        infos := byPath[entry.path];
      } else {
        infos := [];
        byPath := byPath[entry.path := infos];
      }
      byPath := byPath[entry.path := infos + [ResponseTimeInfo(entry.timeStamp, NanosToMillis(entry.time))]];
      GroupedSnoc(entries[..i], entry);
      assert entries[..i + 1] == entries[..i] + [entry];
      i := i + 1;
    }
    assert entries[..i] == entries;
    GroupedTotal(entries);
    GroupedNonEmpty(entries);
  }

  /** The per-path summary loop of `doRun`. It walks the recorder map in the
      unspecified order of a `HashMap`, stores a summary of each path's interval
      histogram, and reads that path's response counter for a debug message; the
      argument `number.get()` is evaluated even when debug logging is off, so a
      path without a counter throws `NullPointerException`. */
  method SummarizePerPath(recorderPerPath: map<string, Histogram>, responseNumberPerPath: map<string, int32>)
    returns (r: Result<map<string, CollectorInformations>, Throwable>)
    ensures r.Success? <==> recorderPerPath.Keys <= responseNumberPerPath.Keys
    ensures r.Success? ==> r.value.Keys == recorderPerPath.Keys
    ensures r.Success? ==> forall p :: p in r.value ==> r.value[p] == CollectorInformations(recorderPerPath[p])
    ensures r.Failure? ==> r.error == NullPointerException("responseNumberPerPath")
  {
    var perPath: map<string, CollectorInformations> := map[];
    var pending := recorderPerPath.Keys;
    while pending != {}
      invariant pending <= recorderPerPath.Keys
      invariant perPath.Keys == recorderPerPath.Keys - pending
      invariant forall p :: p in perPath ==> perPath[p] == CollectorInformations(recorderPerPath[p])
      invariant recorderPerPath.Keys - pending <= responseNumberPerPath.Keys
      decreases pending
    {
      var path :| path in pending;
      perPath := perPath[path := CollectorInformations(recorderPerPath[path])];
      if path !in responseNumberPerPath {
        return Failure(NullPointerException("responseNumberPerPath"));
      }
      pending := pending - {path};
    }
    return Success(perPath);
  }
}
