/**
 * The metrics fetcher (client/collect.go): binding a query template to a
 * container through its label-selector identifier, the range window of a
 * container's lifetime, one fetch per catalog entry, and the merge of each
 * successful fetch into the nested result map.
 *
 * The metrics backend is a parameter: a function from the bound query and
 * its window to the response. Goroutines, the wait group and the mutex are
 * replaced by a sequential loop that dispatches the entries in the order
 * the source starts their goroutines.
 */
module Collect {
  import opened Wrappers
  import opened Strings
  import opened Series
  import Watcher
  import Seqs

  /** A catalog entry (tuple.T4 in the source): V1 name, V2 query, V3 labels, V4 identifier. */
  datatype QuerySpec = QuerySpec(name: string, query: string, labels: seq<string>, identifier: string)

  /** target -> data source -> entries. */
  type Catalog = map<string, map<string, seq<QuerySpec>>>

  // ---------------------------------------------------------------------
  // Label-selector binding
  // ---------------------------------------------------------------------

  /** The PromQL selector `query{ident="value"}`. */
  function Selector(query: string, ident: string, value: string): string {
    query + "{" + ident + "=\"" + value + "\"}"
  }

  const NameIdentifiers: set<string> := {"name", "container_names", "container_name"}

  predicate IsIdentifier(ident: string) {
    ident in NameIdentifiers || ident == "path" || ident == "work_dir" || ident == "groupname"
  }

  /**
   * BuildQueryByLabelSelector: the three name identifiers bind the
   * container name, `path` the container ID, `work_dir` the working
   * directory and `groupname` the decimal PID; any other identifier leaves
   * the query as it is.
   */
  function BuildQueryByLabelSelector(query: string, ident: string, c: Watcher.NextflowContainer): (r: string)
    ensures ident in NameIdentifiers ==> r == Selector(query, ident, c.name)
    ensures ident == "path" ==> r == Selector(query, ident, c.containerID)
    ensures ident == "work_dir" ==> r == Selector(query, ident, c.workDir)
    ensures ident == "groupname" ==> r == Selector(query, ident, IntToDecimal(c.pid))
    ensures !IsIdentifier(ident) ==> r == query
  {
    match ident
    case "name" => Selector(query, ident, c.name)
    case "path" => Selector(query, ident, c.containerID)
    case "work_dir" => Selector(query, ident, c.workDir)
    case "groupname" => Selector(query, ident, IntToDecimal(c.pid))
    case "container_names" => Selector(query, ident, c.name)
    case "container_name" => Selector(query, ident, c.name)
    case _ => query
  }

  /**
   * Binding changes the query exactly when the identifier is recognised,
   * and a bound query starts with the template and the identifier.
   */
  lemma BindingChangesQueryIffRecognised(query: string, ident: string, c: Watcher.NextflowContainer)
    ensures BuildQueryByLabelSelector(query, ident, c) != query <==> IsIdentifier(ident)
    ensures IsIdentifier(ident) ==> HasPrefix(BuildQueryByLabelSelector(query, ident, c), query + "{" + ident + "=\"")
  {
    var r := BuildQueryByLabelSelector(query, ident, c);
    if IsIdentifier(ident) {
      var v :| r == Selector(query, ident, v);
      assert |r| > |query|;
      assert r[..|query + "{" + ident + "=\""|] == query + "{" + ident + "=\"";
    }
  }

  // ---------------------------------------------------------------------
  // Range window
  // ---------------------------------------------------------------------

  const TrailingMarginMs: int := 5000   // 5 * time.Second
  const StepMs: int := 500              // 500 * time.Millisecond

  /** A range query's start, end and step, in milliseconds. */
  datatype Window = Window(start: int, end: int, step: int)

  /** The window of a container's lifetime: from its start to 5 s after its death, every 500 ms. */
  function RangeWindow(startTime: int, dieTime: int): (w: Window)
    ensures w.start == startTime && w.end == dieTime + TrailingMarginMs && w.step == StepMs
  {
    Window(startTime, dieTime + TrailingMarginMs, StepMs)
  }

  /**
   * The instants a range query evaluates at: `start`, `start + step`, ...
   * up to and including `end`, with the window's 500 ms step.
   */
  function SampleInstants(start: int, end: int): seq<int>
    decreases end - start
  {
    if start > end then [] else [start] + SampleInstants(start + StepMs, end)
  }

  /**
   * The sampling grid: `(end - start) / 500 + 1` instants, the k-th at
   * `start + 500 k`, all inside the window, the last one less than a step
   * before its end.
   */
  lemma {:induction false} SampleInstantsShape(start: int, end: int)
    ensures var xs := SampleInstants(start, end);
            |xs| == (if start <= end then (end - start) / StepMs + 1 else 0) &&
            (forall k :: 0 <= k < |xs| ==> xs[k] == start + k * StepMs && start <= xs[k] <= end) &&
            (start <= end ==> end - StepMs < xs[|xs| - 1])
    decreases end - start
  {
    if start <= end {
      var rest := SampleInstants(start + StepMs, end);
      SampleInstantsShape(start + StepMs, end);
      var xs := [start] + rest;
      assert SampleInstants(start, end) == xs;
      forall k | 0 < k < |xs| ensures xs[k] == start + k * StepMs {
        assert xs[k] == rest[k - 1];
      }
    }
  }

  /**
   * A container's query samples from its start time, every 500 ms, and its
   * last sample falls after the container died: the whole lifetime is
   * sampled, and `lifetime / 500 + 11` instants are asked for. A record
   * whose die time lies more than the margin before its start time asks
   * for none.
   */
  lemma WindowCoversLifetime(c: Watcher.NextflowContainer)
    requires c.startTime + c.lifeTime == c.dieTime
    ensures var w := RangeWindow(c.startTime, c.dieTime);
            var xs := SampleInstants(w.start, w.end);
            c.lifeTime >= 0 ==>
              |xs| == c.lifeTime / StepMs + 11 && xs[0] == c.startTime &&
              c.dieTime < xs[|xs| - 1] <= c.dieTime + TrailingMarginMs &&
              forall k :: 0 <= k < |xs| ==> c.startTime <= xs[k] <= c.dieTime + TrailingMarginMs
    ensures c.lifeTime < -TrailingMarginMs ==> SampleInstants(c.startTime, c.dieTime + TrailingMarginMs) == []
  {
    SampleInstantsShape(c.startTime, c.dieTime + TrailingMarginMs);
  }

  // ---------------------------------------------------------------------
  // One fetch
  // ---------------------------------------------------------------------

  /** What the backend answers to a range query. */
  datatype Response = QueryError(message: string) | NotMatrix | MatrixResult(matrix: Matrix)

  type Backend = (string, Window) -> Response

  /**
   * FetchMonitoringTargets: binds the query, queries the container's
   * window, and succeeds exactly when the answer is a matrix.
   */
  function FetchMonitoringTargets(backend: Backend, ident: string, query: string, c: Watcher.NextflowContainer): (r: Result<Matrix>)
    ensures var answer := backend(BuildQueryByLabelSelector(query, ident, c), RangeWindow(c.startTime, c.dieTime));
              (r.Success? <==> answer.MatrixResult?) && (r.Success? ==> r.value == answer.matrix)
  {
    var answer := backend(BuildQueryByLabelSelector(query, ident, c), RangeWindow(c.startTime, c.dieTime));
    match answer
    case QueryError(msg) => Failure("error querying Prometheus: " + msg)
    case NotMatrix => Failure("failed to cast Prometheus response to Matrix")
    case MatrixResult(m) => Success(m)
  }

  function OkValue(r: Result<Matrix>): Option<Matrix> {
    if r.Success? then Some(r.value) else None
  }

  /**
   * fetchQuery: fetch one entry and, on success, store it at
   * [target][dataSource][name], creating the missing intermediate maps. An
   * entry that is already there is kept (the first writer wins); a failed
   * fetch changes nothing; no other coordinate changes.
   */
  method FetchQuery(results: ResultMap, target: string, dataSource: string, ident: string, query: QuerySpec,
                    c: Watcher.NextflowContainer, backend: Backend) returns (r: ResultMap)
    ensures forall t, ds, n :: Lookup(r, t, ds, n) ==
              if t == target && ds == dataSource && n == query.name && Lookup(results, t, ds, n).None?
              then OkValue(FetchMonitoringTargets(backend, ident, query.query, c))
              else Lookup(results, t, ds, n)
    ensures FetchMonitoringTargets(backend, ident, query.query, c).Failure? ==> r == results
    ensures WellFormed(results) ==> WellFormed(r)
  {
    var fetcher := FetchMonitoringTargets(backend, ident, query.query, c);
    if fetcher.Failure? {
      return results;
    }
    ghost var sources := if target in results then results[target] else map[];
    ghost var names := if dataSource in sources then sources[dataSource] else map[];
    r := results;
    if target !in r {
      r := r[target := map[]];
    } else {
      Seqs.MapUpdateSame(r, target);
    }
    assert r == results[target := sources];
    if dataSource !in r[target] {
      Seqs.MapUpdateTwice(results, target, sources, sources[dataSource := map[]]);
      r := r[target := r[target][dataSource := map[]]];
    } else {
      Seqs.MapUpdateSame(sources, dataSource);
    }
    assert r == results[target := sources[dataSource := names]];
    if query.name !in r[target][dataSource] {
      Seqs.MapUpdateTwice(results, target, sources[dataSource := names], sources[dataSource := names[query.name := fetcher.value]]);
      Seqs.MapUpdateTwice(sources, dataSource, names, names[query.name := fetcher.value]);
      r := r[target := r[target][dataSource := r[target][dataSource][query.name := fetcher.value]]];
    } else {
      Seqs.MapUpdateSame(sources, dataSource);
      Seqs.MapUpdateSame(results, target);
    }
    assert r == Store(results, target, dataSource, query.name, fetcher.value);
    StoreLookup(results, target, dataSource, query.name, fetcher.value);
    if WellFormed(results) {
      StoreWellFormed(results, target, dataSource, query.name, fetcher.value);
    }
  }

  /** The map after storing `m` at a triple unless one is there already. */
  function Store(results: ResultMap, target: string, dataSource: string, name: string, m: Matrix): ResultMap {
    var sources := if target in results then results[target] else map[];
    var names := if dataSource in sources then sources[dataSource] else map[];
    if name in names then results else results[target := sources[dataSource := names[name := m]]]
  }

  lemma StoreLookup(results: ResultMap, target: string, dataSource: string, name: string, m: Matrix)
    ensures forall t, ds, n :: Lookup(Store(results, target, dataSource, name, m), t, ds, n) ==
              if t == target && ds == dataSource && n == name && Lookup(results, t, ds, n).None?
              then Some(m)
              else Lookup(results, t, ds, n)
  {
  }

  lemma StoreWellFormed(results: ResultMap, target: string, dataSource: string, name: string, m: Matrix)
    requires WellFormed(results)
    ensures WellFormed(Store(results, target, dataSource, name, m))
  {
  }

  // ---------------------------------------------------------------------
  // The batch
  // ---------------------------------------------------------------------

  function Fetch(q: QuerySpec, ident: string, c: Watcher.NextflowContainer, backend: Backend): Result<Matrix> {
    FetchMonitoringTargets(backend, ident, q.query, c)
  }

  /**
   * The result stored for name `n` after fetching `list` in order with
   * identifier `ident`: the first successful fetch of an entry named `n`.
   */
  function FirstOk(list: seq<QuerySpec>, ident: string, n: string, c: Watcher.NextflowContainer, backend: Backend): Option<Matrix> {
    if list == [] then None
    else
      var earlier := FirstOk(list[..|list| - 1], ident, n, c, backend);
      var last := list[|list| - 1];
      if earlier.Some? then earlier
      else if last.name == n then OkValue(Fetch(last, ident, c, backend))
      else None
  }

  /** Entry `i` of `list` is named `n` and fetches successfully. */
  predicate Hit(list: seq<QuerySpec>, i: int, ident: string, n: string, c: Watcher.NextflowContainer, backend: Backend)
    requires 0 <= i < |list|
  {
    list[i].name == n && Fetch(list[i], ident, c, backend).Success?
  }

  /** A name has a result exactly when some entry of that name fetched successfully. */
  lemma {:induction false} FirstOkExists(list: seq<QuerySpec>, ident: string, n: string, c: Watcher.NextflowContainer, backend: Backend)
    ensures FirstOk(list, ident, n, c, backend).Some? <==> exists i :: 0 <= i < |list| && Hit(list, i, ident, n, c, backend)
  {
    if list != [] {
      var p := list[..|list| - 1];
      FirstOkExists(p, ident, n, c, backend);
      if FirstOk(p, ident, n, c, backend).Some? {
        var i :| 0 <= i < |p| && Hit(p, i, ident, n, c, backend);
        assert Hit(list, i, ident, n, c, backend);
      } else {
        var k := |list| - 1;
        forall i | 0 <= i < k ensures Hit(list, i, ident, n, c, backend) == Hit(p, i, ident, n, c, backend) {
          assert list[i] == p[i];
        }
        assert FirstOk(list, ident, n, c, backend).Some? <==> Hit(list, k, ident, n, c, backend);
      }
    }
  }

  /**
   * First writer wins: the result stored for a name is that of the first
   * entry of that name that fetched successfully.
   */
  lemma {:induction false} FirstOkIsFirst(list: seq<QuerySpec>, ident: string, n: string, c: Watcher.NextflowContainer, backend: Backend)
    requires FirstOk(list, ident, n, c, backend).Some?
    ensures exists i :: 0 <= i < |list| && Hit(list, i, ident, n, c, backend) &&
              Fetch(list[i], ident, c, backend) == Success(FirstOk(list, ident, n, c, backend).value) &&
              forall j :: 0 <= j < i ==> !Hit(list, j, ident, n, c, backend)
  {
    var p := list[..|list| - 1];
    var m := FirstOk(list, ident, n, c, backend).value;
    if FirstOk(p, ident, n, c, backend).Some? {
      FirstOkIsFirst(p, ident, n, c, backend);
      var i :| 0 <= i < |p| && Hit(p, i, ident, n, c, backend) &&
        Fetch(p[i], ident, c, backend) == Success(m) &&
        forall j :: 0 <= j < i ==> !Hit(p, j, ident, n, c, backend);
      assert list[i] == p[i];
      forall j | 0 <= j < i ensures !Hit(list, j, ident, n, c, backend) {
        assert !Hit(p, j, ident, n, c, backend);
      }
      assert Hit(list, i, ident, n, c, backend);
    } else {
      FirstOkExists(p, ident, n, c, backend);
      var k := |list| - 1;
      forall j | 0 <= j < k ensures !Hit(list, j, ident, n, c, backend) {
        assert !Hit(p, j, ident, n, c, backend);
      }
      assert Hit(list, k, ident, n, c, backend);
    }
  }

  /** What a data source's list yields for name `n`: every entry uses the first entry's identifier. */
  function SourceLookup(list: seq<QuerySpec>, n: string, c: Watcher.NextflowContainer, backend: Backend): Option<Matrix> {
    if list == [] then None else FirstOk(list, list[0].identifier, n, c, backend)
  }

  /** What the whole batch yields at a triple. */
  function CatalogLookup(catalog: Catalog, t: string, ds: string, n: string, c: Watcher.NextflowContainer, backend: Backend): Option<Matrix> {
    if t in catalog && ds in catalog[t] then SourceLookup(catalog[t][ds], n, c, backend) else None
  }

  /** One dispatched fetch: the catalog coordinates of its entry. */
  datatype EntryRef = EntryRef(target: string, source: string, index: int)

  predicate IsEntry(catalog: Catalog, e: EntryRef) {
    e.target in catalog && e.source in catalog[e.target] && 0 <= e.index < |catalog[e.target][e.source]|
  }

  function CatalogEntries(catalog: Catalog): set<EntryRef> {
    set t, ds, i | t in catalog && ds in catalog[t] && 0 <= i < |catalog[t][ds]| :: EntryRef(t, ds, i)
  }

  /** The entries of one data source, fetched in list order. */
  method FetchSource(results: ResultMap, target: string, dataSource: string, queryList: seq<QuerySpec>,
                     c: Watcher.NextflowContainer, backend: Backend) returns (r: ResultMap, refs: seq<EntryRef>)
    ensures forall t, ds, n :: Lookup(r, t, ds, n) ==
              if t == target && ds == dataSource && Lookup(results, t, ds, n).None?
              then SourceLookup(queryList, n, c, backend)
              else Lookup(results, t, ds, n)
    ensures Distinct(refs)
    ensures forall e :: e in refs <==> e.target == target && e.source == dataSource && 0 <= e.index < |queryList|
    ensures WellFormed(results) ==> WellFormed(r)
  {
    r, refs := results, [];
    ghost var ident := if queryList == [] then "" else queryList[0].identifier;
    for i := 0 to |queryList|
      invariant MergedPrefix(r, results, target, dataSource, queryList[..i], ident, c, backend)
      invariant |refs| == i && forall k :: 0 <= k < i ==> refs[k] == EntryRef(target, dataSource, k)
      invariant WellFormed(results) ==> WellFormed(r)
    {
      var queryIdentifier := queryList[0].identifier;
      ghost var before := r;
      r := FetchQuery(r, target, dataSource, queryIdentifier, queryList[i], c, backend);
      SourceFetchStep(results, before, r, target, dataSource, queryList, i, ident, c, backend);
      refs := refs + [EntryRef(target, dataSource, i)];
    }
    assert queryList[..|queryList|] == queryList;
  }

  /** After fetching `done` in order: the triples of the data source that were empty hold the first success. */
  ghost predicate MergedPrefix(r: ResultMap, results: ResultMap, target: string, dataSource: string, done: seq<QuerySpec>,
                               ident: string, c: Watcher.NextflowContainer, backend: Backend)
  {
    forall t, ds, n :: Lookup(r, t, ds, n) ==
      if t == target && ds == dataSource && Lookup(results, t, ds, n).None?
      then FirstOk(done, ident, n, c, backend)
      else Lookup(results, t, ds, n)
  }

  lemma SourceFetchStep(results: ResultMap, before: ResultMap, after: ResultMap, target: string, dataSource: string,
                        list: seq<QuerySpec>, i: int, ident: string, c: Watcher.NextflowContainer, backend: Backend)
    requires 0 <= i < |list|
    requires MergedPrefix(before, results, target, dataSource, list[..i], ident, c, backend)
    requires forall t, ds, n :: Lookup(after, t, ds, n) ==
               if t == target && ds == dataSource && n == list[i].name && Lookup(before, t, ds, n).None?
               then OkValue(FetchMonitoringTargets(backend, ident, list[i].query, c))
               else Lookup(before, t, ds, n)
    ensures MergedPrefix(after, results, target, dataSource, list[..i + 1], ident, c, backend)
  {
    assert list[..i + 1][..i] == list[..i];
  }

  /**
   * The meta information after visiting the data sources in `done`: each
   * visited non-empty list sets its name to the labels of its first entry;
   * every other name keeps what it had.
   */
  ghost predicate MetaInfoAfter(after: map<string, seq<string>>, before: map<string, seq<string>>,
                                sources: map<string, seq<QuerySpec>>, done: set<string>)
  {
    (forall ds :: ds in after <==> ds in before || (ds in done && ds in sources && sources[ds] != [])) &&
    (forall ds :: ds in after ==>
       after[ds] == if ds in done && ds in sources && sources[ds] != [] then sources[ds][0].labels else before[ds])
  }

  lemma MetaInfoAfterStep(before: map<string, seq<string>>, sources: map<string, seq<QuerySpec>>, done: set<string>,
                          ds: string, current: map<string, seq<string>>, after: map<string, seq<string>>)
    requires ds in sources && ds !in done
    requires MetaInfoAfter(current, before, sources, done)
    requires after == if sources[ds] != [] then current[ds := sources[ds][0].labels] else current
    ensures MetaInfoAfter(after, before, sources, done + {ds})
  {
  }

  /**
   * After fetching the data sources in `done` of `target`, each triple
   * under them that was empty holds the source list's result; every other
   * triple is as it was.
   */
  ghost predicate MergedSources(r: ResultMap, results: ResultMap, target: string, sources: map<string, seq<QuerySpec>>,
                                done: set<string>, c: Watcher.NextflowContainer, backend: Backend)
  {
    forall t, ds, n :: Lookup(r, t, ds, n) ==
      (if t == target && ds in sources && ds in done && Lookup(results, t, ds, n).None?
       then SourceLookup(sources[ds], n, c, backend)
       else Lookup(results, t, ds, n))
  }

  /** `refs` lists each entry of the data sources in `done` of `target` once. */
  ghost predicate DispatchedSources(refs: seq<EntryRef>, target: string, sources: map<string, seq<QuerySpec>>, done: set<string>) {
    Distinct(refs) &&
    forall e :: e in refs <==> e.target == target && e.source in sources && e.source in done && 0 <= e.index < |sources[e.source]|
  }

  /** All data sources of one target, in an arbitrary order (Go map iteration). */
  method FetchTarget(results: ResultMap, metaInfo: map<string, seq<string>>, target: string,
                     sources: map<string, seq<QuerySpec>>, c: Watcher.NextflowContainer, backend: Backend)
    returns (r: ResultMap, metaInfo': map<string, seq<string>>, refs: seq<EntryRef>)
    ensures MergedSources(r, results, target, sources, sources.Keys, c, backend)
    ensures MetaInfoAfter(metaInfo', metaInfo, sources, sources.Keys)
    ensures DispatchedSources(refs, target, sources, sources.Keys)
    ensures WellFormed(results) ==> WellFormed(r)
  {
    r, metaInfo', refs := results, metaInfo, [];
    var remaining := sources.Keys;
    while remaining != {}
      invariant remaining <= sources.Keys
      invariant MergedSources(r, results, target, sources, sources.Keys - remaining, c, backend)
      invariant MetaInfoAfter(metaInfo', metaInfo, sources, sources.Keys - remaining)
      invariant DispatchedSources(refs, target, sources, sources.Keys - remaining)
      invariant WellFormed(results) ==> WellFormed(r)
      decreases remaining
    {
      var dataSource :| dataSource in remaining;
      var queryList := sources[dataSource];
      var current := metaInfo';
      if |queryList| > 0 {
        metaInfo' := metaInfo'[dataSource := queryList[0].labels];
      }
      MetaInfoAfterStep(metaInfo, sources, sources.Keys - remaining, dataSource, current, metaInfo');
      var before, sourceRefs := r, [];
      r, sourceRefs := FetchSource(r, target, dataSource, queryList, c, backend);
      TargetLookupStep(results, before, r, target, sources, sources.Keys - remaining, dataSource, c, backend);
      TargetRefsStep(refs, sourceRefs, target, sources, sources.Keys - remaining, dataSource);
      refs := refs + sourceRefs;
      remaining := remaining - {dataSource};
      assert sources.Keys - remaining == (sources.Keys - (remaining + {dataSource})) + {dataSource};
    }
  }

  lemma TargetLookupStep(results: ResultMap, before: ResultMap, after: ResultMap, target: string,
                         sources: map<string, seq<QuerySpec>>, done: set<string>, dataSource: string,
                         c: Watcher.NextflowContainer, backend: Backend)
    requires dataSource in sources && dataSource !in done
    requires MergedSources(before, results, target, sources, done, c, backend)
    requires forall t, ds, n :: Lookup(after, t, ds, n) ==
               (if t == target && ds == dataSource && Lookup(before, t, ds, n).None?
                then SourceLookup(sources[dataSource], n, c, backend)
                else Lookup(before, t, ds, n))
    ensures MergedSources(after, results, target, sources, done + {dataSource}, c, backend)
  {
  }

  lemma TargetRefsStep(refs: seq<EntryRef>, sourceRefs: seq<EntryRef>, target: string,
                       sources: map<string, seq<QuerySpec>>, done: set<string>, dataSource: string)
    requires dataSource in sources && dataSource !in done
    requires DispatchedSources(refs, target, sources, done)
    requires Distinct(sourceRefs)
    requires forall e :: e in sourceRefs <==> e.target == target && e.source == dataSource && 0 <= e.index < |sources[dataSource]|
    ensures DispatchedSources(refs + sourceRefs, target, sources, done + {dataSource})
  {
    DistinctConcat(refs, sourceRefs);
  }

  /** Target `t` lists a non-empty data source `ds`. */
  predicate Provides(catalog: Catalog, t: string, ds: string) {
    t in catalog && ds in catalog[t] && catalog[t][ds] != []
  }

  /** ... and the first entry of that list carries `labels`. */
  predicate ProvidesLabels(catalog: Catalog, t: string, ds: string, labels: seq<string>) {
    Provides(catalog, t, ds) && catalog[t][ds][0].labels == labels
  }

  /** After the targets in `done`: their triples hold the catalog's result, all others are empty. */
  ghost predicate MergedTargets(results: ResultMap, catalog: Catalog, done: set<string>,
                                c: Watcher.NextflowContainer, backend: Backend)
  {
    forall t, ds, n :: Lookup(results, t, ds, n) == (if t in done then CatalogLookup(catalog, t, ds, n, c, backend) else None)
  }

  /** After the targets in `done`: each of their entries has been dispatched once. */
  ghost predicate DispatchedTargets(dispatched: seq<EntryRef>, catalog: Catalog, done: set<string>) {
    Distinct(dispatched) && forall e :: e in dispatched <==> IsEntry(catalog, e) && e.target in done
  }

  /** After the targets in `done`: a data source has meta information iff one of them lists it non-empty, and it is that list's first labels. */
  ghost predicate MetaInfoTargets(info: map<string, seq<string>>, catalog: Catalog, done: set<string>) {
    (forall ds :: ds in info <==> exists t :: t in done && Provides(catalog, t, ds)) &&
    (forall ds :: ds in info ==> exists t :: t in done && ProvidesLabels(catalog, t, ds, info[ds]))
  }

  /**
   * FetchMonitoringSources: one fetch per catalog entry, merged into a
   * fresh result map. At every triple the result is the first successful
   * fetch of an entry of that name in its data source's list; the
   * dispatched fetches are exactly the catalog's entries, each once; and
   * the meta information of a data source is the labels of the first entry
   * of a non-empty list of that name (under some target: when several
   * targets share a data-source name, whichever the map iteration visits
   * last).
   */
  method FetchMonitoringSources(c: Watcher.NextflowContainer, queriesMap: Catalog, backend: Backend)
    returns (results: ResultMap, queryMetaInfo: map<string, seq<string>>, dispatched: seq<EntryRef>)
    ensures forall t, ds, n :: Lookup(results, t, ds, n) == CatalogLookup(queriesMap, t, ds, n, c, backend)
    ensures WellFormed(results)
    ensures Distinct(dispatched) && (forall e :: e in dispatched <==> IsEntry(queriesMap, e))
    ensures |dispatched| == |CatalogEntries(queriesMap)|
    ensures forall ds :: ds in queryMetaInfo <==> exists t :: Provides(queriesMap, t, ds)
    ensures forall ds :: ds in queryMetaInfo ==> exists t :: ProvidesLabels(queriesMap, t, ds, queryMetaInfo[ds])
  {
    results, queryMetaInfo, dispatched := map[], map[], [];
    var remaining := queriesMap.Keys;
    while remaining != {}
      invariant remaining <= queriesMap.Keys
      invariant MergedTargets(results, queriesMap, queriesMap.Keys - remaining, c, backend)
      invariant WellFormed(results)
      invariant DispatchedTargets(dispatched, queriesMap, queriesMap.Keys - remaining)
      invariant MetaInfoTargets(queryMetaInfo, queriesMap, queriesMap.Keys - remaining)
      decreases remaining
    {
      var target :| target in remaining;
      var done := queriesMap.Keys - remaining;
      var before, beforeInfo, beforeDispatched := results, queryMetaInfo, dispatched;
      var targetRefs;
      results, queryMetaInfo, targetRefs := FetchTarget(results, queryMetaInfo, target, queriesMap[target], c, backend);
      dispatched := dispatched + targetRefs;
      remaining := remaining - {target};
      assert queriesMap.Keys - remaining == done + {target};
      LookupStep(queriesMap, done, target, before, results, c, backend);
      DispatchStep(queriesMap, done, target, beforeDispatched, targetRefs);
      MetaInfoStep(queriesMap, done, target, beforeInfo, queryMetaInfo);
    }
    assert queriesMap.Keys - remaining == queriesMap.Keys;
    DispatchedAll(queriesMap, dispatched);
  }

  lemma DispatchedAll(catalog: Catalog, dispatched: seq<EntryRef>)
    requires DispatchedTargets(dispatched, catalog, catalog.Keys)
    ensures Distinct(dispatched) && (forall e :: e in dispatched <==> IsEntry(catalog, e))
    ensures |dispatched| == |CatalogEntries(catalog)|
  {
    DistinctCard(dispatched);
    assert (set e | e in dispatched) == CatalogEntries(catalog);
  }

  lemma LookupStep(catalog: Catalog, done: set<string>, target: string, before: ResultMap, after: ResultMap,
                   c: Watcher.NextflowContainer, backend: Backend)
    requires target in catalog && target !in done
    requires MergedTargets(before, catalog, done, c, backend)
    requires MergedSources(after, before, target, catalog[target], catalog[target].Keys, c, backend)
    ensures MergedTargets(after, catalog, done + {target}, c, backend)
  {
  }

  lemma DispatchStep(catalog: Catalog, done: set<string>, target: string, before: seq<EntryRef>, targetRefs: seq<EntryRef>)
    requires target in catalog && target !in done
    requires DispatchedTargets(before, catalog, done)
    requires DispatchedSources(targetRefs, target, catalog[target], catalog[target].Keys)
    ensures DispatchedTargets(before + targetRefs, catalog, done + {target})
  {
    DistinctConcat(before, targetRefs);
  }

  lemma MetaInfoStep(catalog: Catalog, done: set<string>, target: string,
                     before: map<string, seq<string>>, after: map<string, seq<string>>)
    requires target in catalog && target !in done
    requires MetaInfoAfter(after, before, catalog[target], catalog[target].Keys)
    requires MetaInfoTargets(before, catalog, done)
    ensures MetaInfoTargets(after, catalog, done + {target})
  {
    forall ds | ds in after
      ensures exists t :: t in done + {target} && ProvidesLabels(catalog, t, ds, after[ds])
    {
      if Provides(catalog, target, ds) {
        assert ProvidesLabels(catalog, target, ds, after[ds]);
      } else {
        var t :| t in done && ProvidesLabels(catalog, t, ds, before[ds]);
        assert ProvidesLabels(catalog, t, ds, after[ds]);
      }
    }
    forall ds | exists t :: t in done + {target} && Provides(catalog, t, ds)
      ensures ds in after
    {
      var t :| t in done + {target} && Provides(catalog, t, ds);
      if t != target {
        assert ds in before;
      } else {
        assert Provides(catalog, target, ds);
      }
    }
  }

  /**
   * A triple is missing from the merged result exactly when no entry of
   * that name in its data source's list fetched successfully.
   */
  lemma MissingExactlyWhenAllFailed(catalog: Catalog, t: string, ds: string, n: string, c: Watcher.NextflowContainer, backend: Backend)
    requires t in catalog && ds in catalog[t] && catalog[t][ds] != []
    ensures var list := catalog[t][ds];
              CatalogLookup(catalog, t, ds, n, c, backend).None? <==>
              forall i :: 0 <= i < |list| ==> !Hit(list, i, list[0].identifier, n, c, backend)
  {
    var list := catalog[t][ds];
    FirstOkExists(list, list[0].identifier, n, c, backend);
  }
}
