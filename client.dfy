/**
 * The scheduler (client/client.go): the older single-query fetch with its
 * own label-selector closure, and the monitoring loop that receives each
 * dead container, logs its lifetime, and splits the merged result map into
 * one single-triple wrapper per (target, data source, query name), each
 * written out by the aggregator.
 *
 * Receiving from the watcher's channel, the 10 s idle timer and the
 * Prometheus client are replaced by parameters: the container record, the
 * merged result map, and the backend of the fetcher.
 */
module Client {
  import opened Wrappers
  import opened Strings
  import opened Series
  import Watcher
  import Collect
  import Results
  import Csv

  // ---------------------------------------------------------------------
  // The older fetch: nextflowQuery and its range query
  // ---------------------------------------------------------------------

  /**
   * The nextflowQuery closure: the identifier picks the container field the
   * selector binds; the fields are passed one by one rather than as a record.
   */
  function NextflowQuery(query: string, queryIdentifier: string, containerName: string, cid: string,
                         cwdir: string, cpid: int): string {
    match queryIdentifier
    case "name" => Collect.Selector(query, queryIdentifier, containerName)
    case "path" => Collect.Selector(query, queryIdentifier, cid)
    case "work_dir" => Collect.Selector(query, queryIdentifier, cwdir)
    case "groupname" => Collect.Selector(query, queryIdentifier, IntToDecimal(cpid))
    case "container_names" => Collect.Selector(query, queryIdentifier, containerName)
    case "container_name" => Collect.Selector(query, queryIdentifier, containerName)
    case _ => query
  }

  /**
   * Given a container's fields, the closure builds the same query as the
   * fetcher's BuildQueryByLabelSelector for every identifier, and so it also
   * leaves the query unchanged exactly when the identifier is unrecognised.
   */
  lemma NextflowQueryAgreesWithLabelSelector(query: string, ident: string, c: Watcher.NextflowContainer)
    ensures NextflowQuery(query, ident, c.name, c.containerID, c.workDir, c.pid) ==
              Collect.BuildQueryByLabelSelector(query, ident, c)
    ensures NextflowQuery(query, ident, c.name, c.containerID, c.workDir, c.pid) != query <==> Collect.IsIdentifier(ident)
  {
    Collect.BindingChangesQueryIffRecognised(query, ident, c);
  }

  /**
   * The older FetchMonitoringTargets: the same window as the fetcher; a
   * query error is passed on as it is, and an answer that is not a matrix
   * becomes an error instead of a result.
   */
  function LegacyFetch(backend: Collect.Backend, queryIdentifier: string, query: string,
                       containerStartUp: int, containerDie: int,
                       containerName: string, cwdir: string, cid: string, cpid: int): (r: Result<Matrix>)
    ensures var answer := backend(NextflowQuery(query, queryIdentifier, containerName, cid, cwdir, cpid),
                                  Collect.RangeWindow(containerStartUp, containerDie));
              (r.Success? <==> answer.MatrixResult?) &&
              (answer.MatrixResult? ==> r.value == answer.matrix) &&
              (answer.QueryError? ==> r.error == answer.message) &&
              (answer.NotMatrix? ==> r.error == "failed to cast Prometheus response to Matrix")
  {
    match backend(NextflowQuery(query, queryIdentifier, containerName, cid, cwdir, cpid),
                  Collect.RangeWindow(containerStartUp, containerDie))
    case QueryError(err) => Failure(err)
    case NotMatrix => Failure("failed to cast Prometheus response to Matrix")
    case MatrixResult(m) => Success(m)
  }

  /**
   * On a container's own fields the older fetch succeeds exactly when the
   * fetcher's does and with the same matrix; the fetcher's query errors
   * only add the prefix "error querying Prometheus: ".
   */
  lemma LegacyFetchAgreesWithFetcher(backend: Collect.Backend, ident: string, query: string, c: Watcher.NextflowContainer)
    ensures var legacy := LegacyFetch(backend, ident, query, c.startTime, c.dieTime, c.name, c.workDir, c.containerID, c.pid);
            var current := Collect.FetchMonitoringTargets(backend, ident, query, c);
              (legacy.Success? <==> current.Success?) &&
              (legacy.Success? ==> legacy.value == current.value) &&
              (legacy.Failure? && legacy.error != "failed to cast Prometheus response to Matrix" ==>
                 current.error == "error querying Prometheus: " + legacy.error)
  {
    NextflowQueryAgreesWithLabelSelector(query, ident, c);
  }

  // ---------------------------------------------------------------------
  // The logged lifetime
  // ---------------------------------------------------------------------

  /** The lifetime the scheduler logs for a received container: die time minus start time. */
  function LoggedLifetime(c: Watcher.NextflowContainer): (d: int)
    ensures c.startTime + d == c.dieTime
  {
    c.dieTime - c.startTime
  }

  /** For a record built by the watcher it is the record's own lifetime. */
  lemma LoggedLifetimeIsRecorded(info: Watcher.ContainerInfo, pid: int)
    ensures var c := Watcher.CreateNextflowContainer(info, pid);
            LoggedLifetime(c) == c.lifeTime && LoggedLifetime(c) == info.finishedAt - info.startedAt
  {
  }

  // ---------------------------------------------------------------------
  // Splitting the merged result into single-triple wrappers
  // ---------------------------------------------------------------------

  /**
   * The wrapper the loop builds for one triple: a result map holding that
   * triple alone. The source passes the meta-information map where the
   * constructor expects a vector; the model leaves that vector empty.
   */
  function SplitWrapper(tr: Triple, m: Matrix): (w: Results.DataVectorWrapper)
    ensures WellFormed(w.resultMap) && TripleSet(w.resultMap) == {tr}
    ensures Lookup(w.resultMap, tr.target, tr.source, tr.query) == Some(m)
  {
    Results.DataVectorWrapper([], Singleton(tr, m))
  }

  /** Every folder the output of the triples of `order` creates: results and the triple's three levels. */
  function ChainFolders(order: seq<Triple>): set<string> {
    if order == [] then {}
    else
      var tr := order[|order| - 1];
      ChainFolders(order[..|order| - 1]) +
        {Results.ResultsFolder, Results.TargetFolder(tr.target), Results.SourceFolder(tr.target, tr.source), Results.QueryFolder(tr)}
  }

  /** A sequence without repetitions whose elements are exactly `x` is `[x]`. */
  lemma DistinctSingleton<T>(s: seq<T>, x: T)
    requires Distinct(s) && forall y :: y in s <==> y == x
    ensures s == [x]
  {
    DistinctCard(s);
    assert (set y | y in s) == {x};
    assert s[0] in s;
  }

  /** The split wrapper of a triple appends what the triple appends in the whole map. */
  lemma SplitWrites(res: ResultMap, tr: Triple, files: map<string, Csv.File>)
    requires Lookup(res, tr.target, tr.source, tr.query).Some?
    ensures var w := SplitWrapper(tr, Lookup(res, tr.target, tr.source, tr.query).value);
            Results.WriteTriples(files, [tr], Results.TripleWrites(w.resultMap)) ==
              Results.WriteTriples(files, [tr], Results.TripleWrites(res))
  {
    var w := SplitWrapper(tr, Lookup(res, tr.target, tr.source, tr.query).value);
    assert Results.TripleWrites(w.resultMap)(tr) == Results.TripleWrites(res)(tr);
    assert [tr][..0] == [];
  }

  /** The folders the output of a split wrapper creates are those of its triple. */
  lemma SplitFolders(tr: Triple, m: Matrix)
    ensures var w := SplitWrapper(tr, m);
            {Results.ResultsFolder} + Results.TargetFolders(w.resultMap, {}) + Results.AllSourceFolders(w.resultMap, {}) +
              Results.QueryFolders([tr]) == ChainFolders([tr])
  {
    var w := SplitWrapper(tr, m);
    assert [tr][..0] == [];
    assert Results.TargetFolders(w.resultMap, {}) == {Results.TargetFolder(tr.target)};
    assert Results.AllSourceFolders(w.resultMap, {}) == {Results.SourceFolder(tr.target, tr.source)};
  }

  /** Writing one split wrapper after the triples `before` is writing the triples `before + [tr]`. */
  lemma SplitStep(res: ResultMap, tr: Triple, files0: map<string, Csv.File>, dirs0: set<string>,
                  before: seq<Triple>, filesB: map<string, Csv.File>, dirsB: set<string>,
                  sub: seq<Triple>, filesA: map<string, Csv.File>, dirsA: set<string>)
    requires Lookup(res, tr.target, tr.source, tr.query).Some?
    requires filesB == Results.WriteTriples(files0, before, Results.TripleWrites(res))
    requires dirsB == dirs0 + ChainFolders(before)
    requires var w := SplitWrapper(tr, Lookup(res, tr.target, tr.source, tr.query).value);
             Distinct(sub) && (forall x :: x in sub <==> x in TripleSet(w.resultMap)) &&
             filesA == Results.WriteTriples(filesB, sub, Results.TripleWrites(w.resultMap)) &&
             dirsA == dirsB + {Results.ResultsFolder} + Results.TargetFolders(w.resultMap, {}) +
                      Results.AllSourceFolders(w.resultMap, {}) + Results.QueryFolders(sub)
    ensures filesA == Results.WriteTriples(files0, before + [tr], Results.TripleWrites(res))
    ensures dirsA == dirs0 + ChainFolders(before + [tr])
  {
    DistinctSingleton(sub, tr);
    SplitWrites(res, tr, filesB);
    SplitFolders(tr, Lookup(res, tr.target, tr.source, tr.query).value);
    Results.OrderConcat(files0, before, [tr], Results.TripleWrites(res));
    ChainFoldersConcat(before, [tr]);
  }

  lemma {:induction false} ChainFoldersConcat(a: seq<Triple>, b: seq<Triple>)
    ensures ChainFolders(a + b) == ChainFolders(a) + ChainFolders(b)
    decreases |b|
  {
    if b == [] {
      assert a + b == a;
    } else {
      var k := |b| - 1;
      assert (a + b)[..|a + b| - 1] == a + b[..k];
      ChainFoldersConcat(a, b[..k]);
    }
  }

  /** The innermost loop: one wrapper per query name of a data source, each written out in turn. */
  method SplitSource(disk: Results.Disk, res: ResultMap, target: string, dataSource: string) returns (ghost order: seq<Triple>)
    requires target in res && dataSource in res[target]
    modifies disk
    ensures Distinct(order)
    ensures forall tr :: tr in order <==> tr.target == target && tr.source == dataSource && tr.query in res[target][dataSource]
    ensures disk.files == Results.WriteTriples(old(disk.files), order, Results.TripleWrites(res))
    ensures disk.dirs == old(disk.dirs) + ChainFolders(order)
  {
    order := [];
    var remaining := res[target][dataSource].Keys;
    while remaining != {}
      invariant remaining <= res[target][dataSource].Keys
      invariant Results.SourceVisited(res, target, dataSource, remaining, order)
      invariant disk.files == Results.WriteTriples(old(disk.files), order, Results.TripleWrites(res))
      invariant disk.dirs == old(disk.dirs) + ChainFolders(order)
      decreases remaining
    {
      var queryName :| queryName in remaining;
      var tr := Triple(target, dataSource, queryName);
      ghost var before, beforeFiles, beforeDirs := order, disk.files, disk.dirs;
      var dataWrapper := SplitWrapper(tr, res[target][dataSource][queryName]);
      ghost var sub := disk.CreateMonitoringOutput(dataWrapper);
      SplitStep(res, tr, old(disk.files), old(disk.dirs), before, beforeFiles, beforeDirs, sub, disk.files, disk.dirs);
      Results.SourceStep(res, target, dataSource, remaining, queryName, order);
      order := order + [tr];
      remaining := remaining - {queryName};
    }
  }

  /** The middle loop: every data source of a target, in map order. */
  method SplitTarget(disk: Results.Disk, res: ResultMap, target: string) returns (ghost order: seq<Triple>)
    requires target in res
    modifies disk
    ensures Distinct(order)
    ensures forall tr :: tr in order <==> tr.target == target && tr.source in res[target] && tr.query in res[target][tr.source]
    ensures disk.files == Results.WriteTriples(old(disk.files), order, Results.TripleWrites(res))
    ensures disk.dirs == old(disk.dirs) + ChainFolders(order)
  {
    order := [];
    var remaining := res[target].Keys;
    while remaining != {}
      invariant remaining <= res[target].Keys
      invariant Results.TargetVisited(res, target, remaining, order)
      invariant disk.files == Results.WriteTriples(old(disk.files), order, Results.TripleWrites(res))
      invariant disk.dirs == old(disk.dirs) + ChainFolders(order)
      decreases remaining
    {
      var dataSource :| dataSource in remaining;
      ghost var before := order;
      ghost var sub := SplitSource(disk, res, target, dataSource);
      order := order + sub;
      Results.TargetStep(res, target, remaining, dataSource, before, sub);
      Results.OrderConcat(old(disk.files), before, sub, Results.TripleWrites(res));
      ChainFoldersConcat(before, sub);
      remaining := remaining - {dataSource};
    }
  }

  /**
   * The splitting loop of ScheduleMonitoring: one single-triple wrapper per
   * (target, data source, query name), each written out as it is built. Every
   * triple of the map is visited once; the files end up as the whole map's
   * writes in the visiting order, and the folders are those of the visited
   * triples (none at all for an empty map).
   */
  method SplitResults(disk: Results.Disk, resultMap: ResultMap) returns (ghost order: seq<Triple>)
    modifies disk
    ensures Distinct(order)
    ensures forall tr :: tr in order <==> tr in TripleSet(resultMap)
    ensures disk.files == Results.WriteTriples(old(disk.files), order, Results.TripleWrites(resultMap))
    ensures disk.dirs == old(disk.dirs) + ChainFolders(order)
  {
    order := [];
    var remaining := resultMap.Keys;
    while remaining != {}
      invariant remaining <= resultMap.Keys
      invariant Results.MapVisited(resultMap, remaining, order)
      invariant disk.files == Results.WriteTriples(old(disk.files), order, Results.TripleWrites(resultMap))
      invariant disk.dirs == old(disk.dirs) + ChainFolders(order)
      decreases remaining
    {
      var target :| target in remaining;
      ghost var before := order;
      ghost var sub := SplitTarget(disk, resultMap, target);
      order := order + sub;
      Results.MapStep(resultMap, remaining, target, before, sub);
      Results.OrderConcat(old(disk.files), before, sub, Results.TripleWrites(resultMap));
      ChainFoldersConcat(before, sub);
      remaining := remaining - {target};
    }
    Results.MapVisitedAll(resultMap, order);
  }

  /** As many wrappers as the map holds triples. */
  lemma WrapperCount(resultMap: ResultMap, order: seq<Triple>)
    requires Distinct(order)
    requires forall tr :: tr in order <==> tr in TripleSet(resultMap)
    ensures |order| == |TripleSet(resultMap)|
  {
    DistinctCard(order);
    assert (set x | x in order) == TripleSet(resultMap);
  }

  // ---------------------------------------------------------------------
  // The monitoring loop's own state
  // ---------------------------------------------------------------------

  /** What wakes the monitoring loop: a dead container from the watcher, or 10 s of silence. */
  datatype Event = ContainerReceived | IdleTimeout

  /** monitorIsIdle after a history of events: set by a timeout, cleared by a container. */
  predicate IdleAfter(events: seq<Event>) {
    events != [] && events[|events| - 1] == IdleTimeout
  }

  /** channelCounter after a history: one per received container. */
  function Received(events: seq<Event>): (n: nat)
    ensures n == multiset(events)[ContainerReceived]
  {
    if events == [] then 0
    else
      var prefix := events[..|events| - 1];
      assert events == prefix + [events[|events| - 1]];
      Received(prefix) + (if events[|events| - 1] == ContainerReceived then 1 else 0)
  }

  /** How many times "[WF MONITOR IDLE]" is logged: on a timeout only when the loop was not idle yet. */
  function IdleLogs(events: seq<Event>): nat {
    if events == [] then 0
    else
      var prefix := events[..|events| - 1];
      IdleLogs(prefix) + (if events[|events| - 1] == IdleTimeout && !IdleAfter(prefix) then 1 else 0)
  }

  /**
   * The idle message is logged at most once per idle period: at most once
   * more than the containers received, and never more than that while the
   * loop is busy.
   */
  lemma {:induction false} IdleLogsBounded(events: seq<Event>)
    ensures IdleLogs(events) <= Received(events) + (if IdleAfter(events) then 1 else 0)
  {
    if events != [] {
      IdleLogsBounded(events[..|events| - 1]);
    }
  }

  /** A second timeout in a row logs nothing. */
  lemma RepeatedTimeoutLogsOnce(events: seq<Event>)
    ensures IdleLogs(events + [IdleTimeout, IdleTimeout]) == IdleLogs(events + [IdleTimeout])
  {
    var once := events + [IdleTimeout];
    assert (once + [IdleTimeout])[..|once|] == once;
    assert events + [IdleTimeout, IdleTimeout] == once + [IdleTimeout];
  }

  /** ScheduleMonitoring's loop variables, with the history of events they summarise. */
  class Scheduler {
    var monitorIsIdle: bool
    var channelCounter: int
    ghost var history: seq<Event>

    ghost predicate Valid()
      reads this
    {
      monitorIsIdle == IdleAfter(history) && channelCounter == Received(history)
    }

    constructor ()
      ensures Valid() && history == [] && !monitorIsIdle && channelCounter == 0
    {
      monitorIsIdle, channelCounter := false, 0;
      history := [];
    }

    /**
     * A dead container arrives: count it, leave the idle state, log its
     * lifetime, and write out its merged result map one triple at a time.
     */
    method OnContainer(disk: Results.Disk, c: Watcher.NextflowContainer, resultMap: ResultMap)
      returns (lifeTime: int, ghost order: seq<Triple>)
      requires Valid()
      modifies this, disk
      ensures Valid() && history == old(history) + [ContainerReceived]
      ensures channelCounter == old(channelCounter) + 1 && !monitorIsIdle
      ensures lifeTime == LoggedLifetime(c)
      ensures Distinct(order) && forall tr :: tr in order <==> tr in TripleSet(resultMap)
      ensures disk.files == Results.WriteTriples(old(disk.files), order, Results.TripleWrites(resultMap))
      ensures disk.dirs == old(disk.dirs) + ChainFolders(order)
    {
      channelCounter := channelCounter + 1;
      monitorIsIdle := false;
      history := history + [ContainerReceived];
      assert history[..|history| - 1] == old(history);
      lifeTime := c.dieTime - c.startTime;
      order := SplitResults(disk, resultMap);
    }

    /** Ten seconds without a container: log "[WF MONITOR IDLE]" only when not idle already. */
    method OnIdleTimeout() returns (logIdle: bool)
      requires Valid()
      modifies this
      ensures Valid() && history == old(history) + [IdleTimeout]
      ensures logIdle == !old(monitorIsIdle) && monitorIsIdle && channelCounter == old(channelCounter)
      ensures IdleLogs(history) == IdleLogs(old(history)) + (if logIdle then 1 else 0)
    {
      logIdle := false;
      if !monitorIsIdle {
        logIdle := true;
        monitorIsIdle := true;
      }
      history := history + [IdleTimeout];
      assert history[..|history| - 1] == old(history);
    }
  }
}
