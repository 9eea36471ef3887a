/**
 * Query catalog building (client/targets.go): six per-category builders
 * turn the already-parsed monitoring configuration into ordered lists of
 * query strings, and ConsolidateQueries gathers them under fixed keys.
 * The six builders differ only in the category they read, so one
 * parameterised builder stands for all of them.
 */
module Targets {
  import opened Wrappers
  import Seqs

  /**
   * One entry of a category's `metrics` list. `query` is `None` when the
   * key is missing or its value is not a string.
   */
  datatype Metric = Metric(query: Option<string>)

  /**
   * A monitoring target category. `metrics` is `None` when the key is
   * missing or is not a list.
   */
  datatype Category = Category(enabled: bool, metrics: Option<seq<Metric>>)

  /** The `monitoring_targets` section of the configuration. */
  datatype MonitoringTargets = MonitoringTargets(
    taskMetadata: Category,
    cpu: Category,
    memory: Category,
    disk: Category,
    network: Category,
    energy: Category)

  datatype CategoryKey = TaskMetadata | Cpu | Memory | Disk | Network | Energy

  function Select(mt: MonitoringTargets, key: CategoryKey): Category {
    match key
    case TaskMetadata => mt.taskMetadata
    case Cpu => mt.cpu
    case Memory => mt.memory
    case Disk => mt.disk
    case Network => mt.network
    case Energy => mt.energy
  }

  /** The key under which ConsolidateQueries returns a category's queries. */
  function ResultKey(key: CategoryKey): string {
    match key
    case TaskMetadata => "metaDataQueries"
    case Cpu => "cpuQueries"
    case Memory => "memoryQueries"
    case Disk => "diskQueries"
    case Network => "networkQueries"
    case Energy => "energyQueries"
  }

  const ResultKeys: set<string> :=
    {"metaDataQueries", "cpuQueries", "memoryQueries", "diskQueries", "networkQueries", "energyQueries"}

  // ---------------------------------------------------------------------
  // EscapeQuery
  // ---------------------------------------------------------------------

  /**
   * EscapeQuery: every backslash removed, every other character kept, in
   * order. The result has no backslash and is never longer than the input.
   */
  function EscapeQuery(query: string): (r: string)
    ensures forall i :: 0 <= i < |r| ==> r[i] != '\\'
    ensures |r| <= |query|
  {
    if query == [] then []
    else
      var rest := EscapeQuery(query[1..]);
      assert query == [query[0]] + query[1..];
      if query[0] == '\\' then rest else [query[0]] + rest
  }

  /** Every character other than a backslash is kept, as often as it occurs. */
  lemma {:induction false} EscapeQueryKeepsOthers(query: string)
    ensures forall c :: c != '\\' ==> multiset(EscapeQuery(query))[c] == multiset(query)[c]
  {
    if query != [] {
      EscapeQueryKeepsOthers(query[1..]);
      assert query == [query[0]] + query[1..];
    }
  }

  /** A query without backslashes is left as it is. */
  lemma {:induction false} EscapeQueryKeepsClean(query: string)
    requires forall i :: 0 <= i < |query| ==> query[i] != '\\'
    ensures EscapeQuery(query) == query
  {
    if query != [] {
      EscapeQueryKeepsClean(query[1..]);
      assert query == [query[0]] + query[1..];
    }
  }

  /** EscapeQuery is idempotent. */
  lemma EscapeQueryIdempotent(query: string)
    ensures EscapeQuery(EscapeQuery(query)) == EscapeQuery(query)
  {
    EscapeQueryKeepsClean(EscapeQuery(query));
  }

  /** What EscapeQuery keeps of one character. */
  function Kept(c: char): string {
    if c == '\\' then [] else [c]
  }

  lemma EscapeQueryCons(s: string)
    requires s != []
    ensures EscapeQuery(s) == Kept(s[0]) + EscapeQuery(s[1..])
  {
  }

  /** EscapeQuery works character by character, so it distributes over concatenation. */
  lemma {:induction false} EscapeQueryAppend(a: string, b: string)
    ensures EscapeQuery(a + b) == EscapeQuery(a) + EscapeQuery(b)
  {
    if a == [] {
      assert a + b == b;
    } else {
      var tail := a[1..];
      EscapeQueryAppend(tail, b);
      assert (a + b)[1..] == tail + b;
      EscapeQueryCons(a);
      EscapeQueryCons(a + b);
      Seqs.ConcatAssoc(Kept(a[0]), EscapeQuery(tail), EscapeQuery(b));
    }
  }

  // ---------------------------------------------------------------------
  // The per-category builder
  // ---------------------------------------------------------------------

  /** Whether a metric contributes a query: its raw `query` is a non-empty string. */
  predicate HasQuery(m: Metric) {
    m.query.Some? && m.query.value != ""
  }

  /** What one metric adds to its category's list. */
  function Contribution(m: Metric): seq<string> {
    if HasQuery(m) then [EscapeQuery(m.query.value)] else []
  }

  /** The cleaned queries of the metrics that have one, in list order. */
  function KeptQueries(metrics: seq<Metric>): (r: seq<string>)
    ensures |r| <= |metrics|
  {
    if metrics == [] then []
    else KeptQueries(metrics[..|metrics| - 1]) + Contribution(metrics[|metrics| - 1])
  }

  /** What Build*Queries returns for a category. */
  function CategoryQueries(c: Category): seq<string> {
    if !c.enabled then []
    else match c.metrics
      case None => []
      case Some(ms) => KeptQueries(ms)
  }

  /** The number of metrics that contribute a query. */
  function CountWithQuery(metrics: seq<Metric>): nat {
    if metrics == [] then 0
    else CountWithQuery(metrics[..|metrics| - 1]) + (if HasQuery(metrics[|metrics| - 1]) then 1 else 0)
  }

  /** Keeping concatenates: the queries of `a + b` are those of `a`, then those of `b`. */
  lemma {:induction false} KeptQueriesAppend(a: seq<Metric>, b: seq<Metric>)
    ensures KeptQueries(a + b) == KeptQueries(a) + KeptQueries(b)
    decreases |b|
  {
    if b == [] {
      assert a + b == a;
    } else {
      var b' := b[..|b| - 1];
      KeptQueriesAppend(a, b');
      assert (a + b)[..|a + b| - 1] == a + b';
      assert (a + b)[|a + b| - 1] == b[|b| - 1];
      Seqs.ConcatAssoc(KeptQueries(a), KeptQueries(b'), Contribution(b[|b| - 1]));
    }
  }

  /** One query per contributing metric. */
  lemma {:induction false} KeptQueriesCount(metrics: seq<Metric>)
    ensures |KeptQueries(metrics)| == CountWithQuery(metrics)
  {
    if metrics != [] {
      KeptQueriesCount(metrics[..|metrics| - 1]);
    }
  }

  /**
   * Each metric's contribution sits between those of the metrics before it
   * and after it: EscapeQuery of its query if the raw query is a non-empty
   * string, nothing otherwise.
   */
  lemma KeptQueriesAt(metrics: seq<Metric>, i: nat)
    requires i < |metrics|
    ensures KeptQueries(metrics) ==
      KeptQueries(metrics[..i]) + Contribution(metrics[i]) + KeptQueries(metrics[i + 1..])
  {
    var upTo, rest := metrics[..i + 1], metrics[i + 1..];
    assert metrics == upTo + rest;
    KeptQueriesAppend(upTo, rest);
    KeptQueriesSnoc(upTo);
    assert upTo[..|upTo| - 1] == metrics[..i];
  }

  lemma KeptQueriesSnoc(metrics: seq<Metric>)
    requires metrics != []
    ensures KeptQueries(metrics) == KeptQueries(metrics[..|metrics| - 1]) + Contribution(metrics[|metrics| - 1])
  {
  }

  /** A disabled category yields no queries, whatever its metrics. */
  lemma DisabledIsEmpty(c: Category)
    requires !c.enabled
    ensures CategoryQueries(c) == []
  {
  }

  /** A query made only of backslashes passes the non-empty check and contributes the empty string. */
  lemma BackslashOnlyQueryGivesEmpty(k: nat)
    requires k > 0
    ensures KeptQueries([Metric(Some(seq(k, _ => '\\')))]) == [""]
  {
    var q := seq(k, _ => '\\');
    assert q[0] == '\\';
    var ms := [Metric(Some(q))];
    assert ms[..0] == [];
    assert KeptQueries(ms) == Contribution(ms[0]);
    assert forall c :: c != '\\' ==> multiset(q)[c] == 0;
    EscapeQueryKeepsOthers(q);
    var r := EscapeQuery(q);
    assert forall c :: c in multiset(r) ==> c != '\\' && multiset(r)[c] == 0;
    assert multiset(r) == multiset{};
  }

  /**
   * BuildMetaDataQueries ... BuildEnergyQueries, for the category they read:
   * the loop over the metrics list appending cleaned queries.
   */
  method BuildQueries(c: Category) returns (queries: seq<string>)
    ensures queries == CategoryQueries(c)
    ensures |queries| <= (if c.metrics.Some? then |c.metrics.value| else 0)
  {
    queries := [];
    if c.enabled {
      if c.metrics.Some? {
        var metrics := c.metrics.value;
        for i := 0 to |metrics|
          invariant queries == KeptQueries(metrics[..i])
        {
          assert metrics[..i + 1][..i] == metrics[..i];
          assert KeptQueries(metrics[..i + 1]) == queries + Contribution(metrics[i]);
          var metric := metrics[i];
          if metric.query.Some? && metric.query.value != "" {
            var cleanQuery := EscapeQuery(metric.query.value);
            queries := queries + [cleanQuery];
          }
        }
        assert metrics[..|metrics|] == metrics;
      }
    }
  }

  /** ResultKey names six different keys, the ones of ResultKeys. */
  lemma ResultKeysDistinct()
    ensures forall a, b :: ResultKey(a) == ResultKey(b) ==> a == b
    ensures forall s :: s in ResultKeys <==> exists k :: ResultKey(k) == s
  {
    forall s | s in ResultKeys ensures exists k :: ResultKey(k) == s {
      if s == "metaDataQueries" { assert ResultKey(TaskMetadata) == s; }
      else if s == "cpuQueries" { assert ResultKey(Cpu) == s; }
      else if s == "memoryQueries" { assert ResultKey(Memory) == s; }
      else if s == "diskQueries" { assert ResultKey(Disk) == s; }
      else if s == "networkQueries" { assert ResultKey(Network) == s; }
      else { assert ResultKey(Energy) == s; }
    }
  }

  /**
   * ConsolidateQueries: exactly the six keys, each bound to its category's
   * builder output.
   */
  method ConsolidateQueries(mt: MonitoringTargets) returns (r: map<string, seq<string>>)
    ensures r.Keys == ResultKeys
    ensures forall k :: r[ResultKey(k)] == CategoryQueries(Select(mt, k))
  {
    var metaDataQueries := BuildQueries(mt.taskMetadata);
    var cpuQueries := BuildQueries(mt.cpu);
    var memoryQueries := BuildQueries(mt.memory);
    var diskQueries := BuildQueries(mt.disk);
    var networkQueries := BuildQueries(mt.network);
    var energyQueries := BuildQueries(mt.energy);
    r := Consolidated(metaDataQueries, cpuQueries, memoryQueries, diskQueries, networkQueries, energyQueries);
    ConsolidatedPerCategory(mt, r);
  }

  lemma ConsolidatedPerCategory(mt: MonitoringTargets, r: map<string, seq<string>>)
    requires r == Consolidated(CategoryQueries(mt.taskMetadata), CategoryQueries(mt.cpu), CategoryQueries(mt.memory),
                               CategoryQueries(mt.disk), CategoryQueries(mt.network), CategoryQueries(mt.energy))
    ensures forall k :: r[ResultKey(k)] == CategoryQueries(Select(mt, k))
  {
    forall k ensures r[ResultKey(k)] == CategoryQueries(Select(mt, k)) {
      match k
      case TaskMetadata =>
      case Cpu =>
      case Memory =>
      case Disk =>
      case Network =>
      case Energy =>
    }
  }

  /** The map ConsolidateQueries returns, from the six builders' outputs. */
  function Consolidated(metaDataQueries: seq<string>, cpuQueries: seq<string>, memoryQueries: seq<string>,
                        diskQueries: seq<string>, networkQueries: seq<string>, energyQueries: seq<string>)
    : (r: map<string, seq<string>>)
    ensures r.Keys == ResultKeys
    ensures r[ResultKey(TaskMetadata)] == metaDataQueries && r[ResultKey(Cpu)] == cpuQueries &&
            r[ResultKey(Memory)] == memoryQueries && r[ResultKey(Disk)] == diskQueries &&
            r[ResultKey(Network)] == networkQueries && r[ResultKey(Energy)] == energyQueries
  {
    map[
      "metaDataQueries" := metaDataQueries,
      "cpuQueries" := cpuQueries,
      "memoryQueries" := memoryQueries,
      "diskQueries" := diskQueries,
      "networkQueries" := networkQueries,
      "energyQueries" := energyQueries]
  }
}
