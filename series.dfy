/**
 * Time-series results shared by the fetcher, the dispatcher and the
 * aggregator: the nested target -> data source -> query name map that a
 * fetch fills in, and its triples.
 */
module Series {
  import opened Wrappers

  /**
   * One sample and the labels of its series. Timestamp and value are kept
   * as the cells the aggregator writes; their formatting is not modelled.
   */
  datatype Sample = Sample(labels: map<string, string>, timestamp: string, value: string)

  /** The samples of one series. */
  type Vector = seq<Sample>

  /** A range-query result: a list of series. */
  type Matrix = seq<Vector>

  type SourceResults = map<string, Matrix>          // query name -> result
  type TargetResults = map<string, SourceResults>   // data source -> ...
  type ResultMap = map<string, TargetResults>       // target -> ...

  /** The coordinates of one result: target, data source, query name. */
  datatype Triple = Triple(target: string, source: string, query: string)

  function Lookup(res: ResultMap, t: string, ds: string, n: string): Option<Matrix> {
    if t in res && ds in res[t] && n in res[t][ds] then Some(res[t][ds][n]) else None
  }

  /** No intermediate map is empty: every target and data source present holds a result. */
  predicate WellFormed(res: ResultMap) {
    forall t :: t in res ==> res[t] != map[] && forall ds :: ds in res[t] ==> res[t][ds] != map[]
  }

  /** The coordinates present in a result map. */
  function TripleSet(res: ResultMap): (r: set<Triple>)
    ensures forall tr :: tr in r <==> Lookup(res, tr.target, tr.source, tr.query).Some?
  {
    set t, ds, n | t in res && ds in res[t] && n in res[t][ds] :: Triple(t, ds, n)
  }

  /** The map that holds one result: { t: { ds: { n: m } } }. */
  function Singleton(tr: Triple, m: Matrix): (r: ResultMap)
    ensures WellFormed(r) && TripleSet(r) == {tr}
    ensures Lookup(r, tr.target, tr.source, tr.query) == Some(m)
  {
    var r := map[tr.target := map[tr.source := map[tr.query := m]]];
    assert tr in TripleSet(r);
    r
  }

  /** Maps that agree on every lookup */
  ghost predicate SameLookups(a: ResultMap, b: ResultMap) {
    forall t, ds, n :: Lookup(a, t, ds, n) == Lookup(b, t, ds, n)
  }

  lemma SameAtSource(a: ResultMap, b: ResultMap, t: string, ds: string)
    requires SameLookups(a, b) && t in a && t in b && ds in a[t] && ds in b[t]
    ensures a[t][ds] == b[t][ds]
  {
    forall n ensures (n in a[t][ds] <==> n in b[t][ds]) && (n in a[t][ds] ==> a[t][ds][n] == b[t][ds][n]) {
      assert Lookup(a, t, ds, n) == Lookup(b, t, ds, n);
    }
  }

  lemma SameAtTarget(a: ResultMap, b: ResultMap, t: string)
    requires WellFormed(a) && WellFormed(b) && SameLookups(a, b) && t in a && t in b
    ensures a[t] == b[t]
  {
    forall ds ensures (ds in a[t] <==> ds in b[t]) && (ds in a[t] ==> a[t][ds] == b[t][ds]) {
      if ds in a[t] {
        var n :| n in a[t][ds];
        assert Lookup(a, t, ds, n) == Lookup(b, t, ds, n);
        SameAtSource(a, b, t, ds);
      }
      if ds in b[t] {
        var n :| n in b[t][ds];
        assert Lookup(a, t, ds, n) == Lookup(b, t, ds, n);
      }
    }
  }

  /**
   * A well-formed result map is determined by its lookups: two of them
   * that agree on every triple are equal.
   */
  lemma WellFormedExtensional(a: ResultMap, b: ResultMap)
    requires WellFormed(a) && WellFormed(b)
    requires forall t, ds, n :: Lookup(a, t, ds, n) == Lookup(b, t, ds, n)
    ensures a == b
  {
    assert SameLookups(a, b);
    forall t ensures (t in a <==> t in b) && (t in a ==> a[t] == b[t]) {
      if t in a {
        var ds :| ds in a[t];
        var n :| n in a[t][ds];
        assert Lookup(a, t, ds, n) == Lookup(b, t, ds, n);
        SameAtTarget(a, b, t);
      }
      if t in b {
        var ds :| ds in b[t];
        var n :| n in b[t][ds];
        assert Lookup(a, t, ds, n) == Lookup(b, t, ds, n);
      }
    }
  }

  predicate Distinct<T(==)>(s: seq<T>) {
    forall i, j :: 0 <= i < j < |s| ==> s[i] != s[j]
  }

  lemma DistinctConcat<T>(a: seq<T>, b: seq<T>)
    requires Distinct(a) && Distinct(b)
    requires forall x :: x in a ==> x !in b
    ensures Distinct(a + b)
  {
    forall i, j | 0 <= i < j < |a + b| ensures (a + b)[i] != (a + b)[j] {
      if j >= |a| && i < |a| {
        assert (a + b)[i] in a && (a + b)[j] == b[j - |a|];
      }
    }
  }

  /** A sequence without repetitions has as many elements as the set of its elements. */
  lemma {:induction false} DistinctCard<T>(s: seq<T>)
    requires Distinct(s)
    ensures |set x | x in s| == |s|
  {
    if s != [] {
      var p := s[..|s| - 1];
      var last := s[|s| - 1];
      DistinctCard(p);
      assert last !in p;
      assert (set x | x in s) == (set x | x in p) + {last};
    }
  }
}
