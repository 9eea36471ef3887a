/**
 * The aggregator (aggregate/results.go): the CSV header and data row of a
 * sample, the output folder and file of each (target, data source, query
 * name) triple, and the writer that appends every sample of a result map
 * to its triple's file.
 *
 * The filesystem is an object whose directory set and file contents the
 * writer updates; a file is the sequence of its CSV rows.
 */
module Results {
  import opened Wrappers
  import opened Strings
  import opened Series
  import Csv
  import Seqs

  /** DataVectorWrapper: a vector kept for metadata and the nested result map. */
  datatype DataVectorWrapper = DataVectorWrapper(result: Vector, resultMap: ResultMap)

  // ---------------------------------------------------------------------
  // Header and data row
  // ---------------------------------------------------------------------

  /**
   * ReadHeaderFields: "timestamp", "value", then the label names in
   * strictly ascending order (the width says every name occurs).
   */
  function ReadHeaderFields(labelNames: map<string, string>): (r: Csv.Row)
    ensures |r| == 2 + |labelNames|
    ensures r[0] == "timestamp" && r[1] == "value"
    ensures forall i :: 2 <= i < |r| ==> r[i] in labelNames
    ensures Ascending(r[2..])
  {
    var keys := SortedKeys(labelNames.Keys);
    assert |labelNames.Keys| == |labelNames|;
    var r := ["timestamp", "value"] + keys;
    assert r[2..] == keys;
    assert forall i :: 2 <= i < |r| ==> r[i] == keys[i - 2] && keys[i - 2] in keys;
    r
  }

  /**
   * ReadLabelValues: the timestamp cell, the value cell, then the label
   * values in ascending order of their names, so that each label cell lies
   * under its name in the header of the same label set.
   */
  function ReadLabelValues(timestamp: string, labelValues: map<string, string>, value: string): (r: Csv.Row)
    ensures |r| == 2 + |labelValues|
    ensures r[0] == timestamp && r[1] == value
    ensures forall i :: 2 <= i < |r| ==> r[i] == labelValues[ReadHeaderFields(labelValues)[i]]
  {
    var keys := SortedKeys(labelValues.Keys);
    assert |labelValues.Keys| == |labelValues|;
    var cells := seq(|keys|, i requires 0 <= i < |keys| => labelValues[keys[i]]);
    CellsUnderHeader(timestamp, labelValues, value, cells);
    [timestamp, value] + cells
  }

  lemma CellsUnderHeader(timestamp: string, labelValues: map<string, string>, value: string, cells: seq<string>)
    requires |cells| == |SortedKeys(labelValues.Keys)|
    requires forall i :: 0 <= i < |cells| ==> cells[i] == labelValues[SortedKeys(labelValues.Keys)[i]]
    ensures forall i :: 2 <= i < 2 + |cells| ==> ([timestamp, value] + cells)[i] == labelValues[ReadHeaderFields(labelValues)[i]]
  {
    var header := ReadHeaderFields(labelValues);
    assert header == ["timestamp", "value"] + SortedKeys(labelValues.Keys);
  }

  /** The label map a header and a row of the same width describe: name at column i -> cell i, for i >= 2. */
  function LabelsOf(header: Csv.Row, row: Csv.Row): map<string, string>
    requires |header| == |row|
  {
    if |header| <= 2 then map[]
    else
      var k := |header| - 1;
      LabelsOf(header[..k], row[..k])[header[k] := row[k]]
  }

  /** The names in the label columns (index 2 on) of a header. */
  function HeaderNames(header: Csv.Row): set<string> {
    if |header| <= 2 then {} else HeaderNames(header[..|header| - 1]) + {header[|header| - 1]}
  }

  /** The names of a header are exactly its cells from index 2 on. */
  lemma {:induction false} HeaderNamesMembers(header: Csv.Row)
    requires 2 <= |header|
    ensures forall x :: x in HeaderNames(header) <==> x in header[2..]
  {
    if |header| > 2 {
      var k := |header| - 1;
      var prefix := header[..k];
      HeaderNamesMembers(prefix);
      assert header[2..] == prefix[2..] + [header[k]];
    }
  }

  /** Reading a row under a header with distinct names maps the name of each column to its cell. */
  lemma {:induction false} LabelsOfCells(header: Csv.Row, row: Csv.Row)
    requires |header| == |row| && 2 <= |header|
    requires forall i, j :: 2 <= i < j < |header| ==> header[i] != header[j]
    ensures LabelsOf(header, row).Keys == HeaderNames(header)
    ensures forall i :: 2 <= i < |header| ==> header[i] in LabelsOf(header, row) && LabelsOf(header, row)[header[i]] == row[i]
    decreases |header|
  {
    if |header| > 2 {
      var k := |header| - 1;
      LabelsOfCells(header[..k], row[..k]);
      assert forall i :: 2 <= i < k ==> header[..k][i] == header[i] && row[..k][i] == row[i];
    }
  }

  /**
   * A data row read back under its own header gives the sample's
   * timestamp, value and exact label map: the header and row lose nothing.
   */
  lemma RowRoundTrip(timestamp: string, labels: map<string, string>, value: string)
    ensures var header := ReadHeaderFields(labels);
            var row := ReadLabelValues(timestamp, labels, value);
            |header| == |row| && row[0] == timestamp && row[1] == value && LabelsOf(header, row) == labels
  {
    var header := ReadHeaderFields(labels);
    var row := ReadLabelValues(timestamp, labels, value);
    HeaderNamesAll(labels);
    LabelsOfAligned(header, row, labels);
  }

  lemma LabelsOfAligned(header: Csv.Row, row: Csv.Row, labels: map<string, string>)
    requires |header| == |row| && 2 <= |header|
    requires Ascending(header[2..])
    requires HeaderNames(header) == labels.Keys
    requires forall i :: 2 <= i < |header| ==> header[i] in labels && row[i] == labels[header[i]]
    ensures LabelsOf(header, row) == labels
  {
    AscendingPairwise(header[2..]);
    assert forall i, j :: 2 <= i < j < |header| ==> header[i] == header[2..][i - 2] && header[j] == header[2..][j - 2];
    LabelsOfCells(header, row);
    HeaderNamesMembers(header);
    var parsed := LabelsOf(header, row);
    forall k | k in labels ensures parsed[k] == labels[k] {
      var j :| 0 <= j < |header| - 2 && header[2..][j] == k;
      assert parsed[header[j + 2]] == row[j + 2];
    }
  }

  /** The label columns of a header are exactly the label names. */
  lemma HeaderNamesAll(labels: map<string, string>)
    ensures HeaderNames(ReadHeaderFields(labels)) == labels.Keys
  {
    var header := ReadHeaderFields(labels);
    var keys := SortedKeys(labels.Keys);
    HeaderNamesMembers(header);
    assert header[2..] == keys;
  }

  /** The header of a label set is determined by, and determines, its set of names. */
  lemma HeaderDeterminedByNames(a: map<string, string>, b: map<string, string>)
    ensures ReadHeaderFields(a) == ReadHeaderFields(b) <==> a.Keys == b.Keys
  {
    if ReadHeaderFields(a) == ReadHeaderFields(b) {
      HeaderNamesAll(a);
      HeaderNamesAll(b);
    }
  }

  // ---------------------------------------------------------------------
  // Paths
  // ---------------------------------------------------------------------

  const ResultsFolder: string := "results"

  function TargetFolder(target: string): string {
    ResultsFolder + "/" + target
  }

  function SourceFolder(target: string, dataSource: string): string {
    TargetFolder(target) + "/" + dataSource
  }

  function QueryFolder(tr: Triple): string {
    SourceFolder(tr.target, tr.source) + "/" + tr.query
  }

  /** GetFileName: `<folder>/<id>.csv`. */
  function GetFileName(targetFolder: string, fileIdentifier: string): string {
    targetFolder + "/" + fileIdentifier + ".csv"
  }

  /** The folder and the identifier can be read back from a GetFileName path. */
  lemma GetFileNameParts(folder: string, id: string)
    ensures var r := GetFileName(folder, id);
            |r| == |folder| + |id| + 5 && r[..|folder| + 1] == folder + "/" &&
            r[|folder| + 1..|r| - 4] == id && r[|r| - 4..] == ".csv"
  {
    var r := GetFileName(folder, id);
    assert r == (folder + "/") + id + ".csv";
  }

  /** The path CreateFile opens: `<path>/<fileName>`. */
  function FullPath(path: string, fileName: string): string {
    path + "/" + fileName
  }

  /** The file a triple's samples go to. */
  function OutputPath(tr: Triple): string {
    FullPath(QueryFolder(tr), tr.query + ".csv")
  }

  /** The triple's file is `results/<target>/<dataSource>/<queryName>/<queryName>.csv`, GetFileName of its folder. */
  lemma OutputPathShape(tr: Triple)
    ensures OutputPath(tr) == GetFileName(QueryFolder(tr), tr.query)
    ensures OutputPath(tr) == "results/" + (tr.target + "/" + (tr.source + "/" + (tr.query + "/" + (tr.query + ".csv"))))
  {
  }

  predicate SlashFree(s: string) {
    forall i :: 0 <= i < |s| ==> s[i] != '/'
  }

  /** The index of the first '/' (or the length when there is none). */
  function FirstSlash(s: string): (r: nat)
    ensures r <= |s|
  {
    if s == [] || s[0] == '/' then 0 else 1 + FirstSlash(s[1..])
  }

  lemma {:induction false} FirstSlashAfter(x: string, rest: string)
    requires SlashFree(x)
    ensures FirstSlash(x + "/" + rest) == |x|
  {
    if x != [] {
      assert (x + "/" + rest)[1..] == x[1..] + "/" + rest;
      FirstSlashAfter(x[1..], rest);
    }
  }

  lemma SplitAtSlash(x: string, r1: string, y: string, r2: string)
    requires SlashFree(x) && SlashFree(y) && x + "/" + r1 == y + "/" + r2
    ensures x == y && r1 == r2
  {
    FirstSlashAfter(x, r1);
    FirstSlashAfter(y, r2);
    assert x == (x + "/" + r1)[..|x|];
    assert y == (y + "/" + r2)[..|y|];
    assert r1 == (x + "/" + r1)[|x| + 1..];
    assert r2 == (y + "/" + r2)[|y| + 1..];
  }

  predicate SlashFreeTriple(tr: Triple) {
    SlashFree(tr.target) && SlashFree(tr.source) && SlashFree(tr.query)
  }

  /** When no name contains '/', different triples write to different files. */
  lemma OutputPathInjective(a: Triple, b: Triple)
    requires SlashFreeTriple(a) && SlashFreeTriple(b)
    ensures OutputPath(a) == OutputPath(b) <==> a == b
  {
    if OutputPath(a) == OutputPath(b) {
      OutputPathShape(a);
      OutputPathShape(b);
      var pa := a.target + "/" + (a.source + "/" + (a.query + "/" + (a.query + ".csv")));
      var pb := b.target + "/" + (b.source + "/" + (b.query + "/" + (b.query + ".csv")));
      assert pa == OutputPath(a)[|"results/"|..];
      assert pb == OutputPath(b)[|"results/"|..];
      SplitAtSlash(a.target, a.source + "/" + (a.query + "/" + (a.query + ".csv")),
                   b.target, b.source + "/" + (b.query + "/" + (b.query + ".csv")));
      SplitAtSlash(a.source, a.query + "/" + (a.query + ".csv"), b.source, b.query + "/" + (b.query + ".csv"));
      SplitAtSlash(a.query, a.query + ".csv", b.query, b.query + ".csv");
    }
  }

  /** With a '/' inside a name, two different triples share a file. */
  lemma SlashedNamesCollide()
    ensures OutputPath(Triple("a/b", "c", "d")) == OutputPath(Triple("a", "b/c", "d"))
  {
    assert OutputPath(Triple("a/b", "c", "d")) == "results/a/b/c/d/d.csv";
    assert OutputPath(Triple("a", "b/c", "d")) == "results/a/b/c/d/d.csv";
  }

  // ---------------------------------------------------------------------
  // What the writer appends
  // ---------------------------------------------------------------------

  /** The write of one sample: its header and its data row. */
  function SampleWrite(s: Sample): Csv.Write {
    Csv.Write(ReadHeaderFields(s.labels), ReadLabelValues(s.timestamp, s.labels, s.value))
  }

  /** The writes of a vector's samples, in order. */
  function VectorWrites(v: Vector): (r: seq<Csv.Write>)
    ensures |r| == |v|
  {
    if v == [] then [] else VectorWrites(v[..|v| - 1]) + [SampleWrite(v[|v| - 1])]
  }

  /** The writes of every sample of every vector, in order. */
  function MatrixWrites(m: Matrix): seq<Csv.Write> {
    if m == [] then [] else MatrixWrites(m[..|m| - 1]) + VectorWrites(m[|m| - 1])
  }

  /** The number of samples across all vectors. */
  function SampleCount(m: Matrix): nat {
    if m == [] then 0 else SampleCount(m[..|m| - 1]) + |m[|m| - 1]|
  }

  /** One write per sample, across all vectors. */
  lemma {:induction false} MatrixWritesCount(m: Matrix)
    ensures |MatrixWrites(m)| == SampleCount(m)
  {
    if m != [] {
      MatrixWritesCount(m[..|m| - 1]);
    }
  }

  /** A missing file reads as empty: CreateFile opens with O_CREATE and O_APPEND. */
  function FileAt(files: map<string, Csv.File>, path: string): Csv.File {
    if path in files then files[path] else []
  }

  /** What each triple of `res` appends to its file: one write per sample of its result. */
  function TripleWrites(res: ResultMap): Triple -> seq<Csv.Write> {
    (tr: Triple) => if Lookup(res, tr.target, tr.source, tr.query).Some?
          then MatrixWrites(Lookup(res, tr.target, tr.source, tr.query).value)
          else []
  }

  /** The files after the writes `ws` have been appended to the file of `tr`. */
  function WriteTriple(files: map<string, Csv.File>, tr: Triple, ws: seq<Csv.Write>): map<string, Csv.File> {
    var p := OutputPath(tr);
    files[p := Csv.AppendAll(FileAt(files, p), ws)]
  }

  /** The files after the triples of `order`, in that order, have received their writes. */
  function WriteTriples(files: map<string, Csv.File>, order: seq<Triple>, writes: Triple -> seq<Csv.Write>): map<string, Csv.File> {
    if order == [] then files
    else
      var tr := order[|order| - 1];
      WriteTriple(WriteTriples(files, order[..|order| - 1], writes), tr, writes(tr))
  }

  /** The query folders of the triples of `order`. */
  function QueryFolders(order: seq<Triple>): set<string> {
    if order == [] then {} else QueryFolders(order[..|order| - 1]) + {QueryFolder(order[|order| - 1])}
  }

  function SourceFolders(target: string, dataSources: TargetResults): set<string> {
    set ds | ds in dataSources :: SourceFolder(target, ds)
  }

  /** Files that no triple of `order` maps to are left as they were. */
  lemma {:induction false} WriteTriplesElsewhere(files: map<string, Csv.File>, order: seq<Triple>,
                                                 writes: Triple -> seq<Csv.Write>, p: string)
    requires forall i :: 0 <= i < |order| ==> OutputPath(order[i]) != p
    ensures FileAt(WriteTriples(files, order, writes), p) == FileAt(files, p)
  {
    if order != [] {
      var k := |order| - 1;
      assert forall i :: 0 <= i < k ==> order[..k][i] == order[i];
      WriteTriplesElsewhere(files, order[..k], writes, p);
    }
  }

  /**
   * When no name contains '/', the file of each visited triple holds what
   * it held before followed by that triple's writes (and, by
   * WriteTriplesElsewhere, every other file is unchanged).
   */
  lemma {:induction false} TripleFileContents(files: map<string, Csv.File>, order: seq<Triple>,
                                              writes: Triple -> seq<Csv.Write>, i: int)
    requires Distinct(order) && 0 <= i < |order|
    requires forall j :: 0 <= j < |order| ==> SlashFreeTriple(order[j])
    ensures FileAt(WriteTriples(files, order, writes), OutputPath(order[i])) ==
              Csv.AppendAll(FileAt(files, OutputPath(order[i])), writes(order[i]))
  {
    var k := |order| - 1;
    if i == k {
      LastTripleFile(files, order, writes);
    } else {
      var prefix := order[..k];
      assert forall j :: 0 <= j < k ==> prefix[j] == order[j];
      OutputPathInjective(order[i], order[k]);
      WriteTriplesLast(files, order, writes, OutputPath(order[i]));
      TripleFileContents(files, prefix, writes, i);
    }
  }

  /** The case of TripleFileContents for the last triple: no earlier triple wrote to its file. */
  lemma LastTripleFile(files: map<string, Csv.File>, order: seq<Triple>, writes: Triple -> seq<Csv.Write>)
    requires Distinct(order) && order != []
    requires forall j :: 0 <= j < |order| ==> SlashFreeTriple(order[j])
    ensures var last := order[|order| - 1];
            FileAt(WriteTriples(files, order, writes), OutputPath(last)) == Csv.AppendAll(FileAt(files, OutputPath(last)), writes(last))
  {
    var k := |order| - 1;
    var prefix := order[..k];
    forall j | 0 <= j < k ensures OutputPath(prefix[j]) != OutputPath(order[k]) {
      assert prefix[j] == order[j];
      OutputPathInjective(order[j], order[k]);
    }
    WriteTriplesLast(files, order, writes, OutputPath(order[k]));
    WriteTriplesElsewhere(files, prefix, writes, OutputPath(order[k]));
  }

  /** The file at `p` after the last triple of `order`, in terms of the file before it. */
  lemma WriteTriplesLast(files: map<string, Csv.File>, order: seq<Triple>, writes: Triple -> seq<Csv.Write>, p: string)
    requires order != []
    ensures var last := order[|order| - 1];
            var before := FileAt(WriteTriples(files, order[..|order| - 1], writes), p);
            FileAt(WriteTriples(files, order, writes), p) ==
              if p == OutputPath(last) then Csv.AppendAll(before, writes(last)) else before
  {
  }

  /**
   * A triple written to a file that was empty: one header, the first
   * sample's, then one data row per sample; no header when there are no
   * samples.
   */
  lemma FreshTripleFile(m: Matrix)
    ensures var f := Csv.AppendAll([], MatrixWrites(m));
            |f| == (if SampleCount(m) == 0 then 0 else 1 + SampleCount(m)) &&
            (SampleCount(m) > 0 ==> f == [MatrixWrites(m)[0].header] + Csv.RowsOf(MatrixWrites(m)))
  {
    MatrixWritesCount(m);
    Csv.AppendAllShape([], MatrixWrites(m));
  }

  // ---------------------------------------------------------------------
  // The filesystem and the writer
  // ---------------------------------------------------------------------

  /** The directories and files the writer creates and appends to. */
  class Disk {
    var dirs: set<string>
    var files: map<string, Csv.File>

    constructor (dirs0: set<string>, files0: map<string, Csv.File>)
      ensures dirs == dirs0 && files == files0
    {
      dirs, files := dirs0, files0;
    }

    /** CreateOutputFolder: make the folder when it is missing; nothing else changes. */
    method CreateOutputFolder(folderName: string)
      modifies this
      ensures dirs == old(dirs) + {folderName} && files == old(files)
    {
      if folderName !in dirs {
        dirs := dirs + {folderName};
      }
    }

    /** CreateFile: open `<path>/<fileName>` for appending, creating it empty when missing. */
    method CreateFile(path: string, fileName: string) returns (fullPath: string)
      modifies this
      ensures fullPath == FullPath(path, fileName)
      ensures dirs == old(dirs) && files == old(files)[fullPath := FileAt(old(files), fullPath)]
    {
      fullPath := path + "/" + fileName;
      if fullPath !in files {
        files := files[fullPath := []];
      }
    }

    /** WriteToCSV: the header first when the file is empty, then the sample's row. */
    method WriteToCSV(outputFile: string, timestamp: string, metricLabels: map<string, string>, value: string)
      requires outputFile in files
      modifies this
      ensures dirs == old(dirs)
      ensures files == old(files)[outputFile :=
                Csv.AppendRow(old(files)[outputFile], ReadHeaderFields(metricLabels), ReadLabelValues(timestamp, metricLabels, value))]
    {
      var file := files[outputFile];
      if |file| == 0 {
        file := file + [ReadHeaderFields(metricLabels)];
      }
      file := file + [ReadLabelValues(timestamp, metricLabels, value)];
      assert file == Csv.AppendRow(old(files)[outputFile], ReadHeaderFields(metricLabels), ReadLabelValues(timestamp, metricLabels, value));
      files := files[outputFile := file];
    }

    /** The innermost loop of CreateMonitoringOutput: every sample of one vector, in order. */
    method WriteVector(queryFile: string, vector: Vector)
      requires queryFile in files
      modifies this
      ensures dirs == old(dirs)
      ensures files == old(files)[queryFile := Csv.AppendAll(old(files)[queryFile], VectorWrites(vector))]
    {
      ghost var start := files[queryFile];
      for j := 0 to |vector|
        invariant dirs == old(dirs)
        invariant files == old(files)[queryFile := Csv.AppendAll(start, VectorWrites(vector[..j]))]
      {
        var value := vector[j];
        ghost var before := files;
        WriteToCSV(queryFile, value.timestamp, value.labels, value.value);
        VectorStep(old(files), queryFile, start, vector, j, before, files);
      }
      WholePrefix(vector);
    }

    /** The middle loop of CreateMonitoringOutput: every vector of one result, in order. */
    method WriteVectors(queryFile: string, vectors: Matrix)
      requires queryFile in files
      modifies this
      ensures dirs == old(dirs)
      ensures files == old(files)[queryFile := Csv.AppendAll(old(files)[queryFile], MatrixWrites(vectors))]
    {
      ghost var start := files[queryFile];
      for i := 0 to |vectors|
        invariant dirs == old(dirs)
        invariant files == old(files)[queryFile := Csv.AppendAll(start, MatrixWrites(vectors[..i]))]
      {
        ghost var before := files;
        WriteVector(queryFile, vectors[i]);
        MatrixStep(old(files), queryFile, start, vectors, i, before, files);
      }
      WholePrefix(vectors);
    }

    /** One query name of CreateMonitoringOutput: its folder, its file, then every sample of every vector. */
    method WriteQuery(res: ResultMap, tr: Triple)
      requires Lookup(res, tr.target, tr.source, tr.query).Some?
      modifies this
      ensures dirs == old(dirs) + {QueryFolder(tr)}
      ensures files == WriteTriple(old(files), tr, TripleWrites(res)(tr))
    {
      var queryFolder := QueryFolder(tr);
      CreateOutputFolder(queryFolder);
      var queryFile := CreateFile(queryFolder, tr.query + ".csv");
      WriteVectors(queryFile, res[tr.target][tr.source][tr.query]);
    }

    /** One data source of CreateMonitoringOutput: its folder, then each query name in map order. */
    method WriteSource(res: ResultMap, target: string, dataSource: string) returns (ghost order: seq<Triple>)
      requires target in res && dataSource in res[target]
      modifies this
      ensures Distinct(order)
      ensures forall tr :: tr in order <==> tr.target == target && tr.source == dataSource && tr.query in res[target][dataSource]
      ensures files == WriteTriples(old(files), order, TripleWrites(res))
      ensures dirs == old(dirs) + {SourceFolder(target, dataSource)} + QueryFolders(order)
    {
      var sourceFolder := SourceFolder(target, dataSource);
      CreateOutputFolder(sourceFolder);
      order := [];
      var remaining := res[target][dataSource].Keys;
      while remaining != {}
        invariant remaining <= res[target][dataSource].Keys
        invariant SourceVisited(res, target, dataSource, remaining, order)
        invariant files == WriteTriples(old(files), order, TripleWrites(res))
        invariant dirs == old(dirs) + {sourceFolder} + QueryFolders(order)
        decreases remaining
      {
        var queryName :| queryName in remaining;
        var tr := Triple(target, dataSource, queryName);
        WriteQuery(res, tr);
        OrderStep(old(files), order, TripleWrites(res), tr);
        SourceStep(res, target, dataSource, remaining, queryName, order);
        order := order + [tr];
        remaining := remaining - {queryName};
      }
    }

    /** One target of CreateMonitoringOutput: its folder, then each data source in map order. */
    method WriteTarget(res: ResultMap, target: string) returns (ghost order: seq<Triple>)
      requires target in res
      modifies this
      ensures Distinct(order)
      ensures forall tr :: tr in order <==> tr.target == target && tr.source in res[target] && tr.query in res[target][tr.source]
      ensures files == WriteTriples(old(files), order, TripleWrites(res))
      ensures dirs == old(dirs) + {TargetFolder(target)} + SourceFolders(target, res[target]) + QueryFolders(order)
    {
      var targetFolder := TargetFolder(target);
      CreateOutputFolder(targetFolder);
      order := [];
      var remaining := res[target].Keys;
      while remaining != {}
        invariant remaining <= res[target].Keys
        invariant TargetVisited(res, target, remaining, order)
        invariant files == WriteTriples(old(files), order, TripleWrites(res))
        invariant dirs == old(dirs) + {targetFolder} + SourceFolders(target, res[target] - remaining) + QueryFolders(order)
        decreases remaining
      {
        var dataSource :| dataSource in remaining;
        ghost var before, beforeDirs := order, dirs;
        ghost var sub := WriteSource(res, target, dataSource);
        order := order + sub;
        TargetStep(res, target, remaining, dataSource, before, sub);
        OrderConcat(old(files), before, sub, TripleWrites(res));
        remaining := remaining - {dataSource};
        SourceFoldersStep(target, res[target], remaining, dataSource);
      }
      assert res[target] - {} == res[target];
    }

    /**
     * CreateMonitoringOutput: the results folder, then for each target,
     * data source and query name (in map order) its folder, and every
     * sample of the triple appended to the triple's file. The visiting order
     * lists each triple of the map once; the files are those the triples
     * write in that order; the folders are exactly those of the map.
     */
    method CreateMonitoringOutput(v: DataVectorWrapper) returns (ghost order: seq<Triple>)
      modifies this
      ensures Distinct(order)
      ensures forall tr :: tr in order <==> tr in TripleSet(v.resultMap)
      ensures files == WriteTriples(old(files), order, TripleWrites(v.resultMap))
      ensures dirs == old(dirs) + {ResultsFolder} + TargetFolders(v.resultMap, {}) + AllSourceFolders(v.resultMap, {}) + QueryFolders(order)
    {
      var res := v.resultMap;
      CreateOutputFolder(ResultsFolder);
      order := [];
      var remaining := res.Keys;
      while remaining != {}
        invariant remaining <= res.Keys
        invariant MapVisited(res, remaining, order)
        invariant files == WriteTriples(old(files), order, TripleWrites(res))
        invariant FoldersVisited(old(dirs), res, remaining, order, dirs)
        decreases remaining
      {
        var target :| target in remaining;
        ghost var before, beforeDirs := order, dirs;
        ghost var sub := WriteTarget(res, target);
        order := order + sub;
        MapStep(res, remaining, target, before, sub);
        OrderConcat(old(files), before, sub, TripleWrites(res));
        FoldersStep(old(dirs), res, remaining, target, before, sub, beforeDirs);
        remaining := remaining - {target};
      }
      MapVisitedAll(res, order);
    }
  }

  lemma WholePrefix<T>(s: seq<T>)
    ensures s[..|s|] == s
  {
  }

  /** Appending one more sample's write keeps the file at `q` equal to the writes so far. */
  lemma VectorStep(base: map<string, Csv.File>, q: string, start: Csv.File, v: Vector, j: int,
                   before: map<string, Csv.File>, after: map<string, Csv.File>)
    requires 0 <= j < |v|
    requires before == base[q := Csv.AppendAll(start, VectorWrites(v[..j]))]
    requires after == before[q := Csv.AppendRow(before[q], ReadHeaderFields(v[j].labels),
                                                ReadLabelValues(v[j].timestamp, v[j].labels, v[j].value))]
    ensures after == base[q := Csv.AppendAll(start, VectorWrites(v[..j + 1]))]
  {
    SampleStep(start, v, j);
    Seqs.MapUpdateTwice(base, q, Csv.AppendAll(start, VectorWrites(v[..j])), after[q]);
  }

  lemma SampleStep(start: Csv.File, v: Vector, j: int)
    requires 0 <= j < |v|
    ensures Csv.AppendAll(start, VectorWrites(v[..j + 1])) ==
            Csv.AppendRow(Csv.AppendAll(start, VectorWrites(v[..j])), SampleWrite(v[j]).header, SampleWrite(v[j]).row)
  {
    assert v[..j + 1][..j] == v[..j];
    Csv.AppendAllSnoc(start, VectorWrites(v[..j]), SampleWrite(v[j]));
  }

  /** Appending one more vector's writes keeps the file at `q` equal to the writes so far. */
  lemma MatrixStep(base: map<string, Csv.File>, q: string, start: Csv.File, m: Matrix, i: int,
                   before: map<string, Csv.File>, after: map<string, Csv.File>)
    requires 0 <= i < |m|
    requires before == base[q := Csv.AppendAll(start, MatrixWrites(m[..i]))]
    requires after == before[q := Csv.AppendAll(before[q], VectorWrites(m[i]))]
    ensures after == base[q := Csv.AppendAll(start, MatrixWrites(m[..i + 1]))]
  {
    VectorsStep(start, m, i);
    Seqs.MapUpdateTwice(base, q, Csv.AppendAll(start, MatrixWrites(m[..i])), after[q]);
  }

  lemma VectorsStep(start: Csv.File, m: Matrix, i: int)
    requires 0 <= i < |m|
    ensures Csv.AppendAll(start, MatrixWrites(m[..i + 1])) ==
            Csv.AppendAll(Csv.AppendAll(start, MatrixWrites(m[..i])), VectorWrites(m[i]))
  {
    assert m[..i + 1][..i] == m[..i];
    assert MatrixWrites(m[..i + 1]) == MatrixWrites(m[..i]) + VectorWrites(m[i]);
    Csv.AppendAllConcat(start, MatrixWrites(m[..i]), VectorWrites(m[i]));
  }

  // ---------------------------------------------------------------------
  // Bookkeeping for the visiting loops
  // ---------------------------------------------------------------------

  lemma {:induction false} WriteTriplesConcat(files: map<string, Csv.File>, a: seq<Triple>, b: seq<Triple>,
                                              writes: Triple -> seq<Csv.Write>)
    ensures WriteTriples(files, a + b, writes) == WriteTriples(WriteTriples(files, a, writes), b, writes)
    decreases |b|
  {
    if b == [] {
      assert a + b == a;
    } else {
      var k := |b| - 1;
      assert (a + b)[..|a + b| - 1] == a + b[..k];
      WriteTriplesConcat(files, a, b[..k], writes);
    }
  }

  lemma {:induction false} QueryFoldersConcat(a: seq<Triple>, b: seq<Triple>)
    ensures QueryFolders(a + b) == QueryFolders(a) + QueryFolders(b)
    decreases |b|
  {
    if b == [] {
      assert a + b == a;
    } else {
      var k := |b| - 1;
      assert (a + b)[..|a + b| - 1] == a + b[..k];
      QueryFoldersConcat(a, b[..k]);
    }
  }

  /** Visiting one more triple. */
  lemma OrderStep(files: map<string, Csv.File>, order: seq<Triple>, writes: Triple -> seq<Csv.Write>, tr: Triple)
    ensures WriteTriples(files, order + [tr], writes) == WriteTriple(WriteTriples(files, order, writes), tr, writes(tr))
    ensures QueryFolders(order + [tr]) == QueryFolders(order) + {QueryFolder(tr)}
  {
    assert (order + [tr])[..|order|] == order;
  }

  /** Visiting a block of triples after another. */
  lemma OrderConcat(files: map<string, Csv.File>, a: seq<Triple>, b: seq<Triple>, writes: Triple -> seq<Csv.Write>)
    ensures WriteTriples(files, a + b, writes) == WriteTriples(WriteTriples(files, a, writes), b, writes)
    ensures QueryFolders(a + b) == QueryFolders(a) + QueryFolders(b)
  {
    WriteTriplesConcat(files, a, b, writes);
    QueryFoldersConcat(a, b);
  }

  ghost predicate SourceVisited(res: ResultMap, target: string, dataSource: string, remaining: set<string>, order: seq<Triple>)
    requires target in res && dataSource in res[target]
  {
    Distinct(order) &&
    forall tr :: tr in order <==>
      tr.target == target && tr.source == dataSource && tr.query in res[target][dataSource] && tr.query !in remaining
  }

  lemma SourceStep(res: ResultMap, target: string, dataSource: string, remaining: set<string>, queryName: string, before: seq<Triple>)
    requires target in res && dataSource in res[target] && queryName in remaining
    requires remaining <= res[target][dataSource].Keys
    requires SourceVisited(res, target, dataSource, remaining, before)
    ensures SourceVisited(res, target, dataSource, remaining - {queryName}, before + [Triple(target, dataSource, queryName)])
  {
    var tr := Triple(target, dataSource, queryName);
    assert tr !in before;
    DistinctConcat(before, [tr]);
    forall x ensures x in before + [tr] <==> x in before || x == tr {
      assert x in before + [tr] <==> exists i :: 0 <= i < |before| + 1 && (before + [tr])[i] == x;
    }
  }

  ghost predicate TargetVisited(res: ResultMap, target: string, remaining: set<string>, order: seq<Triple>)
    requires target in res
  {
    Distinct(order) &&
    forall tr :: tr in order <==>
      tr.target == target && tr.source in res[target] && tr.source !in remaining && tr.query in res[target][tr.source]
  }

  lemma TargetStep(res: ResultMap, target: string, remaining: set<string>, dataSource: string, before: seq<Triple>, sub: seq<Triple>)
    requires target in res && dataSource in remaining && dataSource in res[target]
    requires TargetVisited(res, target, remaining, before)
    requires Distinct(sub)
    requires forall tr :: tr in sub <==> tr.target == target && tr.source == dataSource && tr.query in res[target][dataSource]
    ensures TargetVisited(res, target, remaining - {dataSource}, before + sub)
  {
    DistinctConcat(before, sub);
    assert forall i :: 0 <= i < |before + sub| ==> (before + sub)[i] == if i < |before| then before[i] else sub[i - |before|];
  }

  lemma SourceFoldersStep(target: string, dataSources: TargetResults, remaining: set<string>, dataSource: string)
    requires dataSource in dataSources && dataSource !in remaining
    ensures SourceFolders(target, dataSources - (remaining + {dataSource})) + {SourceFolder(target, dataSource)} ==
            SourceFolders(target, dataSources - remaining)
  {
  }

  /** The target folders of the targets not in `remaining`. */
  function TargetFolders(res: ResultMap, remaining: set<string>): set<string> {
    set t | t in res && t !in remaining :: TargetFolder(t)
  }

  /** The data-source folders of the targets not in `remaining`. */
  function AllSourceFolders(res: ResultMap, remaining: set<string>): set<string> {
    set t, ds | t in res && t !in remaining && ds in res[t] :: SourceFolder(t, ds)
  }

  ghost predicate MapVisited(res: ResultMap, remaining: set<string>, order: seq<Triple>) {
    Distinct(order) &&
    forall tr :: tr in order <==> tr in TripleSet(res) && tr.target !in remaining
  }

  lemma MapStep(res: ResultMap, remaining: set<string>, target: string, before: seq<Triple>, sub: seq<Triple>)
    requires target in remaining && target in res
    requires MapVisited(res, remaining, before)
    requires Distinct(sub)
    requires forall tr :: tr in sub <==> tr.target == target && tr.source in res[target] && tr.query in res[target][tr.source]
    ensures MapVisited(res, remaining - {target}, before + sub)
  {
    DistinctConcat(before, sub);
    assert forall i :: 0 <= i < |before + sub| ==> (before + sub)[i] == if i < |before| then before[i] else sub[i - |before|];
  }

  /** The folders made so far: those of the visited targets, their data sources and the visited triples. */
  ghost predicate FoldersVisited(dirs0: set<string>, res: ResultMap, remaining: set<string>, order: seq<Triple>,
                                 dirs: set<string>) {
    dirs == dirs0 + {ResultsFolder} + TargetFolders(res, remaining) + AllSourceFolders(res, remaining) + QueryFolders(order)
  }

  lemma TargetFoldersStep(res: ResultMap, remaining: set<string>, target: string)
    requires target in res && target !in remaining
    ensures TargetFolders(res, remaining + {target}) + {TargetFolder(target)} == TargetFolders(res, remaining)
    ensures AllSourceFolders(res, remaining + {target}) + SourceFolders(target, res[target]) == AllSourceFolders(res, remaining)
  {
  }

  /** Visiting one more target keeps FoldersVisited. */
  lemma FoldersStep(dirs0: set<string>, res: ResultMap, remaining: set<string>, target: string,
                    before: seq<Triple>, sub: seq<Triple>, dirs: set<string>)
    requires target in res && target in remaining
    requires FoldersVisited(dirs0, res, remaining, before, dirs)
    requires QueryFolders(before + sub) == QueryFolders(before) + QueryFolders(sub)
    ensures FoldersVisited(dirs0, res, remaining - {target}, before + sub,
                           dirs + {TargetFolder(target)} + SourceFolders(target, res[target]) + QueryFolders(sub))
  {
    var rest := remaining - {target};
    TargetFoldersStep(res, rest, target);
    assert rest + {target} == remaining;
    UnionRegroup(dirs0 + {ResultsFolder}, TargetFolders(res, remaining), AllSourceFolders(res, remaining),
                 QueryFolders(before), {TargetFolder(target)}, SourceFolders(target, res[target]), QueryFolders(sub));
  }

  lemma UnionRegroup<T>(base: set<T>, a: set<T>, b: set<T>, c: set<T>, a1: set<T>, b1: set<T>, c1: set<T>)
    ensures base + a + b + c + a1 + b1 + c1 == base + (a + a1) + (b + b1) + (c + c1)
  {
  }

  lemma MapVisitedAll(res: ResultMap, order: seq<Triple>)
    requires MapVisited(res, {}, order)
    ensures Distinct(order)
    ensures forall tr :: tr in order <==> tr in TripleSet(res)
  {
  }
}
