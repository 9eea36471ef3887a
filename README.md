# LowLevelMonitoring core — a Dafny model

LowLevelMonitoring watches a Docker daemon for Nextflow workload containers and records when each one starts and dies. When a container dies, it builds range queries against Prometheus that cover the container's lifetime, merges the answers into a nested map (target → data source → query name), and writes every sample to one CSV file per (target, data source, query name) triple.

This project models the five pieces of sequential logic at the centre of that pipeline and proves properties of them:

- `watcher.dfy` (module `Watcher`) covers `watcher/container.go`:
  - the workload-name pattern `^/nxf-[a-zA-Z0-9-]+$`;
  - record construction (`createNextflowContainer`) and name escaping;
  - the row layout of the started/died audit files;
  - the deduplication and start → die PID correlation state.

  The function `Process` specifies how one event changes a value state. The class `EventWatcher` keeps that state in fields and is proved equal to `Process` step by step.
- `targets.dfy` (module `Targets`) covers `client/targets.go`:
  - `EscapeQuery`;
  - the six identical per-category builders, modelled as one builder `BuildQueries` with a loop, specified by `CategoryQueries`;
  - `ConsolidateQueries`.
- `collect.dfy` (module `Collect`) covers `client/collect.go`:
  - label-selector binding;
  - the range window;
  - one fetch (`FetchMonitoringTargets`) and the first-writer-wins merge (`fetchQuery`);
  - the dispatch and meta-information loops of `FetchMonitoringSources`.

  The goroutines are replaced by a sequential loop.
- `client.dfy` (module `Client`) covers `client/client.go`:
  - the older fetch with its `nextflowQuery` closure, proved to agree with the newer fetcher;
  - the logged lifetime;
  - the loop that splits a merged result into single-triple wrappers and writes each one out;
  - the idle/counter state of the `ScheduleMonitoring` loop.
- `results.dfy` (module `Results`) covers `aggregate/results.go`:
  - header and data row construction;
  - output paths;
  - a `Disk` class (a set of directories plus a map from path to file), on which `CreateOutputFolder`, `CreateFile` and `WriteToCSV` and the nested loops of `CreateMonitoringOutput` work in place.
- Shared modules:
  - `series.dfy`: samples, matrices, the nested result map and its triples.
  - `csv.dfy`: append-mode CSV files with a header written only into an empty file.
  - `strings.dfy`: prefix trimming, decimal integers, lexicographic order and sorted keys.
  - `seqs.dfy`: sequence and map facts.
  - `wrappers.dfy`: `Option`/`Result`.

Modelling choices:

- **Times** are integer milliseconds.
- **External inputs are parameters**:
  - Docker's inspection result is an input value, `None` when the inspect call fails.
  - The Prometheus backend is a function from (query, window) to a response.
  - A CSV cell holding a float or a time is an opaque string.
- **Go map iteration** has no fixed order. It is modelled by an arbitrary choice (`:|`). A ghost `order` out‑parameter records the order that was taken, and the contracts hold for every such order.

Three behaviours of the code that shape the model:

- **Output header.** The header of a query file is built from the first written sample's own label names, sorted, after a plain `value` column.
- **Query lists.** `targets.go` builds plain lists of query strings, one per category.
- **No deadline.** `FetchMonitoringSources` waits for every fetch it starts.

## Model

| member | source | states |
|---|---|---|
| Watcher.WorkloadNameShape | watcher/container.go:23 | A name matching `^/nxf-[a-zA-Z0-9-]+$` starts with `/`. Trimming that `/` leaves a string that starts with `nxf-`, contains no `/`, and gives back the name when the `/` is put back. |
| Watcher.CreateNextflowContainer | watcher/container.go:223-243 | The record copies the given PID, the ID, the working directory and both times. Its name loses exactly one leading `/` (and is unchanged without one). Start time plus lifetime equals die time. |
| Watcher.UnescapeEscape | watcher/container.go:342 | Replacing every `/` by `\/` loses nothing: unescaping gives back the input. |
| Watcher.EscapedSlashesArePreceded | watcher/container.go:342 | Every `/` left in the escaped text is preceded by a backslash. |
| Watcher.EscapeContainerName | watcher/container.go:338-343 | The result starts with the fixed "Cleaned Container Name for Query: " prefix. Unescaping what follows the prefix gives the name with one leading `/` trimmed. Every `/` after the prefix is escaped, that is, preceded by a backslash. |
| Watcher.WorkloadNameEscapesToItself | watcher/container.go:338-343 | For a tracked workload name, the escaped form is the prefix followed by the name without its leading `/`. |
| Watcher.PrepareOutputFile | watcher/container.go:316-327 | The audit path is the directory, a `/`, then exactly the file name. |
| Watcher.AuditFiles | watcher/container.go:246-281 | The started and died audit files sit at two different paths, `results/started_nextflow_containers.csv` and `results/died_nextflow_containers.csv`, and each holds its own rows. |
| Watcher.StartedRow | watcher/container.go:262-277 | A started row has the 4 columns of its header. Its cells are name, PID, ID and work dir, and the PID cell parses back to the PID. |
| Watcher.DiedRow | watcher/container.go:297-313 | A died row has the 5 columns of its header. It is the started row plus a lifetime cell that parses back to the lifetime. |
| Watcher.Process | watcher/container.go:75-140 | An id already seen for its kind of event changes nothing. Otherwise the id is marked in that kind's set only. A tracked first start sets the PID table at its id to the inspected PID and appends its started row to the started audit file (written with its header if the file is empty). A tracked first die whose id has a non-zero recorded PID emits exactly one record, with that recorded PID, and appends its died row to the died audit file. No other event emits anything, and no other event changes the PID table or either audit file. |
| Watcher.RepeatIsNoOp | watcher/container.go:76-82 | A second start (or die) for the same id leaves the state as the first one left it, whatever its inspection says. |
| Watcher.StartDoesNotSuppressDie | watcher/container.go:59-62 | Handling a start never marks the die of the same id as processed. |
| Watcher.RunRecordsFirstStartPid | watcher/container.go:98-126 | After any event history: an id is in the processed-starts set iff the history has a start for it. It is in the PID table iff its first start was tracked, and then the table holds that start's PID. |
| Watcher.RunRecordsDies | watcher/container.go:75-82 | After any event history, an id is in the processed-dies set iff the history has a die for it. |
| Watcher.DieCarriesStartPid | watcher/container.go:111-137 | A die that emits a record emits exactly one, and its PID is the one captured at the first start, not the one re-inspected at die. A die whose id never recorded a start PID emits nothing. Conversely, the first die of a tracked container whose first start recorded a non-zero PID emits exactly that record. |
| Watcher.EmissionsBoundedByIds | watcher/container.go:75-138 | Emitted records are at most the distinct died ids. Each audit file holds at most its distinct ids plus one header, and stays empty until its first id. |
| Watcher.EventWatcher.constructor | watcher/container.go:47-49 | The watcher starts with empty processed sets, PID table, output and audit files. |
| Watcher.EventWatcher.ProcessContainerEvent | watcher/container.go:75-140 | The imperative check-and-mark plus inspection step leaves exactly the state `Process` specifies. |
| Watcher.EventWatcher.HandleMessage | watcher/container.go:56-64 | Container `start` and `die` messages are processed as starts and dies. Every other message leaves the state unchanged. |
| Strings.TrimPrefix | watcher/container.go:233 | A string with the prefix loses exactly that prefix. A string without it is unchanged. |
| Strings.DecimalRoundTrip | watcher/container.go:272 | The `%d` rendering of an integer parses back to that integer. |
| Strings.DecimalInjective | watcher/container.go:307 | Different integers have different `%d` renderings. |
| Strings.SortedKeys | aggregate/results.go:157-161 | The sorted keys of a set have exactly its members, so its size, in strictly ascending lexicographic order. |
| Strings.AscendingPairwise | aggregate/results.go:161 | In a sorted key list, every key sorts strictly before every later key, so no key repeats. |
| Csv.AppendRow | aggregate/results.go:112-123 | A write to an empty file leaves `[header, row]`. A write to a non-empty file appends just `row` and keeps every earlier row and the first row. |
| Csv.AppendAllShape | aggregate/results.go:108-123 | Across any number of writes from an empty file, the header of the first write sits at index 0 once, followed by one data row per write. A non-empty file only gains the data rows. |
| Csv.AppendAllConcat | aggregate/results.go:108-123 | Writing one batch of writes and then another equals writing both batches in one go. |
| Csv.UniformWidth | watcher/container.go:262-311 | When headers and rows all have width w, every row of a file written from empty has width w. |
| Targets.EscapeQuery | client/targets.go:59-62 | The cleaned query contains no backslash and is never longer than the input. |
| Targets.EscapeQueryKeepsOthers | client/targets.go:59-62 | Every character other than a backslash occurs in the result as often as in the input, so only backslashes are removed. |
| Targets.EscapeQueryKeepsClean | client/targets.go:59-62 | A query without backslashes is returned unchanged. |
| Targets.EscapeQueryIdempotent | client/targets.go:59-62 | Cleaning twice is cleaning once. |
| Targets.EscapeQueryAppend | client/targets.go:59-62 | Cleaning distributes over concatenation: it works character by character. |
| Targets.KeptQueriesAt | client/targets.go:70-80 | Each metric contributes, between the contributions of the metrics before and after it, its cleaned query when the raw query is a non-empty string, and nothing otherwise. |
| Targets.KeptQueriesCount | client/targets.go:70-80 | The list has exactly one query per metric with a non-empty raw query. |
| Targets.KeptQueriesAppend | client/targets.go:71-80 | The queries of two metric lists in a row are the queries of the first, then those of the second. |
| Targets.DisabledIsEmpty | client/targets.go:67-86 | A disabled category yields no queries, whatever its metrics. |
| Targets.BackslashOnlyQueryGivesEmpty | client/targets.go:73-76 | A raw query made only of backslashes passes the non-empty check and contributes the empty string. |
| Targets.BuildQueries | client/targets.go:64-87 | The builder loop returns exactly `CategoryQueries`. That is empty when the category is disabled or the metrics list is missing, and otherwise the kept metrics' cleaned queries in order. It is never longer than the metrics list. |
| Targets.ResultKeysDistinct | client/targets.go:34-41 | The six result keys are pairwise different and are exactly the key set. |
| Targets.Consolidated | client/targets.go:34-41 | The map has exactly the six keys, each bound to the corresponding builder output. |
| Targets.ConsolidateQueries | client/targets.go:12-42 | The result has exactly the keys `metaDataQueries` … `energyQueries`, each bound to its own category's builder output. |
| Series.Singleton | client/client.go:219-225 | The one-triple map is well formed, holds exactly that triple, and maps it to the given matrix. |
| Series.WellFormedExtensional | client/collect.go:99-106 | A result map whose intermediate maps are created only on insertion is determined by its lookups. |
| Collect.BuildQueryByLabelSelector | client/collect.go:113-128 | `name`, `container_names` and `container_name` bind the container name. `path` binds the container ID, `work_dir` the working directory, and `groupname` the decimal PID, each as `query{ident="value"}`. Any other identifier returns the query unchanged. |
| Collect.BindingChangesQueryIffRecognised | client/collect.go:113-128 | Binding changes the query iff the identifier is one of the six. A bound query starts with the template and `{ident="`. |
| Collect.RangeWindow | client/collect.go:28-32 | The window starts at the start time, ends 5000 ms after the die time, and steps by 500 ms. |
| Collect.SampleInstantsShape | client/collect.go:28-32 | A range from start to end with the 500 ms step is evaluated at `(end - start) / 500 + 1` instants. The k-th instant is `start + 500 k`, all of them lie within the range, and the last is less than one step before the end. |
| Collect.WindowCoversLifetime | client/collect.go:28-32 | A container with a non-negative lifetime is sampled at `lifetime / 500 + 11` instants. The first is its start time, every instant lies before the die time plus 5 s, and the last falls after the die time, so the whole lifetime is sampled. A die time more than 5 s before the start gives no samples. |
| Collect.FetchMonitoringTargets | client/collect.go:19-53 | A fetch succeeds iff the backend answers the bound query over the container's window with a matrix, and then returns that matrix. |
| Collect.FetchQuery | client/collect.go:81-110 | A failed fetch leaves the map unchanged. A successful fetch stores its matrix at [target][dataSource][name] only when empty there, so the first writer wins, and no other lookup changes. Well-formedness is kept. |
| Collect.StoreLookup | client/collect.go:99-109 | Storing at a triple changes the lookup of that triple only, and only when it was empty. |
| Collect.StoreWellFormed | client/collect.go:99-106 | Creating the missing intermediate maps and then storing keeps every intermediate map non-empty. |
| Collect.FirstOkExists | client/collect.go:69-74 | A name ends up with a result iff some entry of that name in the list fetches successfully. |
| Collect.FirstOkIsFirst | client/collect.go:105-109 | The stored result is that of the first successful entry of that name, in the model's sequential fetch order. No earlier entry of that name succeeded. |
| Collect.FetchSource | client/collect.go:69-74 | Every entry of a list is fetched with the first entry's identifier, in list order. Empty triples of that data source get the list's first success in that order. Nothing else changes. Each entry is dispatched once. |
| Collect.FetchTarget | client/collect.go:64-75 | Every data source of a target is fetched and merged, in any order. A non-empty list sets the source's meta information to its first entry's labels. Every entry is dispatched once. |
| Collect.FetchMonitoringSources | client/collect.go:56-79 | Each triple holds the first successful fetch of its data source's list, and the map is well formed. The dispatched fetches are exactly the catalog's entries, each once, so their number is the number of entries. Meta information exists for a data source iff some target lists it non-empty, and then holds that list's first labels. |
| Collect.MissingExactlyWhenAllFailed | client/collect.go:90-94 | A triple is absent from the merged result iff every entry of that name in its list failed. |
| Client.NextflowQueryAgreesWithLabelSelector | client/client.go:109-127 | On a container's own fields, the closure builds the same query as `BuildQueryByLabelSelector` for every identifier, and leaves the query unchanged iff the identifier is unrecognised. |
| Client.LegacyFetch | client/client.go:93-181 | The older fetch queries the same window. It succeeds iff the answer is a matrix and returns it. A query error is passed on unchanged. A non-matrix answer becomes "failed to cast Prometheus response to Matrix". |
| Client.LegacyFetchAgreesWithFetcher | client/client.go:138-157 | The older and newer fetch succeed together with the same matrix. A query error differs only by the newer fetch's "error querying Prometheus: " prefix. |
| Client.LoggedLifetime | client/client.go:198-201 | The logged lifetime is die time minus start time. |
| Client.LoggedLifetimeIsRecorded | client/client.go:198-201 | For a record built by the watcher, the logged lifetime is the record's own lifetime, finish minus start of the inspection. |
| Client.SplitWrapper | client/client.go:219-225 | A wrapper holds a well-formed map with exactly the one triple and its matrix. |
| Client.SplitSource | client/client.go:218-234 | The innermost loop visits every query name once. The files become the writes of those triples in visiting order, and the folders are those of the visited triples. |
| Client.SplitTarget | client/client.go:217-235 | The middle loop visits every (data source, query name) of a target once, with the same file and folder outcome. |
| Client.SplitResults | client/client.go:216-236 | One wrapper per triple, every triple of the map visited once. The files end as the whole map's writes in visiting order, and the folders are exactly those of the visited triples. |
| Client.WrapperCount | client/client.go:216-236 | As many wrappers are written as the map holds triples. |
| Client.Received | client/client.go:196 | The container counter after a history of wake-ups is exactly the number of received containers among them. |
| Client.IdleLogsBounded | client/client.go:237-241 | The idle message is logged at most once per idle period: at most once more than the containers received. |
| Client.RepeatedTimeoutLogsOnce | client/client.go:238-241 | A second timeout in a row logs nothing. |
| Client.Scheduler.constructor | client/client.go:184-185 | The loop starts busy, with a zero count. |
| Client.Scheduler.OnContainer | client/client.go:195-236 | A received container increments the counter and clears the idle flag. The logged lifetime is die minus start. Its result map is written out triple by triple, as `SplitResults` states. |
| Client.Scheduler.OnIdleTimeout | client/client.go:237-241 | A timeout logs the idle message iff the loop was not idle already, then sets the idle flag. The count is unchanged and the log count grows by exactly that message. |
| Results.ReadHeaderFields | aggregate/results.go:153-164 | The header is `timestamp`, `value`, then label names of the set in strictly ascending order. Its length is 2 plus the number of labels. |
| Results.ReadLabelValues | aggregate/results.go:166-180 | The row is the timestamp, the value, then, in column i ≥ 2, the value of the label that the header of the same label set names in column i. Its length is 2 plus the number of labels. |
| Results.RowRoundTrip | aggregate/results.go:153-180 | Header and row have equal width. Reading the row under its own header gives back the timestamp, the value and exactly the label map. |
| Results.HeaderNamesAll | aggregate/results.go:156-162 | The label columns of a header are exactly the label names of the set. |
| Results.HeaderDeterminedByNames | aggregate/results.go:153-164 | Two label sets have the same header iff they have the same label names. |
| Results.GetFileNameParts | aggregate/results.go:149-151 | `GetFileName(folder, id)` is `folder + "/" + id + ".csv"`, and folder and id can be read back from it. |
| Results.OutputPathShape | aggregate/results.go:71-82 | A triple's file is `results/<target>/<dataSource>/<queryName>/<queryName>.csv`, which is `GetFileName` of its query folder. |
| Results.OutputPathInjective | aggregate/results.go:71-82 | When no name contains `/`, two triples share a file iff they are the same triple. |
| Results.SlashedNamesCollide | aggregate/results.go:71-82 | With a `/` inside a name, two different triples write to the same file. |
| Results.MatrixWritesCount | aggregate/results.go:84-95 | A triple receives one write per sample across all its vectors. |
| Results.FreshTripleFile | aggregate/results.go:84-95 | A triple's file written from empty holds one header and one data row per sample, or nothing when there are no samples. |
| Results.WriteTriplesElsewhere | aggregate/results.go:69-98 | A file that none of the visited triples maps to is unchanged. |
| Results.TripleFileContents | aggregate/results.go:69-98 | With slash-free names and distinct triples, each visited triple's file is what it held before followed by that triple's writes. |
| Results.Disk.CreateOutputFolder | aggregate/results.go:128-136 | The folder is present afterwards and nothing else changes, so a second call is a no-op. |
| Results.Disk.CreateFile | aggregate/results.go:138-146 | The path opened is `<path>/<fileName>`. The file is created empty only when missing, and nothing else changes. |
| Results.Disk.WriteToCSV | aggregate/results.go:103-125 | Only the target file changes, by one header-if-empty write of the sample's header and row. |
| Results.Disk.WriteVector | aggregate/results.go:85-95 | The query file gains the writes of the vector's samples in order. Nothing else changes. |
| Results.Disk.WriteVectors | aggregate/results.go:84-96 | The query file gains the writes of every sample of every vector in order. Nothing else changes. |
| Results.Disk.WriteQuery | aggregate/results.go:78-96 | The query folder is created, and the triple's file gains its writes. |
| Results.Disk.WriteSource | aggregate/results.go:74-97 | Every query name of the data source is visited once, its file written, and its folder and the source folder created. |
| Results.Disk.WriteTarget | aggregate/results.go:69-98 | Every (data source, query name) of the target is visited once, with the target, source and query folders created. |
| Results.Disk.CreateMonitoringOutput | aggregate/results.go:59-101 | Every triple of the map is visited exactly once. The files become the writes of those triples in visiting order. The folders added are `results` plus each target, source and query folder of the map. |

## Left out

- Docker, Prometheus and the filesystem as services:
  - the Docker client (`Events`, `ContainerInspect`) and the stats streamers `getContainerStats`/`getContainerStatsManual`;
  - the Prometheus HTTP client, `NewConfig`/`NewFetchClient`, and YAML loading.

  Their results are parameters: an inspection value, a backend function, an already-parsed configuration.
- Concurrency: goroutines, `sync.WaitGroup`, mutexes, channels, and the 10 s/12 s timeouts. Every fan-out is a sequential loop. The 12 s timeout of the older fetch and its "prometheus query timeout" error are not modelled.
- `Watcher.EventWatcher.ProcessContainerEvent`: on a die whose PID is missing, the source returns while holding the mutex (watcher/container.go:111-117 and 129-134). This would block every later event, and the model does not capture it: the next event is processed normally.
- `Results.Disk.WriteVector`:
  - The source writes each sample from its own goroutine under a mutex, so the samples of a file can land in any order. The model writes them in vector order, which is one of the possible orders.
  - `CreateMonitoringOutput` returns without waiting for these goroutines.
- Time formatting and parsing:
  - `time.Parse` of RFC 3339 strings and `Duration.String()` are not modelled. Times are integers, and the died row's lifetime cell is the decimal lifetime in milliseconds.
  - `timestamp.String()` and `%f` are not modelled. The sample's timestamp and value are opaque cells.
- CSV quoting of `encoding/csv` (RFC 4180): rows are sequences of fields.
- Errors of `os.Mkdir`, `os.OpenFile`, `Stat` and `MkdirAll` are not modelled. Folder and file creation always succeed.
- Type assertions on the configuration that panic on a malformed tree (client/targets.go:65-67) are not modelled. A missing or non-string `query` and a missing `metrics` list are modelled.
- `Client.Scheduler.OnContainer`:
  - `StartMonitoring` is not part of this model. The merged result map is a parameter, and the panic on its error is left out.
  - `NewDataVectorWrapper` is called at client/client.go:219-225 with its two arguments in the other order than aggregate/results.go:21 declares. The model's wrapper holds the one-triple map and an empty vector.
- `Client.LegacyFetch`: after a query error, the source goroutine goes on to the cast and queues a second error. Only the first error reaches the caller, and that is what the model returns.
- `Collect.FetchSource` and `Collect.FirstOkIsFirst`: the source runs each fetch of a list in its own goroutine (client/collect.go:69-74) and stores whatever arrives first under the mutex (client/collect.go:96-109). So when several entries of one list share a query name, the stored result is that of whichever successful fetch finishes first. The model fetches in list order, which is one of the orders the source can produce; the result it stores is the first success in list order.
- `Collect.FetchMonitoringSources`: when several targets list a data source of the same name, its meta information comes from whichever of them the map iteration visits last. The contract states only that it comes from one of them.
- `Results.OutputPathInjective` holds only for names without `/`. `Results.SlashedNamesCollide` shows two triples sharing a file otherwise.
- Commented-out code is not modelled, and neither are `GetFileIdentifier`/`GetTimeStamp` (aggregate/results.go:191-197).
- Logging is not modelled.
- `main.go`, `aggregate/aggregate.go`, `aggregate/aggegator.go`, `watcher/nextflow.go` and `client/api.go` are not part of this model.
