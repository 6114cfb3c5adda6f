# Bulk registered-model export: a Dafny model

This project models the bookkeeping of the bulk registered-model exporter of
mlflow-export-import (`mlflow_export_import/bulk/export_models.py`), the tool
that copies MLflow registered models, and the experiments and runs behind
them, out of a tracking server into a directory tree.

What is modelled:

- **Selector resolution** (`Selector`). The `--models` string becomes a list
  of registered-model names. `"all"` gives the names returned by one
  `list_registered_models()` call. A
  string ending in `*` gives the listed names that start with the text before
  the `*`. Anything else is split on `,`. The registry listing is an input
  sequence of names, in the order the server lists them.
- **Python string helpers** (`Text`): `startswith`, `split`/`join` on one
  character, and POSIX `os.path.join`.
- **Outcome partition** (`Outcomes`). Each model export yields a
  `(success, name)` pair. The pairs are split into `ok_models` and
  `failed_models`, both in submission order.
- **The exporter run** (`ExportModels`). This covers the pool-size choice,
  the submit loop and the collect loop (as methods with loop invariants), and
  the `manifest.json` record with its counts. It also covers the export plan
  of `export_models`: the arguments of the experiment-export call, and the
  model export with `export_run=False`.

The thread pool is a sequential map. Futures are created and read back in
submission order, so results come out in model order. The pool size is
computed and recorded, but nothing else depends on it. `ExportModelsToDir`
fixes every manifest field without reference to `use_threads` or the CPU
count. So in this model, exporting with and without threads gives the same
manifest.

Collaborators whose code is not part of this model are parameters:

- `ModelExporter.export_model` is a function `(config, model, dir) -> (success, name)`.
- `client.list_registered_models()` is the `registered` sequence.
- `get_experiments_runs_of_models` is its result, an ordered
  experiment-id → run-ids association list (a Python dict keeps insertion order).
- `mlflow.__version__`, `mlflow.get_tracking_uri()` and `utils.get_now_nice()`
  are opaque strings in `Environment`.

## Model

| member | source | states |
|---|---|---|
| `Selector.Resolve` | mlflow_export_import/bulk/export_models.py:23-29 | `"all"` yields the listing; a `*` selector yields at most as many names as are listed, each listed and starting with the text before the `*`, and every such listed name; any other selector yields one name more than its commas, and joining them with `,` gives the selector back |
| `Selector.ResolveAll` | mlflow_export_import/bulk/export_models.py:23-24 | `"all"` is tested first and yields exactly the registry listing, in listing order |
| `Selector.ResolvePrefix` | mlflow_export_import/bulk/export_models.py:25-27 | a selector ending in `*` yields a subsequence of the listing (listing order kept) holding every copy of each listed name that starts with the text before the `*` and nothing else; membership holds iff the name is listed and has the prefix |
| `Selector.ResolveStarAlone` | mlflow_export_import/bulk/export_models.py:25-27 | `"*"` alone yields every listed name |
| `Selector.ResolveCommaList` | mlflow_export_import/bulk/export_models.py:28-29 | any other selector yields one name more than it has commas, no name contains a comma, and joining the names with `,` gives the selector back |
| `Selector.ResolveLiteralNames` | mlflow_export_import/bulk/export_models.py:28-29 | conversely, a comma-joined list of comma-free names (not `"all"`, not ending in `*`) resolves to exactly those names, repeats kept and unchecked against the registry |
| `Selector.IsPrefixSelector` | mlflow_export_import/bulk/export_models.py:25 | `models.endswith("*")`: the selector is non-empty and its last character is `*` |
| `Selector.WithPrefix` | mlflow_export_import/bulk/export_models.py:27 | the prefix filter returns no more names than it is given, and a name is in the result iff it is in the listing and starts with the prefix |
| `Selector.WithPrefixIsSubsequence` | mlflow_export_import/bulk/export_models.py:27 | the prefix filter keeps the listing order |
| `Selector.WithPrefixCounts` | mlflow_export_import/bulk/export_models.py:27 | the prefix filter keeps every copy of a matching name and adds none |
| `Selector.WithPrefixConcat` | mlflow_export_import/bulk/export_models.py:27 | filtering a concatenated listing is concatenating the filtered parts |
| `Selector.WithEmptyPrefix` | mlflow_export_import/bulk/export_models.py:26-27 | an empty prefix keeps every name |
| `Text.StartsWith` | mlflow_export_import/bulk/export_models.py:27 | `name.startswith(prefix)` holds iff the prefix is no longer than the name and agrees with it character by character from the start |
| `Text.EndsWith` | mlflow_export_import/bulk/export_models.py:25 | `s.endswith(q)` holds iff `q` is no longer than `s` and agrees with its last `\|q\|` characters |
| `Text.Split` | mlflow_export_import/bulk/export_models.py:29 | `split(",")` yields one piece more than the separator count, none containing the separator |
| `Text.JoinSplit` | mlflow_export_import/bulk/export_models.py:29 | joining the pieces of a split gives the original string |
| `Text.SplitJoin` | mlflow_export_import/bulk/export_models.py:29 | splitting a join of separator-free pieces gives back the pieces |
| `Text.PathJoin` | mlflow_export_import/bulk/export_models.py:38 | `os.path.join(a, b)` is at least as long as `b` and at most one separator longer than `a` and `b` together |
| `Text.PathJoinParts` | mlflow_export_import/bulk/export_models.py:38 | `os.path.join(output_dir, model)` is exactly `model` when the name is absolute (the model directory then leaves `output_dir`), `output_dir + "/" + model` when the directory is non-empty and lacks a trailing `/`, and `output_dir + model` otherwise; hence it ends with the name and, for a relative name, starts with the directory |
| `Outcomes.OkNames` | mlflow_export_import/bulk/export_models.py:41-45 | the names appended to `ok_models` are no more than the results (see `OkNamesCounts` for which) |
| `Outcomes.FailedNames` | mlflow_export_import/bulk/export_models.py:41-45 | the names appended to `failed_models` are no more than the results (see `FailedNamesCounts` for which) |
| `Outcomes.OkNamesCounts` | mlflow_export_import/bulk/export_models.py:41-45 | `ok_models` holds each name exactly as often as a successful result reports it |
| `Outcomes.FailedNamesCounts` | mlflow_export_import/bulk/export_models.py:41-45 | `failed_models` holds each name exactly as often as a failed result reports it |
| `Outcomes.PartitionCounts` | mlflow_export_import/bulk/export_models.py:41-45 | `len(ok_models) + len(failed_models)` equals the number of results |
| `Outcomes.PartitionMultiset` | mlflow_export_import/bulk/export_models.py:41-45 | the two lists together hold every reported name exactly as often as it was reported |
| `Outcomes.PartitionMembership` | mlflow_export_import/bulk/export_models.py:41-45 | a name is in `ok_models` iff some result reports it with success true, and in `failed_models` iff some result reports it with success false |
| `Outcomes.PartitionExactlyOnce` | mlflow_export_import/bulk/export_models.py:41-45 | when results that report the same name agree on its flag (distinct names, or an exporter that echoes the submitted name, see `NameEchoingExporterAgrees`), each result's name is in `ok_models` iff it succeeded and in `failed_models` iff it failed |
| `Outcomes.PartitionConcat` | mlflow_export_import/bulk/export_models.py:41-45 | both lists keep submission order: partitioning a concatenation concatenates the partitions |
| `ExportModels.MaxWorkers` | mlflow_export_import/bulk/export_models.py:21 | the pool size is 1 without threads, the CPU count with threads, or 4 when the count is unknown (or 0); it is always at least 1 |
| `ExportModels.Submit` | mlflow_export_import/bulk/export_models.py:35-40 | one submission per model, in model order, each to `os.path.join(output_dir, model)`, and the i-th future is the export of the i-th submission |
| `ExportModels.ExportOutcomes` | mlflow_export_import/bulk/export_models.py:36-43 | the pool yields one outcome per model, the i-th being the export of the i-th model into `os.path.join(output_dir, model)`, in model order |
| `ExportModels.NameEchoingExporterAgrees` | mlflow_export_import/bulk/export_models.py:36-45 | with the exporter modelled as a deterministic function that reports back the name it was given, submissions of the same name (a selector such as `"m,m"`) all get the same success flag, so `PartitionExactlyOnce` applies to the pool's outcomes |
| `ExportModels.Collect` | mlflow_export_import/bulk/export_models.py:41-45 | the collect loop yields exactly the ok and failed partitions of the futures in submission order, and the two lengths add up to the number of futures |
| `ExportModels.ExportModelsToDir` | mlflow_export_import/bulk/export_models.py:20-67 | resolves the selector, uses the pool size above, submits one export per resolved model, and builds a manifest whose counts match its lists, whose total is the number of models, whose lists are the partition of the outcomes, and whose stages, notebook formats, version, URI and time echo the inputs; the manifest goes to `<output_dir>/manifest.json` |
| `ExportModels.Keys` | mlflow_export_import/bulk/export_models.py:74 | `list(exps_and_runs.keys())`: one id per mapping entry, in insertion order |
| `ExportModels.KeysDistinct` | mlflow_export_import/bulk/export_models.py:73-74 | when the mapping repeats no experiment id (as a dict's keys never do), `list(exps_and_runs.keys())` repeats none either |
| `ExportModels.PlanExperiments` | mlflow_export_import/bulk/export_models.py:73-78 | the experiment exporter gets the mapping's ids in order; bare ids iff `export_all_runs`, otherwise the whole mapping with its run ids; written under `<output_dir>/experiments`, with the literal `True`, the notebook formats and `use_threads` passed on |
| `ExportModels.PlanExperimentIds` | mlflow_export_import/bulk/export_models.py:73-78 | the experiment ids handed over are the same, in the same order, whichever way `export_all_runs` is set |
| `ExportModels.ExportModelsWithExperiments` | mlflow_export_import/bulk/export_models.py:72-79 | the experiments call is exactly the plan above; the model export is `_export_models` into `<output_dir>/models` with `export_run=False`: the same pool size, resolved models, submissions, partitioned outcome lists, consistent counts and echoed fields as `ExportModelsToDir` states |

## Left out

- Network and library calls are not modelled: the MLflow client, `ModelExporter.export_model`, `get_experiments_runs_of_models` and `export_experiments.export_experiments` become parameters, inputs or a recorded call.
- `ThreadPoolExecutor`: concurrency, scheduling and exceptions escaping a worker are not modelled. The pool is a sequential map whose results come back in submission order.
- Timing: `time.time()` and the rounded `duration` field are wall-clock floating point and are left out of the manifest.
- I/O: `print` output, `get_filesystem`, `mkdirs`, JSON serialisation, writing `manifest.json` and `write_export_manifest_file` (line 81). The model records the manifest value and its path only.
- `utils.string_to_list` (line 34) is not part of this model. The exporter configuration keeps the `notebook_formats` string as given.
- CLI wiring (the click options and `main`) is not modelled. `stages` is `Option<string>` because the CLI may pass `None`.
- A list passed as the selector is not modelled. `_export_models` only handles strings: a list is never equal to `"all"` and fails at `.endswith`. So an already-resolved list is not passed through unchanged by this file.
- With threads, the pool size is `os.cpu_count() or 4`, as the code has it, not the CPU count alone. A reported count of 0 is falsy and also falls back to 4.
- `ExportModels.ExportModelsWithExperiments`: the third positional argument of the experiment-export call (the literal `True`) is recorded, but its meaning is not modelled, because the callee is not part of this model.
- `ExportModels.ExportModelsWithExperiments`: the order of the two phases (the experiments exported before the models, lines 78-79) is not stated by any contract. The method returns both calls, not an ordered trace.
- `ExportModels.NameEchoingExporterAgrees`: it assumes that repeated exports of one name report the same flag, because the exporter is modelled as a deterministic function. The real exporter does not guarantee this: it calls the network and, with threads, runs the repeated exports concurrently into the same directory. A name can then land in both lists, which `Outcomes.OkNamesCounts` and `Outcomes.PartitionMembership` still describe correctly.
- `ExportModels.KeysDistinct`: the experiment-to-runs association list may repeat an id in the model. The dict returned by `get_experiments_runs_of_models` never does, and `DistinctKeys` states that when it is needed.
