/**
 * The bulk registered-model exporter of
 * mlflow_export_import/bulk/export_models.py: `_export_models` resolves the
 * selector, submits one export per model, partitions the outcomes into
 * `ok_models` / `failed_models` and builds the manifest; `export_models`
 * first has the experiments behind the models exported, then the models.
 *
 * The thread pool is a sequential map whose results come back in submission
 * order. The MLflow client, the single-model exporter and the experiment
 * exporter are parameters: the registry listing is a sequence of names, the
 * per-model export is a function returning `(success, name)`, and the
 * experiment-to-runs mapping is an input.
 */
module ExportModels {
  import opened Wrappers
  import opened Text
  import opened Selector
  import opened Outcomes

  /**
   * The pool size: `(os.cpu_count() or 4) if use_threads else 1`.
   * `cpuCount` is what `os.cpu_count()` returned (`None` when unknown);
   * Python's `or` also replaces a count of 0, which is falsy.
   */
  function MaxWorkers(useThreads: bool, cpuCount: Option<nat>): (n: nat)
    ensures n >= 1
    ensures !useThreads ==> n == 1
    ensures useThreads && cpuCount.Some? && cpuCount.value > 0 ==> n == cpuCount.value
    ensures useThreads && (cpuCount.None? || cpuCount.value == 0) ==> n == 4
  {
    if !useThreads then 1
    else match cpuCount
      case Some(k) => if k == 0 then 4 else k
      case None => 4
  }

  /** The opaque values the manifest copies from the environment. */
  datatype Environment = Environment(mlflowVersion: string, trackingUri: string, exportTime: string)

  /** The `"info"` section of `manifest.json` (the wall-clock `duration` is not modelled). */
  datatype Info = Info(
    mlflowVersion: string,
    trackingUri: string,
    exportTime: string,
    totalModels: nat,
    okModels: nat,
    failedModels: nat)

  /** The whole `manifest.json` record. */
  datatype Manifest = Manifest(
    info: Info,
    stages: Option<string>,
    notebookFormats: string,
    okModels: seq<string>,
    failedModels: seq<string>)

  /** The counts agree with the lists and every model is either ok or failed. */
  predicate Consistent(m: Manifest) {
    && m.info.okModels == |m.okModels|
    && m.info.failedModels == |m.failedModels|
    && m.info.totalModels == m.info.okModels + m.info.failedModels
  }

  /** The settings `ModelExporter` is constructed with. */
  datatype ExporterConfig = ExporterConfig(stages: Option<string>, notebookFormats: string, exportRun: bool)

  /** One `exporter.export_model(model, dir)` call handed to the pool. */
  datatype Submission = Submission(model: string, dir: string)

  /** What one `_export_models` call does, as far as it can be observed. */
  datatype ExportRun = ExportRun(
    poolSize: nat,
    models: seq<string>,
    exporter: ExporterConfig,
    submissions: seq<Submission>,
    manifestPath: string,
    manifest: Manifest)

  /** The outcomes the pool yields, one per model, in model order. */
  function ExportOutcomes(
    exporter: ExporterConfig,
    exportModel: (ExporterConfig, string, string) -> Outcome,
    models: seq<string>,
    outputDir: string): (results: seq<Outcome>)
    ensures |results| == |models|
    ensures forall i :: 0 <= i < |models| ==> results[i] == exportModel(exporter, models[i], PathJoin(outputDir, models[i]))
  {
    seq(|models|, i requires 0 <= i < |models| => exportModel(exporter, models[i], PathJoin(outputDir, models[i])))
  }

  /**
   * Lines 35-40: one export is submitted per model, in model order, and
   * the future of each is kept in the same order.
   */
  method Submit(
    exporter: ExporterConfig,
    exportModel: (ExporterConfig, string, string) -> Outcome,
    models: seq<string>,
    outputDir: string)
    returns (submissions: seq<Submission>, futures: seq<Outcome>)
    ensures |submissions| == |models|
    ensures forall i :: 0 <= i < |models| ==> submissions[i] == Submission(models[i], PathJoin(outputDir, models[i]))
    ensures |futures| == |models|
    ensures forall i :: 0 <= i < |models| ==> futures[i] == exportModel(exporter, submissions[i].model, submissions[i].dir)
  {
    submissions, futures := [], [];
    for k := 0 to |models|
      invariant |submissions| == |futures| == k
      invariant forall i :: 0 <= i < k ==> submissions[i] == Submission(models[i], PathJoin(outputDir, models[i]))
      invariant forall i :: 0 <= i < k ==> futures[i] == exportModel(exporter, submissions[i].model, submissions[i].dir)
    {
      var dir := PathJoin(outputDir, models[k]);
      submissions := submissions + [Submission(models[k], dir)];
      futures := futures + [exportModel(exporter, models[k], dir)];
    }
  }

  /**
   * An exporter that reports back the name it was given (as `export_model`
   * returns `(success, name)` for the model it exported) gives the same flag
   * to every submission of the same name, even when the selector repeats it.
   */
  lemma NameEchoingExporterAgrees(
    exporter: ExporterConfig,
    exportModel: (ExporterConfig, string, string) -> Outcome,
    models: seq<string>,
    outputDir: string)
    requires forall c, m, d :: exportModel(c, m, d).1 == m
    ensures SameNameSameFlag(ExportOutcomes(exporter, exportModel, models, outputDir))
  {
    var results := ExportOutcomes(exporter, exportModel, models, outputDir);
    forall i, j | 0 <= i < |results| && 0 <= j < |results| && results[i].1 == results[j].1
      ensures results[i].0 == results[j].0
    {
      assert models[i] == results[i].1 == results[j].1 == models[j];
    }
  }

  /**
   * Lines 41-45: the futures are read back in submission order and each
   * result's name is appended to `ok_models` when it succeeded and to
   * `failed_models` otherwise.
   */
  method Collect(futures: seq<Outcome>) returns (okModels: seq<string>, failedModels: seq<string>)
    ensures okModels == OkNames(futures) && failedModels == FailedNames(futures)
    ensures |okModels| + |failedModels| == |futures|
  {
    okModels, failedModels := [], [];
    for k := 0 to |futures|
      invariant okModels == OkNames(futures[..k])
      invariant failedModels == FailedNames(futures[..k])
    {
      assert futures[..k + 1][..k] == futures[..k];
      var result := futures[k];
      if result.0 {
        okModels := okModels + [result.1];
      } else {
        failedModels := failedModels + [result.1];
      }
    }
    assert futures[..|futures|] == futures;
    PartitionCounts(futures);
  }

  /**
   * `_export_models(models, output_dir, notebook_formats, stages, export_run, use_threads)`
   * (lines 20-67): resolve the selector against the registry listing, submit
   * one export per model, partition the outcomes and build the manifest that
   * is written to `<output_dir>/manifest.json`.
   */
  method ExportModelsToDir(
    selector: string,
    registered: seq<string>,
    outputDir: string,
    notebookFormats: string,
    stages: Option<string>,
    exportRun: bool,
    useThreads: bool,
    cpuCount: Option<nat>,
    env: Environment,
    exportModel: (ExporterConfig, string, string) -> Outcome)
    returns (run: ExportRun)
    ensures run.poolSize == MaxWorkers(useThreads, cpuCount)
    ensures run.models == Resolve(selector, registered)
    ensures run.exporter == ExporterConfig(stages, notebookFormats, exportRun)
    ensures |run.submissions| == |run.models|
    ensures forall i :: 0 <= i < |run.models| ==>
              run.submissions[i] == Submission(run.models[i], PathJoin(outputDir, run.models[i]))
    ensures run.manifestPath == PathJoin(outputDir, "manifest.json")
    ensures Consistent(run.manifest) && run.manifest.info.totalModels == |run.models|
    ensures var results := ExportOutcomes(run.exporter, exportModel, run.models, outputDir);
            run.manifest.okModels == OkNames(results) && run.manifest.failedModels == FailedNames(results)
    ensures run.manifest.stages == stages && run.manifest.notebookFormats == notebookFormats
    ensures run.manifest.info.mlflowVersion == env.mlflowVersion
    ensures run.manifest.info.trackingUri == env.trackingUri
    ensures run.manifest.info.exportTime == env.exportTime
  {
    var maxWorkers := MaxWorkers(useThreads, cpuCount);
    var models := Resolve(selector, registered);
    var exporter := ExporterConfig(stages, notebookFormats, exportRun);
    var submissions, futures := Submit(exporter, exportModel, models, outputDir);
    assert futures == ExportOutcomes(exporter, exportModel, models, outputDir);
    var okModels, failedModels := Collect(futures);
    var info := Info(env.mlflowVersion, env.trackingUri, env.exportTime,
                     |models|, |okModels|, |failedModels|);
    var manifest := Manifest(info, stages, notebookFormats, okModels, failedModels);
    run := ExportRun(maxWorkers, models, exporter, submissions, PathJoin(outputDir, "manifest.json"), manifest);
  }

  /**
   * The result of `get_experiments_runs_of_models`: experiment ids, each with
   * the run ids behind the models, in the dict's insertion order.
   */
  type ExperimentRuns = seq<(string, seq<string>)>

  /**
   * No experiment id appears twice, as for the keys of the Python dict that
   * `get_experiments_runs_of_models` returns.
   */
  predicate DistinctKeys(experimentRuns: ExperimentRuns) {
    forall i, j :: 0 <= i < j < |experimentRuns| ==> experimentRuns[i].0 != experimentRuns[j].0
  }

  /** `list(exps_and_runs.keys())` */
  function Keys(experimentRuns: ExperimentRuns): (ids: seq<string>)
    ensures |ids| == |experimentRuns|
    ensures forall i :: 0 <= i < |ids| ==> ids[i] == experimentRuns[i].0
  {
    if experimentRuns == [] then [] else [experimentRuns[0].0] + Keys(experimentRuns[1..])
  }

  /** The ids of a mapping whose keys are distinct repeat no id, so no experiment is exported twice. */
  lemma KeysDistinct(experimentRuns: ExperimentRuns)
    requires DistinctKeys(experimentRuns)
    ensures var ids := Keys(experimentRuns);
            forall i, j :: 0 <= i < j < |ids| ==> ids[i] != ids[j]
  {
  }

  /** What the experiment exporter is given: bare ids, or ids with the runs to export. */
  datatype ExperimentsArg = ExperimentIds(ids: seq<string>) | ExperimentsAndRuns(runs: ExperimentRuns)

  /** The experiment ids named by an `ExperimentsArg`, in order. */
  function ExperimentIdsOf(arg: ExperimentsArg): seq<string> {
    match arg
    case ExperimentIds(ids) => ids
    case ExperimentsAndRuns(runs) => Keys(runs)
  }

  /**
   * The arguments of the `export_experiments.export_experiments` call on
   * line 78; `thirdArgument` is the literal `True` passed positionally.
   */
  datatype ExperimentsCall = ExperimentsCall(
    experiments: ExperimentsArg,
    outputDir: string,
    thirdArgument: bool,
    notebookFormats: string,
    useThreads: bool)

  /**
   * Lines 73-78: which experiments are exported, and where. With
   * `export_all_runs` the exporter gets the bare ids (every run of each
   * experiment is exported); without it, the whole experiment-to-runs
   * mapping (only the runs behind the models).
   */
  function PlanExperiments(
    outputDir: string,
    notebookFormats: string,
    exportAllRuns: bool,
    useThreads: bool,
    experimentRuns: ExperimentRuns): (call: ExperimentsCall)
    ensures ExperimentIdsOf(call.experiments) == Keys(experimentRuns)
    ensures call.experiments.ExperimentIds? <==> exportAllRuns
    ensures !exportAllRuns ==> call.experiments == ExperimentsAndRuns(experimentRuns)
    ensures call.outputDir == PathJoin(outputDir, "experiments")
    ensures call.thirdArgument
    ensures call.notebookFormats == notebookFormats && call.useThreads == useThreads
  {
    var experiments := if exportAllRuns then ExperimentIds(Keys(experimentRuns)) else ExperimentsAndRuns(experimentRuns);
    ExperimentsCall(experiments, PathJoin(outputDir, "experiments"), true, notebookFormats, useThreads)
  }

  /**
   * The experiment exporter is handed the same experiment ids, in the same
   * order, whichever way `export_all_runs` is set.
   */
  lemma PlanExperimentIds(
    outputDir: string, notebookFormats: string, useThreads: bool, experimentRuns: ExperimentRuns)
    ensures var withAll := PlanExperiments(outputDir, notebookFormats, true, useThreads, experimentRuns);
            var behindModels := PlanExperiments(outputDir, notebookFormats, false, useThreads, experimentRuns);
            ExperimentIdsOf(withAll.experiments) == ExperimentIdsOf(behindModels.experiments) == Keys(experimentRuns)
  {
  }

  /**
   * `export_models(models, output_dir, notebook_formats, stages, export_all_runs, use_threads)`
   * (lines 72-79): the experiments behind the models are exported first
   * (into `<output_dir>/experiments`), then the models themselves into
   * `<output_dir>/models` with `export_run=False`, since their runs were
   * already exported with the experiments.
   */
  method ExportModelsWithExperiments(
    selector: string,
    registered: seq<string>,
    outputDir: string,
    notebookFormats: string,
    stages: Option<string>,
    exportAllRuns: bool,
    useThreads: bool,
    cpuCount: Option<nat>,
    env: Environment,
    experimentRuns: ExperimentRuns,
    exportModel: (ExporterConfig, string, string) -> Outcome)
    returns (experimentsCall: ExperimentsCall, run: ExportRun)
    ensures experimentsCall == PlanExperiments(outputDir, notebookFormats, exportAllRuns, useThreads, experimentRuns)
    ensures run.poolSize == MaxWorkers(useThreads, cpuCount)
    ensures run.models == Resolve(selector, registered)
    ensures run.exporter == ExporterConfig(stages, notebookFormats, false)
    ensures var modelsDir := PathJoin(outputDir, "models");
            && run.manifestPath == PathJoin(modelsDir, "manifest.json")
            && |run.submissions| == |run.models|
            && (forall i :: 0 <= i < |run.models| ==>
                  run.submissions[i] == Submission(run.models[i], PathJoin(modelsDir, run.models[i])))
            && var results := ExportOutcomes(run.exporter, exportModel, run.models, modelsDir);
               run.manifest.okModels == OkNames(results) && run.manifest.failedModels == FailedNames(results)
    ensures Consistent(run.manifest) && run.manifest.info.totalModels == |run.models|
    ensures run.manifest.stages == stages && run.manifest.notebookFormats == notebookFormats
    ensures run.manifest.info.mlflowVersion == env.mlflowVersion
    ensures run.manifest.info.trackingUri == env.trackingUri
    ensures run.manifest.info.exportTime == env.exportTime
  {
    experimentsCall := PlanExperiments(outputDir, notebookFormats, exportAllRuns, useThreads, experimentRuns);
    run := ExportModelsToDir(selector, registered, PathJoin(outputDir, "models"), notebookFormats, stages,
                             false, useThreads, cpuCount, env, exportModel);
  }
}
