/**
 * The model registry: `classify` launches the algorithm of a model type and turns every
 * exception into an `'Error'` report on the job; `train` does nothing. The external
 * classifier itself is a given `Run`: it raises, or returns after writing its output (or not).
 */
module ModelRegistry {
  import opened Wrappers
  import opened Tickets
  import Paths
  import Pasir
  import Store

  /** The only model type this server can run. */
  const Xgbm: string := "XGBM"

  /** The resource paths the XGBM classifier is called with. */
  datatype XgbmInputs = XgbmInputs(vocab: string, model: string, pvWeightsDir: string)

  /** What the external classifier does: it raises, or it returns, having written the output file or not. */
  datatype Run = Raises(message: string) | Returns(output: Option<seq<Ticket>>)

  function Unsupported(modelType: string): string {
    "Model type " + modelType + " is not supported by this server"
  }

  /**
   * The arguments of the XGBM call, evaluated in keyword order: `resources['vocab']`, then
   * `['model']`, then `['pv']`; a missing key raises `KeyError`, whose `str` is the quoted key.
   */
  function XgbmInputsOf(modelType: string, resources: map<string, string>): (r: Result<XgbmInputs>)
    ensures modelType != Xgbm ==> r == Err(Unsupported(modelType))
    ensures modelType == Xgbm && "vocab" !in resources ==> r == Err("'vocab'")
    ensures modelType == Xgbm && "vocab" in resources && "model" !in resources ==> r == Err("'model'")
    ensures modelType == Xgbm && "vocab" in resources && "model" in resources && "pv" !in resources ==>
      r == Err("'pv'")
    ensures r.Ok? <==> modelType == Xgbm && "vocab" in resources && "model" in resources && "pv" in resources
    ensures r.Ok? ==>
      r.value.vocab == Paths.Join(resources["vocab"], "vocab.txt") &&
      r.value.model == Paths.Join(resources["model"], "model.dat") &&
      r.value.pvWeightsDir == resources["pv"]
  {
    if modelType != Xgbm then Err(Unsupported(modelType))
    else if "vocab" !in resources then Err("'vocab'")
    else if "model" !in resources then Err("'model'")
    else if "pv" !in resources then Err("'pv'")
    else Ok(XgbmInputs(Paths.Join(resources["vocab"], "vocab.txt"), Paths.Join(resources["model"], "model.dat"),
                       resources["pv"]))
  }

  /** The CSV files once the classifier has returned, having written `output` or not. */
  function Written(files: map<string, seq<Ticket>>, outCsv: string, output: Option<seq<Ticket>>): map<string, seq<Ticket>> {
    if output.Some? then files[outCsv := output.value] else files
  }

  /** What the listener raises on hearing `mark_done`: a finishing report whose output file is missing. */
  function MissingOutput(aux: Pasir.PasirTicketClassification, files: map<string, seq<Ticket>>): (e: Option<string>)
    reads aux
    ensures e.Some? <==> Pasir.TriggersInsert(100, "Done", aux.ticketCount) && aux.OutCsv() !in files
    ensures e.Some? ==> e.value == "Classified tickets not found under " + aux.OutCsv()
  {
    if Pasir.TriggersInsert(100, "Done", aux.ticketCount) && aux.OutCsv() !in files then
      Some("Classified tickets not found under " + aux.OutCsv())
    else None
  }

  /** The exception raised inside the `try` before `mark_done`, if any. */
  function LaunchError(item: Store.WorkItem, run: Run): Option<string> {
    var inputs := XgbmInputsOf(item.modelType, item.resourcePaths);
    if inputs.Err? then Some(inputs.message)
    else if run.Raises? then Some(run.message)
    else None
  }

  /**
   * `classify`: runs the classifier of the model type and then `mark_done`; an exception
   * from either ends the job with `update_progress(100, str(e), 'Error')`, whose own failure
   * is the only one that escapes. Whatever happens, the job ends at 100 percent, either
   * `('Done', 'Done')` or `'Error'`.
   */
  method Classify(store: Store.EntityStore, item: Store.WorkItem, run: Run, fs: Pasir.CsvFiles,
                  doneSaveOk: bool, errorSaveOk: bool) returns (o: Outcome)
    requires store.Valid()
    requires item.job.aux != null ==> item.job.aux.fs == fs
    requires doneSaveOk && item.job.aux != null && Pasir.TriggersInsert(100, "Done", item.job.aux.ticketCount) ==>
      item.job.aux.gate.permits > 0
    modifies item.job, store, fs, item.job.AuxFrame()
    ensures store.Valid() && store.OnlyJobsChanged()
    ensures item.job.aux == old(item.job.aux)
    ensures item.job.progressPercentage == 100
    ensures item.job.status == "Done" || item.job.status == "Error"
    ensures item.job.status == "Done" ==> item.job.progressText == "Done" && LaunchError(item, run).None?
    ensures LaunchError(item, run).Some? ==>
      item.job.status == "Error" && item.job.progressText == LaunchError(item, run).value
    ensures item.modelType != Xgbm ==>
      item.job.status == "Error" && item.job.progressText == Unsupported(item.modelType)
    ensures LaunchError(item, run).Some? ==> fs.files == old(fs.files)
    ensures LaunchError(item, run).Some? && errorSaveOk ==>
      item.job.uid in store.jobs && store.jobs[item.job.uid].status == "Error" &&
      store.jobs[item.job.uid].percentage == 100 && store.jobs[item.job.uid].text == LaunchError(item, run).value
    ensures LaunchError(item, run).Some? && errorSaveOk && item.job.aux != null ==>
      var aux := item.job.aux;
      aux.db.log == old(aux.db.log) + [Pasir.Progress(aux.classificationId, "Error", LaunchError(item, run).value, 100)] &&
      aux.db.inserted == old(aux.db.inserted) && o == Pass
    ensures LaunchError(item, run).None? && doneSaveOk && item.job.aux == null ==>
      o == Pass && item.job.status == "Done" && item.job.uid in store.jobs && store.jobs[item.job.uid].status == "Done"
    ensures LaunchError(item, run).None? && !doneSaveOk ==>
      item.job.status == "Error" && item.job.progressText == old(item.job.SaveError(store))
    ensures LaunchError(item, run).None? && !doneSaveOk && errorSaveOk ==>
      item.job.uid in store.jobs && store.jobs[item.job.uid].status == "Error" &&
      store.jobs[item.job.uid].percentage == 100 && store.jobs[item.job.uid].text == old(item.job.SaveError(store))
    ensures errorSaveOk ==> o == Pass
    ensures LaunchError(item, run).None? && doneSaveOk && item.job.aux != null ==>
      var missing := MissingOutput(item.job.aux, Written(old(fs.files), item.outCsv, run.output));
      (item.job.status == "Error" <==> missing.Some?) &&
      (missing.Some? ==> item.job.progressText == missing.value)
  {
    var job := item.job;
    var failure := Attempt(store, item, run, fs, doneSaveOk);
    if failure.Some? {
      o := ReportError(store, job, failure.value, errorSaveOk);
    } else {
      o := Pass;
    }
  }

  /** The `except` branch of `classify`: the report ('Error', 100, the exception's text). */
  method ReportError(store: Store.EntityStore, job: Store.JobContext, text: string, saveOk: bool) returns (o: Outcome)
    requires store.Valid()
    modifies job, store, job.AuxFrame()
    ensures store.Valid() && store.OnlyJobsChanged()
    ensures job.aux == old(job.aux)
    ensures job.status == "Error" && job.progressPercentage == 100 && job.progressText == text
    ensures !saveOk ==> store.jobs == old(store.jobs)
    ensures saveOk ==>
      o == Pass && job.uid in store.jobs && store.jobs[job.uid].status == "Error" &&
      store.jobs[job.uid].percentage == 100 && store.jobs[job.uid].text == text
    ensures job.aux != null ==> job.aux.fs.files == old(job.aux.fs.files) && job.aux.ticketCount == old(job.aux.ticketCount)
    ensures saveOk && job.aux != null ==>
      var aux := job.aux;
      aux.db.log == old(aux.db.log) + [Pasir.Progress(aux.classificationId, "Error", text, 100)] &&
      aux.db.inserted == old(aux.db.inserted)
  {
    o := job.UpdateProgress(store, 100, text, "Error", saveOk);
  }

  /** The `try` block of `classify`: the classifier's call and `mark_done`; the result is the exception raised, if any. */
  method Attempt(store: Store.EntityStore, item: Store.WorkItem, run: Run, fs: Pasir.CsvFiles, doneSaveOk: bool)
    returns (failure: Option<string>)
    requires store.Valid()
    requires item.job.aux != null ==> item.job.aux.fs == fs
    requires doneSaveOk && item.job.aux != null && Pasir.TriggersInsert(100, "Done", item.job.aux.ticketCount) ==>
      item.job.aux.gate.permits > 0
    modifies item.job, store, fs, item.job.AuxFrame()
    ensures store.Valid() && store.OnlyJobsChanged()
    ensures item.job.aux == old(item.job.aux)
    ensures LaunchError(item, run).Some? ==>
      failure == LaunchError(item, run) && store.jobs == old(store.jobs) && fs.files == old(fs.files) &&
      (item.job.aux != null ==> unchanged(item.job.aux.db, item.job.aux.gate))
    ensures LaunchError(item, run).None? ==>
      item.job.status == "Done" && item.job.progressPercentage == 100 && item.job.progressText == "Done"
    ensures LaunchError(item, run).None? && !doneSaveOk ==>
      failure == Some(old(item.job.SaveError(store))) && store.jobs == old(store.jobs)
    ensures LaunchError(item, run).None? && doneSaveOk && item.job.aux == null ==>
      failure.None? && item.job.uid in store.jobs && store.jobs[item.job.uid].status == "Done"
    ensures LaunchError(item, run).None? && doneSaveOk && item.job.aux != null ==>
      failure == MissingOutput(item.job.aux, Written(old(fs.files), item.outCsv, run.output))
  {
    var inputs := XgbmInputsOf(item.modelType, item.resourcePaths);
    if inputs.Err? {
      return Some(inputs.message);
    }
    match run
    case Raises(m) =>
      failure := Some(m);
    case Returns(output) =>
      failure := Complete(store, item, output, fs, doneSaveOk);
  }

  /**
   * The classifier returned: whatever output it wrote is in place, and `mark_done` follows;
   * its failure is the exception `classify` then reports.
   */
  method Complete(store: Store.EntityStore, item: Store.WorkItem, output: Option<seq<Ticket>>, fs: Pasir.CsvFiles,
                  doneSaveOk: bool) returns (failure: Option<string>)
    requires store.Valid()
    requires item.job.aux != null ==> item.job.aux.fs == fs
    requires doneSaveOk && item.job.aux != null && Pasir.TriggersInsert(100, "Done", item.job.aux.ticketCount) ==>
      item.job.aux.gate.permits > 0
    modifies item.job, store, fs, item.job.AuxFrame()
    ensures store.Valid() && store.OnlyJobsChanged()
    ensures item.job.aux == old(item.job.aux)
    ensures item.job.status == "Done" && item.job.progressPercentage == 100 && item.job.progressText == "Done"
    ensures item.job.aux == null ==> (failure.None? <==> doneSaveOk)
    ensures item.job.aux == null ==>
      fs.files == if output.Some? then old(fs.files)[item.outCsv := output.value] else old(fs.files)
    ensures doneSaveOk ==> item.job.uid in store.jobs && store.jobs[item.job.uid].status == "Done"
    ensures !doneSaveOk ==> failure == Some(old(item.job.SaveError(store))) && store.jobs == old(store.jobs)
    ensures item.job.aux != null && !doneSaveOk ==> fs.files == Written(old(fs.files), item.outCsv, output)
    // the listener raises when the classification finishes without its output file
    ensures item.job.aux != null && doneSaveOk ==>
      failure == MissingOutput(item.job.aux, Written(old(fs.files), item.outCsv, output))
  {
    if output.Some? {
      fs.files := fs.files[item.outCsv := output.value];
    }
    var done := item.job.MarkDone(store, doneSaveOk);
    failure := if done.Fail? then Some(done.message) else None;
  }

  /** `train`: a hook with no algorithm behind it; it changes nothing. */
  method Train(job: Store.JobContext, modelType: string, meta: map<string, string>, resources: map<string, string>,
               inCsv: string, inDescCol: string, inResCol: string, inClassCol: string)
    ensures unchanged(job)
  {
  }
}
