/**
 * Creating a PASIR ticket classification and fetching its tickets: the checks `create`
 * makes before anything is created, the job and the database row it creates, and the
 * zero-ticket branch of `fetch_and_classify`. The tickets fetched from the ticket database
 * and the id the database assigns are parameters.
 */
module PasirJobs {
  import opened Wrappers
  import opened Entities
  import opened Tickets
  import Paths
  import Pasir
  import Store

  const PasirTitle: string := "PASIR"
  const Prefix: string := "Cannot create new PasirTicketClassification"

  /** The `TypeError` Python raises when `%` gets fewer values than the format has `%s`. */
  const FormatArgumentsError: string := "not enough arguments for format string"

  /**
   * The checks of `create`, as written: the title message is formatted with a list, which
   * `%` takes as a single value for its two `%s`, so a wrong title raises `TypeError` instead.
   * A timestamp is `Some(str(dt))` for a datetime and `None` for anything else.
   */
  function CreateCheckAsWritten(fromTimestamp: Option<string>, toTimestamp: Option<string>,
                                classifier: Option<ClassifierRecord>): Outcome
  {
    if fromTimestamp.None? then Fail(Prefix + ", from_timestamp must be of type datetime")
    else if toTimestamp.None? then Fail(Prefix + ", to_timestamp must be of type datetime")
    else if classifier.None? then Fail(Prefix + " without specifying the classifier")
    else if !classifier.value.row.enabled then Fail(Prefix + ", classifier is not enabled: " + classifier.value.Uid())
    else if classifier.value.row.title != PasirTitle then Fail(FormatArgumentsError)
    else Pass
  }

  /** The message the title check evidently means to raise. */
  function TitleMessage(title: string, uid: Uid): string {
    Prefix + ", classifier title is \"" + title + "\", expected \"PASIR\": " + uid
  }

  /** The checks of `create` with the title message formatted from the tuple (title, uid). */
  function CreateCheck(fromTimestamp: Option<string>, toTimestamp: Option<string>,
                       classifier: Option<ClassifierRecord>): (o: Outcome)
    ensures o.Pass? <==>
      fromTimestamp.Some? && toTimestamp.Some? && classifier.Some? &&
      classifier.value.row.enabled && classifier.value.row.title == PasirTitle
    ensures fromTimestamp.None? ==> o == Fail(Prefix + ", from_timestamp must be of type datetime")
    ensures fromTimestamp.Some? && toTimestamp.None? ==> o == Fail(Prefix + ", to_timestamp must be of type datetime")
    ensures fromTimestamp.Some? && toTimestamp.Some? && classifier.None? ==>
      o == Fail(Prefix + " without specifying the classifier")
    ensures fromTimestamp.Some? && toTimestamp.Some? && classifier.Some? && !classifier.value.row.enabled ==>
      o == Fail(Prefix + ", classifier is not enabled: " + classifier.value.Uid())
    // every refusal but the three parameter checks names the classifier's uid at its end
    ensures o.Fail? && fromTimestamp.Some? && toTimestamp.Some? && classifier.Some? ==>
      Paths.EndsWith(o.message, classifier.value.Uid())
  {
    if fromTimestamp.None? then Fail(Prefix + ", from_timestamp must be of type datetime")
    else if toTimestamp.None? then Fail(Prefix + ", to_timestamp must be of type datetime")
    else if classifier.None? then Fail(Prefix + " without specifying the classifier")
    else if !classifier.value.row.enabled then
      var m := Prefix + ", classifier is not enabled: " + classifier.value.Uid();
      EndsWithSuffix(Prefix + ", classifier is not enabled: ", classifier.value.Uid());
      Fail(m)
    else if classifier.value.row.title != PasirTitle then
      EndsWithSuffix(Prefix + ", classifier title is \"" + classifier.value.row.title + "\", expected \"PASIR\": ",
                     classifier.value.Uid());
      Fail(TitleMessage(classifier.value.row.title, classifier.value.Uid()))
    else Pass
  }

  lemma EndsWithSuffix(a: string, b: string)
    ensures Paths.EndsWith(a + b, b)
  {
    assert (a + b)[|a + b| - |b|..] == b;
  }

  /**
   * As written, a classifier with the wrong title is refused with a `TypeError` that names
   * neither the title nor the uid; the corrected check names both. Both agree everywhere else.
   */
  lemma TitleCheckFinding(fromTimestamp: string, toTimestamp: string, c: ClassifierRecord)
    requires c.row.enabled && c.row.title != PasirTitle
    ensures CreateCheckAsWritten(Some(fromTimestamp), Some(toTimestamp), Some(c)) == Fail(FormatArgumentsError)
    ensures CreateCheck(Some(fromTimestamp), Some(toTimestamp), Some(c)) == Fail(TitleMessage(c.row.title, c.Uid()))
    ensures CreateCheckAsWritten(Some(fromTimestamp), Some(toTimestamp), Some(c)) !=
            CreateCheck(Some(fromTimestamp), Some(toTimestamp), Some(c))
  {
    var m := TitleMessage(c.row.title, c.Uid());
    assert m[0] == Prefix[0] == 'C';
    assert FormatArgumentsError[0] == 'n';
  }

  lemma ChecksAgreeOtherwise(fromTimestamp: Option<string>, toTimestamp: Option<string>, classifier: Option<ClassifierRecord>)
    requires !(fromTimestamp.Some? && toTimestamp.Some? && classifier.Some? &&
               classifier.value.row.enabled && classifier.value.row.title != PasirTitle)
    ensures CreateCheckAsWritten(fromTimestamp, toTimestamp, classifier) == CreateCheck(fromTimestamp, toTimestamp, classifier)
  {
  }

  /**
   * A PASIR classification with what the Python object also holds: its job context and its
   * classifier. The job's progress listener is the classification.
   */
  class PasirJob {
    const classification: Pasir.PasirTicketClassification
    const job: Store.JobContext
    const classifier: Store.Classifier

    constructor (classification: Pasir.PasirTicketClassification, job: Store.JobContext, classifier: Store.Classifier)
      ensures this.classification == classification && this.job == job && this.classifier == classifier
    {
      this.classification := classification;
      this.job := job;
      this.classifier := classifier;
    }

    /** The job reports to the classification, and both use the job's work directory. */
    predicate Wired()
      reads this, job
    {
      job.aux == classification && classification.workDir == job.workDir
    }
  }

  /**
   * `create`: the checks, then a new job for the classifier, the CLASSR_TICKETCLASSIFICATION
   * row (whose id `dbId` the database assigns), and the classification hooked to the job.
   * `definedOn` is the default of `created_on`, which Python evaluates once, when the class
   * is defined.
   */
  method Create(store: Store.EntityStore, classifier: Store.Classifier?, clientId: string, dataSource: string,
                fromTimestamp: Option<string>, toTimestamp: Option<string>,
                db: Pasir.PasirDatabase, gate: Pasir.Semaphore, fs: Pasir.CsvFiles, dbId: int, definedOn: string,
                jobUid: Uid, stamp: string, now: string, secureDirName: string, jobSaveOk: bool)
    returns (r: Result<PasirJob>)
    requires store.Valid()
    modifies store, db
    ensures store.Valid() && store.OnlyJobsChanged()
    ensures db.inserted == old(db.inserted)
    ensures var check := CreateCheck(fromTimestamp, toTimestamp, if classifier == null then None else Some(classifier.Record()));
      check.Fail? ==> r == Err(check.message) && store.jobs == old(store.jobs) && db.log == old(db.log)
    ensures var check := CreateCheck(fromTimestamp, toTimestamp, if classifier == null then None else Some(classifier.Record()));
      check.Pass? && !jobSaveOk ==> r.Err? && store.jobs == old(store.jobs) && db.log == old(db.log)
    ensures r.Ok? <==>
      CreateCheck(fromTimestamp, toTimestamp, if classifier == null then None else Some(classifier.Record())).Pass? &&
      jobSaveOk
    ensures r.Ok? ==>
      var h := r.value;
      fresh(h) && fresh(h.job) && fresh(h.classification) && h.Wired() && h.classifier == classifier &&
      h.job.Row() == JobRow(jobUid, stamp + "-" + jobUid, now, classifier.uid, "Scheduled", 0, "") &&
      h.job.uid in store.jobs &&
      h.classification.classificationId == dbId && h.classification.ticketCount == None &&
      h.classification.classifierUid == classifier.uid &&
      h.classification.clientId == clientId && h.classification.dataSource == dataSource &&
      h.classification.fromTimestamp == fromTimestamp.value && h.classification.toTimestamp == toTimestamp.value &&
      h.classification.createdOn == definedOn &&
      h.classification.db == db && h.classification.gate == gate && h.classification.fs == fs &&
      db.log == old(db.log) +
        [Pasir.Registered(classifier.uid, jobUid, clientId, dataSource, fromTimestamp.value, toTimestamp.value,
                          "Ready to fetch tickets", 0)]
  {
    var check := CreateCheck(fromTimestamp, toTimestamp, if classifier == null then None else Some(classifier.Record()));
    if check.Fail? {
      return Err(check.message);
    }
    var job, o := Store.JobContext.Create(store, classifier.uid, jobUid, stamp, now, secureDirName, jobSaveOk);
    if o.Fail? {
      return Err(o.message);
    }
    db.Execute(Pasir.Registered(classifier.uid, job.uid, clientId, dataSource, fromTimestamp.value, toTimestamp.value,
                                "Ready to fetch tickets", 0));
    var instance := new Pasir.PasirTicketClassification(dbId, classifier.uid, clientId, dataSource,
      fromTimestamp.value, toTimestamp.value, definedOn, job.workDir, db, gate, fs);
    job.aux := instance;
    var h := new PasirJob(instance, job, classifier);
    return Ok(h);
  }

  /** `<work_dir>/tickets.csv`, where the fetched tickets are saved. */
  function InCsv(job: Store.JobContext): string {
    Paths.Join(job.workDir, "tickets.csv")
  }

  /**
   * The fetching half of `fetch_and_classify`: 'Fetching tickets' at 1 percent, the count
   * kept on the classification, the tickets saved to `tickets.csv` and the count written.
   */
  method RecordTickets(h: PasirJob, tickets: seq<Ticket>)
    requires h.Wired()
    modifies h.classification, h.classification.db, h.classification.gate, h.classification.fs
    ensures h.classification.ticketCount == Some(|tickets|)
    ensures var id := h.classification.classificationId;
      h.classification.db.log ==
        old(h.classification.db.log) + [Pasir.Progress(id, "Running", "Fetching tickets", 1), Pasir.TicketCount(id, |tickets|)]
    ensures h.classification.db.inserted == old(h.classification.db.inserted)
    ensures h.classification.fs.files == old(h.classification.fs.files)[InCsv(h.job) := tickets]
  {
    var c := h.classification;
    var _ := c.UpdateProgress(1, "Fetching tickets", "Progress");
    c.ticketCount := Some(|tickets|);
    c.fs.files := c.fs.files[InCsv(h.job) := tickets];
    c.db.Execute(Pasir.TicketCount(c.classificationId, |tickets|));
  }

  /**
   * The branch of `fetch_and_classify` with no tickets: the job is marked done (a failed
   * save is raised), then 'No tickets to classify' is reported, and nothing is classified.
   */
  method FinishWithoutTickets(h: PasirJob, store: Store.EntityStore, saveOk: bool) returns (r: Result<Option<Store.WorkItem>>)
    requires store.Valid() && h.Wired() && h.classification.ticketCount == Some(0)
    modifies h.classification.db, h.classification.gate, h.classification.fs, h.job, store
    ensures store.Valid()
    ensures h.Wired()
    ensures var id := h.classification.classificationId;
      h.classification.db.log == old(h.classification.db.log) +
        (if saveOk then [Pasir.Progress(id, "Done", "Done", 100), Pasir.Progress(id, "Done", "No tickets to classify", 100)]
         else [])
    ensures h.classification.db.inserted == old(h.classification.db.inserted)
    ensures h.classification.fs.files == old(h.classification.fs.files)
    ensures saveOk ==>
      r == Ok(None) && h.job.status == "Done" && h.job.progressPercentage == 100 && h.job.progressText == "Done"
    ensures !saveOk ==> r.Err?
  {
    var c := h.classification;
    var done := h.job.MarkDone(store, saveOk);
    if done.Fail? {
      return Err(done.message);
    }
    var _ := c.UpdateProgress(100, "No tickets to classify", "Done");
    return Ok(None);
  }

  /**
   * `fetch_and_classify`: reports 'Fetching tickets' to the classification directly, records
   * the ticket count, saves the tickets and writes the count; with no tickets the job is
   * marked done and 'No tickets to classify' is reported, and no classification starts;
   * otherwise the classifier's `classify` is called on the saved file.
   */
  method FetchAndClassify(h: PasirJob, store: Store.EntityStore, tickets: seq<Ticket>, saveOk: bool,
                          saveFault: Option<Store.InsertStep>) returns (r: Result<Option<Store.WorkItem>>)
    requires store.Valid() && h.Wired()
    modifies h.classification, h.classification.db, h.classification.gate, h.classification.fs
    modifies h.job, store, h.classifier
    ensures store.Valid()
    ensures h.Wired()
    ensures h.classification.ticketCount == Some(|tickets|)
    ensures var id := h.classification.classificationId;
      var fetching := [Pasir.Progress(id, "Running", "Fetching tickets", 1), Pasir.TicketCount(id, |tickets|)];
      h.classification.db.log == old(h.classification.db.log) + fetching +
        (if |tickets| == 0 && saveOk then
           [Pasir.Progress(id, "Done", "Done", 100), Pasir.Progress(id, "Done", "No tickets to classify", 100)]
         else [])
    ensures h.classification.db.inserted == old(h.classification.db.inserted)
    ensures h.classification.fs.files == old(h.classification.fs.files)[InCsv(h.job) := tickets]
    ensures |tickets| == 0 && saveOk ==>
      r == Ok(None) && h.job.status == "Done" && h.job.progressPercentage == 100 && h.job.progressText == "Done"
    ensures |tickets| == 0 && !saveOk ==> r.Err?
    ensures |tickets| > 0 && r.Ok? ==>
      r.value.Some? && r.value.value.job == h.job && r.value.value.modelType == h.classifier.modelType &&
      r.value.value.inCsv == InCsv(h.job) &&
      r.value.value.inDescCol == "DESCRIPTION" && r.value.value.inResCol == "RESOLUTION" &&
      r.value.value.outCsv == Paths.Join(h.job.workDir, "classified-tickets.csv") &&
      r.value.value.outClassCol == "TICKETCLASS"
    ensures |tickets| > 0 && old(h.classifier.saved) ==>
      (r.Ok? <==>
        h.classifier.enabled &&
        forall k :: k in h.classifier.resources ==> Store.Classifier.Findable(store, h.classifier.resources[k]))
  {
    var job := h.job;
    RecordTickets(h, tickets);
    if |tickets| == 0 {
      r := FinishWithoutTickets(h, store, saveOk);
      return;
    }
    var item := h.classifier.Classify(store, job, InCsv(job), "DESCRIPTION", "RESOLUTION",
                                      Paths.Join(job.workDir, "classified-tickets.csv"), "TICKETCLASS", saveFault);
    if item.Err? {
      return Err(item.message);
    }
    return Ok(Some(item.value));
  }
}
