/**
 * The API's handlers as far as they hold logic: the not-found guards of the JSON-RPC
 * methods, the checks of `job.place`, and `pasir.classify`, which picks the most recently
 * trained PASIR classifier and creates a ticket classification with it. Results are
 * returned as values instead of JSON text; a raised exception is an `Err` or a `Fail`.
 */
module Server {
  import opened Wrappers
  import opened Entities
  import opened Tickets
  import Paths
  import PyOrder
  import Pasir
  import Store
  import PasirJobs

  function ClassifierNotFound(uid: Uid): string { "Classifier " + uid + " not found" }
  function JobNotFound(uid: Uid): string { "Job " + uid + " not found" }
  function ResourceNotFound(uid: Uid): string { "Resource " + uid + " not found" }

  /** `classifier.get`: the stored classifier, or 'not found'. */
  method GetClassifier(store: Store.EntityStore, uid: Uid) returns (r: Result<ClassifierRecord>)
    requires store.Valid()
    ensures uid != "" ==>
      r == if uid in store.classifiers then Ok(store.ClassifierView(uid)) else Err(ClassifierNotFound(uid))
    ensures r.Err? <==> (if uid == "" then store.classifiers == map[] else uid !in store.classifiers)
    ensures r.Err? ==> r == Err(ClassifierNotFound(uid))
    ensures r.Ok? ==> r.value.Uid() in store.classifiers && r.value == store.ClassifierView(r.value.Uid())
  {
    var c := store.GetClassifier(uid);
    if c.None? {
      return Err(ClassifierNotFound(uid));
    }
    return Ok(c.value);
  }

  /** `classifier.delete`: 'not found', or the classifier's rows are deleted. */
  method DeleteClassifier(store: Store.EntityStore, uid: Uid) returns (o: Outcome)
    requires store.Valid()
    modifies store
    ensures store.Valid()
    ensures store.resources == old(store.resources) && store.jobs == old(store.jobs)
    ensures o.Fail? <==> (if uid == "" then old(store.classifiers) == map[] else uid !in old(store.classifiers))
    ensures o.Fail? ==> o == Fail(ClassifierNotFound(uid)) && store.Contents() == old(store.Contents())
    ensures o.Pass? && uid != "" ==>
      store.classifiers == old(store.classifiers) - {uid} &&
      (forall l :: l in store.links <==> l in old(store.links) && l.classifierUid != uid) &&
      (forall mk :: mk in store.meta <==> mk in old(store.meta) && mk.classifierUid != uid)
  {
    var r := store.GetClassifier(uid);
    if r.None? {
      return Fail(ClassifierNotFound(uid));
    }
    var c := new Store.Classifier(r.value, true);
    c.Remove(store);
    return Pass;
  }

  /** `classifier.enable` and `classifier.disable`: 'not found', or `set_enabled`. */
  method SetClassifierEnabled(store: Store.EntityStore, uid: Uid, value: bool, updateOk: bool) returns (o: Outcome)
    requires store.Valid()
    modifies store
    ensures store.Valid()
    ensures store.resources == old(store.resources) && store.links == old(store.links)
    ensures store.meta == old(store.meta) && store.jobs == old(store.jobs)
    ensures uid != "" && uid !in old(store.classifiers) ==>
      o == Fail(ClassifierNotFound(uid)) && store.classifiers == old(store.classifiers)
    ensures uid != "" && uid in old(store.classifiers) && !updateOk ==>
      o == Fail("Failed to update classifier " + uid + " as enabled=" + Store.PyBool(value)) &&
      store.classifiers == old(store.classifiers)
    ensures uid != "" && uid in old(store.classifiers) && updateOk ==>
      o == Pass && store.classifiers == old(store.classifiers)[uid := old(store.classifiers)[uid].(enabled := value)]
  {
    var r := store.GetClassifier(uid);
    if r.None? {
      return Fail(ClassifierNotFound(uid));
    }
    var c := new Store.Classifier(r.value, true);
    o := c.SetEnabled(store, value, updateOk);
  }

  /** What `job.get_status` answers. */
  datatype JobStatus = JobStatus(status: string, progressPercentage: int, progressText: string)

  /** `job.get_status`: the stored job's progress triple, or 'not found'. */
  method GetJobStatus(store: Store.EntityStore, uid: Uid) returns (r: Result<JobStatus>)
    ensures uid != "" ==> (r.Ok? <==> uid in store.jobs)
    ensures r.Err? ==> r == Err(JobNotFound(uid)) && (uid == "" ==> store.jobs == map[])
    ensures r.Ok? ==>
      exists u :: u in store.jobs && (uid != "" ==> u == uid) &&
        r.value == JobStatus(store.jobs[u].status, store.jobs[u].percentage, store.jobs[u].text)
  {
    var j := store.GetJob(uid);
    if j.None? {
      return Err(JobNotFound(uid));
    }
    ghost var u: Uid;
    if uid != "" {
      u := uid;
    } else {
      u :| u in store.jobs && store.jobs[u] == j.value;
    }
    return Ok(JobStatus(j.value.status, j.value.percentage, j.value.text));
  }

  /**
   * `job.delete`: 'not found', or the job row is deleted. `secureDirName` is
   * `secure_filename` of the stored `dir_name`, computed outside this model.
   */
  method DeleteJob(store: Store.EntityStore, uid: Uid, secureDirName: string) returns (o: Outcome)
    requires store.Valid()
    modifies store
    ensures store.Valid() && store.OnlyJobsChanged()
    ensures uid != "" ==> (o.Pass? <==> uid in old(store.jobs))
    ensures o.Fail? ==> o == Fail(JobNotFound(uid)) && store.jobs == old(store.jobs)
    ensures o.Pass? && uid != "" ==> store.jobs == old(store.jobs) - {uid}
  {
    var j := store.GetJob(uid);
    if j.None? {
      return Fail(JobNotFound(uid));
    }
    var job := new Store.JobContext(j.value.uid, j.value.dirName, j.value.createdOn, j.value.classifierUid,
                                    j.value.status, j.value.percentage, j.value.text, secureDirName);
    job.Remove(store);
    return Pass;
  }

  /** `resource.get`: the stored resource, or 'not found'. */
  method GetResource(store: Store.EntityStore, uid: Uid) returns (r: Result<Resource>)
    ensures uid != "" ==>
      r == if uid in store.resources then Ok(store.resources[uid]) else Err(ResourceNotFound(uid))
    ensures r.Err? ==> r == Err(ResourceNotFound(uid))
    ensures r.Ok? ==> r.value in store.resources.Values
  {
    var res := store.GetResource(uid);
    if res.None? {
      return Err(ResourceNotFound(uid));
    }
    return Ok(res.value);
  }

  /** `resource.delete`: 'not found', or `Resource.remove`, refused while a classifier depends on it. */
  method DeleteResource(store: Store.EntityStore, uid: Uid) returns (o: Outcome)
    requires store.Valid()
    modifies store
    ensures store.Valid() && store.OnlyResourcesChanged()
    ensures uid != "" && uid !in old(store.resources) ==>
      o == Fail(ResourceNotFound(uid)) && store.resources == old(store.resources)
    ensures uid != "" && uid in old(store.resources) && old(store.HasDependents(uid)) ==>
      o == Fail("Cannot delete resource " + uid + " because of existing dependencies") &&
      store.resources == old(store.resources)
    ensures uid != "" && uid in old(store.resources) && !old(store.HasDependents(uid)) ==>
      o == Pass && store.resources == old(store.resources) - {uid}
  {
    var res := store.GetResource(uid);
    if res.None? {
      return Fail(ResourceNotFound(uid));
    }
    o := store.RemoveResource(res.value);
  }

  const NotPermitted: string := "Classification not permitted on this API"

  /** A job placed by `job.place`: its uid, and the call handed to the pool. */
  datatype Placed = Placed(jobUid: Uid, work: Store.WorkItem)

  /**
   * `job.place` (POST): classification must be enabled, the classifier must exist, and the
   * (already secured) file name must end in '.csv' in any case, all before a job is created;
   * then the job is placed with the stored classifier.
   */
  method ClassifyTickets(store: Store.EntityStore, fs: Pasir.CsvFiles, enableClassification: bool,
                         classifierUid: Uid, filename: string, upload: seq<Ticket>,
                         inDescCol: string, inResCol: string, outClassCol: string,
                         jobUid: Uid, stamp: string, now: string, secureDirName: string, jobSaveOk: bool)
    returns (r: Result<Placed>)
    requires store.Valid()
    modifies store, fs
    ensures store.Valid()
    ensures store.resources == old(store.resources)
    ensures !enableClassification ==> r == Err(NotPermitted)
    ensures enableClassification && classifierUid !in old(store.classifiers) ==> r == Err("Unknown classifier uid")
    ensures enableClassification && classifierUid in old(store.classifiers) &&
            !Paths.EndsWith(Paths.Lower(filename), ".csv") ==>
      r == Err("Method only accepts CSV file")
    ensures !(enableClassification && classifierUid in old(store.classifiers) &&
              Paths.EndsWith(Paths.Lower(filename), ".csv")) ==>
      store.jobs == old(store.jobs) && fs.files == old(fs.files)
    ensures r.Ok? ==>
      enableClassification && classifierUid in old(store.classifiers) &&
      Paths.EndsWith(Paths.Lower(filename), ".csv") && jobSaveOk &&
      PlacedAs(r.value, classifierUid, filename, inDescCol, inResCol, outClassCol, jobUid) &&
      r.value.work.job.uid in store.jobs && fs.files == old(fs.files)[r.value.work.inCsv := upload]
    ensures classifierUid != "" ==>
      (r.Ok? <==> enableClassification && classifierUid in old(store.classifiers) &&
                  Paths.EndsWith(Paths.Lower(filename), ".csv") && jobSaveOk &&
                  old(Usable(store, store.ClassifierView(classifierUid))))
    ensures r.Ok? && classifierUid != "" ==> r.value.work.modelType == old(store.classifiers)[classifierUid].modelType
  {
    if !enableClassification {
      return Err(NotPermitted);
    }
    if classifierUid !in store.classifiers {
      return Err("Unknown classifier uid");
    }
    if !Paths.EndsWith(Paths.Lower(filename), ".csv") {
      return Err("Method only accepts CSV file");
    }
    var rec := store.GetClassifier(classifierUid);
    r := Place(store, fs, rec.value, classifierUid, filename, upload, inDescCol, inResCol, outClassCol,
               jobUid, stamp, now, secureDirName, jobSaveOk);
  }

  /** A stored classifier `classify` accepts: enabled, and every dependency found by `Resource.get`. */
  predicate Usable(store: Store.EntityStore, c: ClassifierRecord)
    reads store
  {
    c.row.enabled && forall k :: k in c.resources ==> Store.Classifier.Findable(store, c.resources[k])
  }

  /** A placed job is a new 'Scheduled' job whose work reads the upload and writes 'autolabeled.tickets.csv'. */
  predicate PlacedAs(p: Placed, classifierUid: Uid, filename: string, inDescCol: string, inResCol: string,
                     outClassCol: string, jobUid: Uid)
    reads p.work.job
  {
    var w := p.work;
    p.jobUid == jobUid && w.job.uid == jobUid && w.job.classifierUid == classifierUid &&
    w.job.status == "Scheduled" && w.job.progressPercentage == 0 &&
    w.inCsv == Paths.Join(w.job.workDir, filename) &&
    w.outCsv == Paths.Join(w.job.workDir, "autolabeled.tickets.csv") &&
    w.inDescCol == inDescCol && w.inResCol == inResCol && w.outClassCol == outClassCol
  }

  /**
   * The rest of `job.place`: a job for the requested uid, the upload saved in its work
   * directory, and `classify` of the stored classifier into 'autolabeled.tickets.csv' there.
   */
  method Place(store: Store.EntityStore, fs: Pasir.CsvFiles, rec: ClassifierRecord, classifierUid: Uid,
               filename: string, upload: seq<Ticket>, inDescCol: string, inResCol: string, outClassCol: string,
               jobUid: Uid, stamp: string, now: string, secureDirName: string, jobSaveOk: bool)
    returns (r: Result<Placed>)
    requires store.Valid()
    modifies store, fs
    ensures store.Valid() && store.resources == old(store.resources)
    ensures !jobSaveOk ==> r.Err? && store.jobs == old(store.jobs) && fs.files == old(fs.files)
    ensures r.Ok? <==> jobSaveOk && old(Usable(store, rec))
    ensures r.Ok? ==>
      PlacedAs(r.value, classifierUid, filename, inDescCol, inResCol, outClassCol, jobUid) &&
      r.value.work.job.uid in store.jobs && r.value.work.modelType == rec.row.modelType &&
      fs.files == old(fs.files)[r.value.work.inCsv := upload]
  {
    var job, o := Store.JobContext.Create(store, classifierUid, jobUid, stamp, now, secureDirName, jobSaveOk);
    if o.Fail? {
      return Err(o.message);
    }
    r := ClassifyUpload(store, fs, rec, job, filename, upload, inDescCol, inResCol, outClassCol);
  }

  /**
   * The tail of `job.place` once its job is saved: the upload goes to `<work_dir>/<filename>`,
   * then the stored classifier's `classify` writes 'autolabeled.tickets.csv' there.
   */
  method ClassifyUpload(store: Store.EntityStore, fs: Pasir.CsvFiles, rec: ClassifierRecord, job: Store.JobContext,
                        filename: string, upload: seq<Ticket>, inDescCol: string, inResCol: string,
                        outClassCol: string)
    returns (r: Result<Placed>)
    requires store.Valid()
    modifies store, fs
    ensures store.Valid() && store.resources == old(store.resources) && store.jobs == old(store.jobs)
    ensures fs.files == old(fs.files)[Paths.Join(job.workDir, filename) := upload]
    ensures r.Ok? <==> old(Usable(store, rec))
    ensures r.Ok? ==>
      var w := r.value.work;
      r.value.jobUid == job.uid && w.job == job && w.modelType == rec.row.modelType &&
      w.inCsv == Paths.Join(job.workDir, filename) && w.outCsv == Paths.Join(job.workDir, "autolabeled.tickets.csv") &&
      w.inDescCol == inDescCol && w.inResCol == inResCol && w.outClassCol == outClassCol
  {
    var classifier := new Store.Classifier(rec, true);
    var inCsv := Paths.Join(job.workDir, filename);
    fs.files := fs.files[inCsv := upload];
    var outCsv := Paths.Join(job.workDir, "autolabeled.tickets.csv");
    var item := classifier.Classify(store, job, inCsv, inDescCol, inResCol, outCsv, outClassCol, None);
    if item.Err? {
      return Err(item.message);
    }
    return Ok(Placed(job.uid, item.value));
  }

  /**
   * Eligible for `pasir.classify`: enabled and titled 'PASIR'. The `c.trained` of the test is
   * the bound method, which is always true, so untrained classifiers are not excluded.
   */
  predicate Eligible(c: ClassifierRecord) {
    c.row.enabled && c.row.title == PasirJobs.PasirTitle
  }

  /**
   * The selection loop of `pasir.classify`: the eligible classifier with the greatest
   * `finished_on` under Python 2's ordering, where `None` is below every string; among equal
   * ones the first in the list is kept, since only a strictly greater one replaces it.
   */
  method SelectFreshest(cs: seq<ClassifierRecord>) returns (f: Option<ClassifierRecord>)
    ensures f.None? <==> forall i :: 0 <= i < |cs| ==> !Eligible(cs[i])
    ensures f.Some? ==> Eligible(f.value) && f.value in cs
    ensures f.Some? ==> forall i :: 0 <= i < |cs| && Eligible(cs[i]) ==>
      !PyOrder.PyLess(f.value.row.finishedOn, cs[i].row.finishedOn)
    ensures f.Some? ==>
      exists k :: 0 <= k < |cs| && cs[k] == f.value &&
        forall i :: 0 <= i < k && Eligible(cs[i]) ==> PyOrder.PyLess(cs[i].row.finishedOn, f.value.row.finishedOn)
  {
    f := None;
    var at := 0;
    for i := 0 to |cs|
      invariant f.None? <==> forall j :: 0 <= j < i ==> !Eligible(cs[j])
      invariant f.Some? ==> 0 <= at < i && cs[at] == f.value && Eligible(f.value)
      invariant f.Some? ==> forall j :: 0 <= j < i && Eligible(cs[j]) ==>
        !PyOrder.PyLess(f.value.row.finishedOn, cs[j].row.finishedOn)
      invariant f.Some? ==> forall j :: 0 <= j < at && Eligible(cs[j]) ==>
        PyOrder.PyLess(cs[j].row.finishedOn, f.value.row.finishedOn)
    {
      var c := cs[i];
      if c.row.enabled && c.row.title == PasirJobs.PasirTitle {
        if f == None || PyOrder.PyLess(f.value.row.finishedOn, c.row.finishedOn) {
          if f.Some? {
            NewFreshest(cs, i, at, f.value);
          }
          f, at := Some(c), i;
        } else {
          PyOrder.PyLessTotal(f.value.row.finishedOn, c.row.finishedOn);
        }
        if f.Some? {
          PyOrder.PyLessIrreflexive(f.value.row.finishedOn);
        }
      }
    }
  }

  /** A strictly fresher classifier is above everything the old pick was at least as fresh as. */
  lemma NewFreshest(cs: seq<ClassifierRecord>, i: int, at: int, old_f: ClassifierRecord)
    requires 0 <= at < i < |cs|
    requires PyOrder.PyLess(old_f.row.finishedOn, cs[i].row.finishedOn)
    requires forall j :: 0 <= j < i && Eligible(cs[j]) ==> !PyOrder.PyLess(old_f.row.finishedOn, cs[j].row.finishedOn)
    ensures forall j :: 0 <= j < i && Eligible(cs[j]) ==>
      PyOrder.PyLess(cs[j].row.finishedOn, cs[i].row.finishedOn) &&
      !PyOrder.PyLess(cs[i].row.finishedOn, cs[j].row.finishedOn)
  {
    forall j | 0 <= j < i && Eligible(cs[j])
      ensures PyOrder.PyLess(cs[j].row.finishedOn, cs[i].row.finishedOn)
      ensures !PyOrder.PyLess(cs[i].row.finishedOn, cs[j].row.finishedOn)
    {
      var x, y, z := cs[j].row.finishedOn, old_f.row.finishedOn, cs[i].row.finishedOn;
      PyOrder.PyLessTotal(x, y);
      if PyOrder.PyLess(x, y) {
        PyOrder.PyLessTransitive(x, y, z);
      }
      if PyOrder.PyLess(z, x) {
        PyOrder.PyLessTransitive(x, z, x);
        PyOrder.PyLessIrreflexive(x);
      }
    }
  }

  /** What `pasir.classify` answers: the new CLASSR_TICKETCLASSIFICATION id and the job uid. */
  datatype Launched = Launched(classificationId: int, jobUid: Uid, classification: PasirJobs.PasirJob)

  /**
   * The classifier `pasir_classify` picks from `Classifier.get_all()`: none iff no stored
   * classifier is eligible; otherwise an eligible stored one whose `finished_on` is below no
   * other eligible one's.
   */
  method PickFreshest(store: Store.EntityStore) returns (f: Option<ClassifierRecord>)
    requires store.Valid()
    ensures f.None? <==> forall u :: u in store.classifiers ==> !Eligible(store.ClassifierView(u))
    ensures f.Some? ==>
      f.value.Uid() in store.classifiers && f.value == store.ClassifierView(f.value.Uid()) && Eligible(f.value)
    ensures f.Some? ==> forall u :: u in store.classifiers && Eligible(store.ClassifierView(u)) ==>
      !PyOrder.PyLess(f.value.row.finishedOn, store.classifiers[u].finishedOn)
  {
    var cs := store.AllClassifiers();
    f := SelectFreshest(cs);
    forall u | u in store.classifiers
      ensures exists k :: 0 <= k < |cs| && cs[k] == store.ClassifierView(u)
    {
      assert store.ClassifierView(u) in cs;
    }
  }

  /**
   * The tail of `pasir_classify` once a classifier is picked and both dates parse: the
   * classification is created for the picked classifier; only saving its job can fail.
   */
  method Launch(store: Store.EntityStore, picked: ClassifierRecord, clientId: string, dataSource: string,
                fromTimestamp: string, toTimestamp: string,
                db: Pasir.PasirDatabase, gate: Pasir.Semaphore, fs: Pasir.CsvFiles, dbId: int,
                definedOn: string, jobUid: Uid, stamp: string, now: string, secureDirName: string,
                jobSaveOk: bool)
    returns (r: Result<Launched>)
    requires store.Valid() && Eligible(picked)
    modifies store, db
    ensures store.Valid() && store.OnlyJobsChanged()
    ensures db.inserted == old(db.inserted)
    ensures r.Ok? <==> jobSaveOk
    ensures r.Err? ==> store.jobs == old(store.jobs) && db.log == old(db.log)
    ensures r.Ok? ==>
      var h := r.value.classification;
      r.value.classificationId == dbId && r.value.jobUid == jobUid && h.job.uid == jobUid && h.Wired() &&
      h.classifier.Record() == picked && h.classifier.uid == picked.Uid() &&
      db.log == old(db.log) +
        [Pasir.Registered(picked.Uid(), jobUid, clientId, dataSource, fromTimestamp, toTimestamp,
                          "Ready to fetch tickets", 0)]
  {
    var classifier := new Store.Classifier(picked, true);
    var created := PasirJobs.Create(store, classifier, clientId, dataSource, Some(fromTimestamp), Some(toTimestamp),
                                    db, gate, fs, dbId, definedOn, jobUid, stamp, now, secureDirName, jobSaveOk);
    if created.Err? {
      return Err(created.message);
    }
    var h := created.value;
    return Ok(Launched(h.classification.classificationId, h.job.uid, h));
  }

  /**
   * `pasir.classify`: picks the freshest eligible classifier (refusing when there is none),
   * parses both dates, and creates the ticket classification. `fromParsed` and `toParsed`
   * are what `strptime(date, '%Y-%m-%d')` gives: `str()` of the parsed date, or the
   * message of the `ValueError` it raises. Starting the
   * `fetch_and_classify` thread is left to the caller.
   */
  method PasirClassify(store: Store.EntityStore, clientId: string, dataSource: string,
                       fromParsed: Result<string>, toParsed: Result<string>,
                       db: Pasir.PasirDatabase, gate: Pasir.Semaphore, fs: Pasir.CsvFiles, dbId: int,
                       definedOn: string, jobUid: Uid, stamp: string, now: string, secureDirName: string,
                       jobSaveOk: bool)
    returns (r: Result<Launched>)
    requires store.Valid()
    modifies store, db
    ensures store.Valid() && store.OnlyJobsChanged()
    ensures db.inserted == old(db.inserted)
    ensures (forall u :: u in old(store.classifiers) ==> !Eligible(old(store.ClassifierView(u)))) ==>
      r == Err("No suitable PASIR classifier is available on this API") &&
      store.jobs == old(store.jobs) && db.log == old(db.log)
    ensures (exists u :: u in old(store.classifiers) && Eligible(old(store.ClassifierView(u)))) && fromParsed.Err? ==>
      r == Err(fromParsed.message) && store.jobs == old(store.jobs) && db.log == old(db.log)
    ensures (exists u :: u in old(store.classifiers) && Eligible(old(store.ClassifierView(u)))) &&
            fromParsed.Ok? && toParsed.Err? ==>
      r == Err(toParsed.message) && store.jobs == old(store.jobs) && db.log == old(db.log)
    // once a classifier is picked and both dates parse, only saving the job can fail
    ensures r.Ok? <==>
      (exists u :: u in old(store.classifiers) && Eligible(old(store.ClassifierView(u)))) &&
      fromParsed.Ok? && toParsed.Ok? && jobSaveOk
    ensures r.Ok? ==>
      var h := r.value.classification;
      r.value.classificationId == dbId && r.value.jobUid == jobUid && h.job.uid == jobUid && h.Wired() &&
      Eligible(h.classifier.Record()) && h.classifier.uid in old(store.classifiers) &&
      var picked := h.classifier.uid;
      h.classifier.Record() == old(store.ClassifierView(picked)) &&
      (forall u :: u in old(store.classifiers) && Eligible(old(store.ClassifierView(u))) ==>
        !PyOrder.PyLess(h.classifier.finishedOn, old(store.classifiers)[u].finishedOn)) &&
      db.log == old(db.log) +
        [Pasir.Registered(h.classifier.uid, jobUid, clientId, dataSource, fromParsed.value, toParsed.value,
                          "Ready to fetch tickets", 0)]
  {
    var freshest := PickFreshest(store);
    if freshest.None? {
      return Err("No suitable PASIR classifier is available on this API");
    }
    if fromParsed.Err? {
      return Err(fromParsed.message);
    }
    if toParsed.Err? {
      return Err(toParsed.message);
    }
    r := Launch(store, freshest.value, clientId, dataSource, fromParsed.value, toParsed.value,
                db, gate, fs, dbId, definedOn, jobUid, stamp, now, secureDirName, jobSaveOk);
  }
}
