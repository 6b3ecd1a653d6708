# PASIR ticket-classification server: a Dafny model

The PASIR server keeps a local store of text classifiers. A classifier is a model type and a title, the resources it depends on (vocabulary, model weights), and free-form meta entries. The server runs those classifiers over batches of incident tickets as jobs. Around the store sit:

- **replication**: fetching classifiers, and the resources they depend on, from a peer server;
- **autosync**: a background thread that replicates new classifiers of chosen model types;
- **autoclean**: a background thread that deletes finished jobs once they are old enough;
- the **PASIR ticket classification**: fetches tickets from a ticket database, classifies them, checks each classified row's data quality, and inserts the rows back in batches;
- the **model registry**: dispatches a model type to its algorithm and turns every failure into an `Error` job state;
- **the API handlers** that expose all of this.

This project models that core in Dafny and proves properties of the model.

- `Store.EntityStore` holds the five local tables as maps and a set: RESOURCE, CLASSIFIER, CLASSIFIER_RESOURCE, CLASSIFIER_META and JOB. Its `Valid()` invariant states the primary keys and the referential integrity between them.
- `Store.Classifier` and `Store.JobContext` are the objects whose attributes the source changes in place.
- Every timestamp, generated uid, and outcome from the database, the filesystem or the peer is a parameter. The peer is a catalogue of the answers its calls give.
- Python 2 semantics are written out:
  - integer division is floor division;
  - `None` sorts below every string;
  - `str(KeyError(k))` is the quoted key;
  - keyword arguments are evaluated in order.

Modules:

| module | models |
|---|---|
| `Wrappers` | `Option`, `Result`, and `Outcome` (an exception raised, or a normal return) |
| `Paths` | `sanitize_file_name`, two-argument `os.path.join`, ASCII `lower`, `endswith` |
| `PyOrder` | Python 2's `<` on strings and on `None` |
| `Entities` | table rows, and the pure views `get_all` assembles a classifier with |
| `Tickets` | the per-row data-quality rule, and the slicing of rows into insert batches |
| `Pasir` | `PasirTicketClassification` progress mapping and ticket insert, the insert semaphore, the ticket database as a statement log |
| `Store` | `store.py`: resources, classifiers, job contexts |
| `Replication` | `Remote.fetch_resource` and `Remote.fetch_classifier` |
| `Autosync`, `Autoclean` | the two background threads |
| `ModelRegistry` | `model_registry.classify` and `train` |
| `PasirJobs` | `PasirTicketClassification.create` and `fetch_and_classify` |
| `Server` | the JSON-RPC handlers, `classify_tickets`, and the freshest-classifier choice of `pasir_classify` |

## Model

| member | source | states |
|---|---|---|
| Paths.SanitizeFileName | store.py:79-81 | the result has the input's length and only allowed characters; each allowed character is kept in place, and every other character becomes '-' |
| Paths.SanitizeKeepsAllowed | store.py:79-81 | a name made only of allowed characters is returned unchanged |
| Paths.SanitizeIdempotent | store.py:79-81 | sanitising an already sanitised name changes nothing |
| Paths.Lower | server.py:137 | lower-casing keeps the length and maps each character on its own |
| PyOrder.StrLessIrreflexive | server.py:234 | no string is below itself under Python's string order |
| PyOrder.StrLessTransitive | server.py:234 | Python's string order is transitive |
| PyOrder.StrLessTotal | server.py:234 | any two distinct strings are ordered one way or the other |
| PyOrder.StrLessAsymmetric | server.py:234 | two strings are never each below the other |
| PyOrder.PyLessIrreflexive | server.py:234 | the order on `finished_on` values (None or a string) is irreflexive |
| PyOrder.PyLessTransitive | server.py:234 | the order on `finished_on` values is transitive |
| PyOrder.PyLessTotal | server.py:234 | the order on `finished_on` values is total, with None below every string |
| Entities.LinkRows | store.py:504-510 | `save` writes exactly one link row per resource key: every key's (uid, key, resource) row is there, and every row is the classifier's own and names a key with its resource |
| Entities.MetaRows | store.py:511-517 | `save` writes exactly one meta row per meta key: every key's row is there with its value, and every row is the classifier's own and names a meta key with its value |
| Entities.LinkedResources | store.py:436-441 | the rebuilt `resources` dict has a key exactly when a link row of that classifier has it, mapped to that row's resource |
| Entities.MetaOf | store.py:442-447 | the rebuilt `meta` dict holds exactly the meta rows of that classifier |
| Entities.LinkRowsKeepKeysUnique | store.py:504-510 | adding a new classifier's link rows keeps each (classifier, key) pair unique |
| Entities.LinksRoundTrip | store.py:436-441 | the link rows `save` writes are read back by `get_all` as exactly the saved `resources` dict |
| Entities.MetaRoundTrip | store.py:442-447 | the meta rows `save` writes are read back by `get_all` as exactly the saved `meta` dict |
| Store.ResourceDir | store.py:269 | a resource's directory name contains no '/', so it is one path component under the resources path, and its length is the type's plus the uid's plus one |
| Store.SaveRoundTrip | store.py:480-517 | inserting a new classifier whose resources exist keeps the tables valid, and `get` then assembles exactly that classifier |
| Store.SaveKeepsOtherViews | store.py:480-517 | inserting a new classifier leaves every classifier already stored reading back exactly as before |
| Store.EntityStore.AddResource | store.py:179-209 | an existing uid is refused; a failed insert changes nothing; otherwise exactly the new resource row is added |
| Store.EntityStore.AddResourceFromTargz | store.py:258-294 | the uid is checked as given before an empty one is replaced; an unreadable archive, an archive with no members and a failed extraction each raise their own error and change nothing; success adds one row in the resource's directory |
| Store.EntityStore.AddResourceFromFile | store.py:297-326 | the uid is generated first and then checked; a failed copy or insert raises the copy error; success adds one row |
| Store.EntityStore.RemoveResource | store.py:346-355 | refuses, changing nothing, exactly when a link row references the resource; otherwise the row is gone and nothing else changes |
| Store.EntityStore.GetResource | store.py:246-250 | a non-empty uid gives that row or None; the empty uid gives some row, or None when the table is empty |
| Store.EntityStore.AllClassifiers | store.py:391-451 | every stored classifier appears once, assembled from its rows and links |
| Store.EntityStore.ClassifierRows | store.py:406-423 | the `SELECT` of `get_all` yields every classifier row exactly once |
| Store.EntityStore.GetClassifier | store.py:453-457 | a non-empty uid gives the assembled classifier or None; the empty uid gives some stored classifier |
| Store.EntityStore.GetJob | store.py:687-690 | a non-empty uid gives that job row or None; the empty uid gives some row |
| Store.EntityStore.AllJobs | store.py:693-727 | every job row appears exactly once |
| Store.EntityStore.DeleteJob | store.py:749-750 | exactly that job row is deleted, and no other table changes |
| Store.Classifier.constructor | store.py:360-362 | the object holds exactly the given classifier and saved flag |
| Store.Classifier.Save | store.py:469-523 | a no-op once saved; an existing uid and a missing resource raise their messages and insert nothing; a failing insert rolls back every row; success adds exactly the row, links and meta (`WithClassifier`) and marks the object saved |
| Store.Classifier.SaveNew | store.py:473-477 | the uid check comes before the resource check, and success requires both checks and every insert to pass |
| Store.Classifier.SaveChecked | store.py:479-522 | once the checks pass, a failing insert raises 'Failed to insert classifier' and leaves the tables as they were |
| Store.Classifier.MarkSaved | store.py:522 | setting `saved` changes nothing of what the classifier records |
| Store.Classifier.InsertChecked | store.py:479-521 | for a new classifier whose resources are all stored, the inserts either leave the tables as they were or add exactly `WithClassifier` of its record, which then reads back as that record |
| Store.Classifier.InsertAll | store.py:479-521 | the transaction succeeds iff no insert fails, and is all-or-nothing |
| Store.Classifier.FirstMissing | store.py:475-477 | finds a referenced resource missing from the store exactly when one exists |
| Store.Classifier.InsertLinkRows | store.py:504-510 | the link inserts add exactly `LinkRows` unless one of them fails |
| Store.Classifier.InsertMetaRows | store.py:511-517 | the meta inserts add exactly `MetaRows` unless one of them fails |
| Store.Classifier.SetEnabled | store.py:530-541 | the attribute changes even when the UPDATE fails; the stored row changes only its enabled column, and only on success |
| Store.Classifier.Remove | store.py:543-550 | the tables become `WithoutClassifier` of the old ones: this classifier's meta rows, link rows and row are deleted with no dependency check, and resources and jobs are untouched |
| Store.RemoveKeepsValid | store.py:543-550 | deleting a classifier's meta rows, link rows and row leaves the tables valid, with that uid gone |
| Store.RemoveUndoesSave | store.py:543-550 | `remove` right after the `save` of a new classifier gives back exactly the tables before the save |
| Store.RemoveKeepsOtherViews | store.py:543-550 | after a removal, every other stored classifier reads back through `get_all` exactly as before |
| Store.Classifier.TrainSaved | store.py:561-587 | a trained classifier is refused; otherwise the state goes to 'Training' and then to 'Ready' with `finished_on` set, each step stored; a failed UPDATE stops training |
| Store.Classifier.Train | store.py:552-587 | an unsaved classifier is saved first and its failure is raised; training succeeds iff the save and both UPDATEs do and the classifier was untrained |
| Store.Classifier.ResourcePaths | store.py:604-606 | every resource key maps to its directory under the resources path; a lookup that finds no row raises the `NoneType` error |
| Store.Classifier.Classify | store.py:589-629 | saves an unsaved classifier first: each refusal of that save is returned with the tables unchanged, and a successful save adds exactly `WithClassifier` of the record; it never refuses on training state; it refuses a disabled classifier with 'Model <uid> is not enabled', whether it was saved already or its first save succeeds; and hands the model type, meta, resource paths and files to the pool |
| Store.Classifier.Add | store.py:366-388 | a fresh object with the chosen uid and the local creation time, saved at once; the outcome is `save`'s |
| Store.JobContext.constructor | store.py:634-661 | the job keeps its identity and progress fields, and its work directory is under the work path |
| Store.JobContext.Save | store.py:753-793 | an existing row changes only status, percentage and text; a new uid is inserted whole; a failure changes nothing |
| Store.JobContext.UpdateProgress | store.py:729-739 | stores exactly the given triple without renaming the status, then informs the listener; a failed save raises before the listener is called |
| Store.JobContext.MarkDone | store.py:741-742 | stores ('Done', 100, 'Done') in this job's row, leaving its other columns and every other job row as they were, and informs the listener; a failed save raises and changes no row |
| Store.JobContext.Remove | store.py:744-751 | the job row is deleted whatever happens to the work directory |
| Store.JobContext.Create | store.py:664-678 | a new job `<stamp>-<uid>` in state 'Scheduled' at 0 percent, saved at once |
| Replication.FetchedRow | store.py:144-149 | a fetched resource takes its type as its title, keeps the peer's creation time, and gets the local time |
| Replication.FetchResource | store.py:123-153 | a local uid is refused; a failed call, a 401 and any other status raise their messages; success adds exactly the fetched row |
| Replication.FetchClassifier | store.py:155-168 | a local uid is refused; missing dependencies are fetched first, and when every dependency was local or fetchable each one is local afterwards, even if the save then fails; no resource is lost; a failure adds no classifier, link or meta row; a `Replicable` classifier is always fetched; the classifier is saved as the peer sent it, `local_created_on` included |
| Replication.ReplicableMonotone | store.py:155-168 | with the same classifier table, a classifier replicable against some local resources stays replicable when more resources are local |
| Replication.NotReplicableEarlier | store.py:155-168 | a classifier that failed to replicate against some tables was not replicable against fewer local resources either |
| Replication.SavedExtends | store.py:155-168 | a successful `fetch_classifier` keeps every earlier resource, classifier, link and meta row and every job |
| Replication.FetchDependencies | store.py:163-166 | each missing resource is fetched in order; the first failure ends the loop; only dependency resources are added |
| Replication.FetchIfMissing | store.py:164-166 | a dependency already present is not fetched; a missing one is fetched; only the resource table changes, and nothing already present is lost |
| Replication.SaveFetched | store.py:168 | the save succeeds iff the uid is new, every dependency is present and no insert fails; then the tables gain exactly its rows and `get` returns it as received; a failed save changes nothing |
| Autosync.Queued | autosync.py:37-45 | the queue is a subsequence of the listing: listing elements left out or kept, in listing order |
| Autosync.QueuedMembers | autosync.py:41-45 | a classifier is queued iff its type is synced, it is trained, it is absent locally, and it is enabled |
| Autosync.QueuedAppend | autosync.py:37-45 | queueing keeps the listing's order |
| Autosync.RunLogAlternates | autosync.py:21-24 | after the first sync, the log strictly alternates a sync and a sleep of the interval |
| Autosync.AutosyncThread.constructor | autosync.py:9-17 | the thread starts with `first_sync` set and an empty log |
| Autosync.AutosyncThread.Sync | autosync.py:26-55 | waits 7 seconds only on the first call; queues exactly `Queued` of the listing before any fetch; fetches a prefix of the queue in order, and the whole queue iff no error; the only new classifiers are the fetched ones; no resource, classifier, link or meta row is lost and jobs are unchanged; an error (its text is only logged) comes from the next queued classifier, which was not `Replicable` against the tables the failing fetch found, nor against the resources the sync started with together with the final classifier, link and meta tables; never raises |
| Autosync.AutosyncThread.Filter | autosync.py:37-45 | the loop builds exactly `Queued` of the listing |
| Autosync.AutosyncThread.FetchAll | autosync.py:51-53 | fetches a prefix of the queue in order, stopping at the first failure; each fetched classifier is then local, no other classifier is added, no earlier row is lost and jobs are unchanged; the failing classifier was not `Replicable` against the tables that fetch found (which lie between the initial and the final tables and have the final classifier table), nor against the initial resources with the final classifier, link and meta tables |
| Autosync.AutosyncThread.FetchNext | autosync.py:52-53 | one round of the loop: a success extends the fetched prefix by the next queued uid, now local; a failure leaves the classifier table of the tables it found, against which the classifier was not `Replicable`, and loses no row |
| Autosync.AutosyncThread.FetchOne | autosync.py:53 | a successful fetch adds exactly the peer's classifier row; a failed one leaves the classifier table as it was; either way no resource, classifier, link or meta row is lost and jobs are unchanged; a `Replicable` classifier is always fetched |
| Autosync.AutosyncThread.Run | autosync.py:19-24 | `n` cycles leave the log `RunLog`: the first sync's wait, then sync and sleep per cycle |
| Autosync.AutosyncThread.SyncAndSleep | autosync.py:22-24 | one cycle appends the sync (after the first-sync wait, once) and a sleep of the interval to the log, and clears the first-sync flag |
| Autoclean.RunLogAlternates | autoclean.py:19-23 | every cleanup is preceded by a full interval of sleep |
| Autoclean.ExpiredUidsSound | autoclean.py:31-38 | every uid the sweep removes is the uid of a listed job that is 'Done' and old enough |
| Autoclean.ExpiredUidsComplete | autoclean.py:31-38 | every listed job that is 'Done' and old enough is removed |
| Autoclean.ExpiredUidsDistinct | autoclean.py:31-38 | a listing without repeated uids removes no job twice |
| Autoclean.SweptFromTable | autoclean.py:28-38 | read back in the job table, the jobs removed from any prefix of the listing are expired stored jobs, each removed once |
| Autoclean.AutocleanThread.constructor | autoclean.py:10-14 | the thread keeps its threshold and starts with an empty log |
| Autoclean.AutocleanThread.Cleanup | autoclean.py:25-42 | only jobs that are 'Done' and old enough are removed; without a parse error exactly those are; the counter is the number removed; a parse error ends the pass, and `strptime`'s message for some stored job's `created_on` is logged, not raised |
| Autoclean.AutocleanThread.Sweep | autoclean.py:31-38 | the loop stops at the first unparsable `created_on` (its position and `strptime`'s message for it are returned) and has then removed exactly `ExpiredUids` of the jobs before it, and nothing else |
| Autoclean.AutocleanThread.CleanOne | autoclean.py:36-38 | once a job's age is known it is removed exactly when it is 'Done' and old enough, and only its row goes |
| Autoclean.AutocleanThread.Run | autoclean.py:16-23 | a non-positive threshold never cleans; otherwise each cycle sleeps a full interval and then cleans |
| Tickets.RulesGiveChecked | pasir.py:300-334 | applying the five checks in order and then nulling unclean rows gives `Checked`, where the most specific issue wins |
| Tickets.CleanIffNoNullCell | pasir.py:306-323 | CLEAN is 'N' and QUALITY_ISSUE is set iff one of the four checked cells is null |
| Tickets.BothEmptyLabel | pasir.py:322-326 | a row with DESCRIPTION and RESOLUTION both null is labelled 'Empty description and resolution' |
| Tickets.UncleanRowsNulled | pasir.py:328-334 | unclean rows lose TICKETCLASS and the six scores; clean rows keep every value; text columns never change |
| Tickets.CheckDataQuality | pasir.py:300-334 | the in-place pass over the table leaves every row as `Checked` of its old value |
| Tickets.ApplyRuleToAll | pasir.py:306-308 | one check is applied to every row |
| Tickets.PrepareAll | pasir.py:300-302 | every row gets the classification id, CLEAN='Y' and no QUALITY_ISSUE |
| Tickets.ApplyQualityRules | pasir.py:306-326 | the five checks are applied in order, each to the whole table |
| Tickets.NullAllUnclean | pasir.py:328-334 | every row with CLEAN='N' loses TICKETCLASS and the six scores, and other rows are left alone |
| Tickets.Batches | pasir.py:146-148 | there are n/b+1 batches (floor division) |
| Tickets.FlattenPrefix | pasir.py:146-148 | the first x batches hold exactly the first min(x*b, n) rows, in order |
| Tickets.BatchesCoverRows | pasir.py:146-155 | the batches together hold every row once, in order |
| Tickets.SliceLength | pasir.py:148 | a clipped slice has the clipped length |
| Tickets.FullBatch | pasir.py:148 | every batch before the last holds exactly b rows |
| Tickets.LastBatch | pasir.py:146-148 | the last batch holds n mod b rows, and is empty exactly when b divides n |
| Pasir.NormalisedState | pasir.py:272 | 'Progress' becomes 'Running', and every other state is kept |
| Pasir.WrittenState | pasir.py:272-290 | 'Error' is written as 'Error'; 'Done' is written iff the report finishes the classification or says 'Done' |
| Pasir.ErrorNeverInserts | pasir.py:274-277 | an 'Error' report never starts the insert |
| Pasir.InsertedBatches | pasir.py:146-155 | the batches that reach the database are a prefix: all of them, or those before the rejected one |
| Pasir.Semaphore.constructor | pasir.py:18 | the semaphore starts with the given number of permits |
| Pasir.Semaphore.Acquire | pasir.py:338 | takes one permit |
| Pasir.Semaphore.Release | pasir.py:363 | returns one permit |
| Pasir.PasirDatabase.Execute | pasir.py:283-290 | one statement is appended to the log, and inserts are unchanged |
| Pasir.PasirDatabase.SqlUsingDataFrame | pasir.py:136-155 | the rows go to the database in the batches `rows[x*b:(x+1)*b]`; a rejected batch raises and earlier batches stay |
| Pasir.PasirTicketClassification.constructor | pasir.py:162-181 | the classification keeps its fields, with no ticket count yet |
| Pasir.PasirTicketClassification.UpdateProgress | pasir.py:271-290 | `Reported`: a normal report writes its renamed state; a finishing report checks and inserts the tickets, then writes 'Done' even after a failed insert wrote 'Error'; the semaphore ends as it began |
| Pasir.PasirTicketClassification.InsertClassifiedTickets | pasir.py:293-363 | a missing output file raises; otherwise the checked rows are written back and inserted while the semaphore is held; a failed insert writes ('Error', 'Failed inserting tickets') and is not raised; the semaphore is always released |
| Pasir.FinishInsertsAllRows | pasir.py:338-357 | with no rejected batch, the database ends up holding every checked row, in order |
| PasirJobs.CreateCheck | pasir.py:191-195 | passes iff both timestamps are given and the classifier exists, is enabled and is titled 'PASIR'; each failure raises its own message in the source's order, ending with the classifier's uid |
| PasirJobs.TitleCheckFinding | pasir.py:195 | for a wrong title, the check as written raises the format TypeError, and the corrected message names the title and uid |
| PasirJobs.ChecksAgreeOtherwise | pasir.py:191-195 | the corrected and as-written checks agree on every input but a wrong title |
| PasirJobs.PasirJob.constructor | pasir.py:211-222 | the classification is hooked onto the job as its progress listener |
| PasirJobs.Create | pasir.py:184-230 | a failed check creates no job and writes nothing; otherwise a job is saved, one CLASSR_TICKETCLASSIFICATION row is written with 'Ready to fetch tickets' at 0, and the classification is wired to the job |
| PasirJobs.FetchAndClassify | pasir.py:233-268 | writes 'Running' at 1 percent and then the ticket count; with zero tickets it marks the job done and reports 'No tickets to classify'; otherwise it starts the classifier on DESCRIPTION and RESOLUTION into `classified-tickets.csv`, and for a saved classifier it starts iff the classifier is enabled and every resource is found |
| PasirJobs.RecordTickets | pasir.py:236-255 | reports 'Fetching tickets' at 1 percent, keeps the count, saves the tickets to `tickets.csv` and writes the count; nothing is inserted |
| PasirJobs.FinishWithoutTickets | pasir.py:257-260 | with no tickets, a saved job is 'Done' at 100 percent and the classification gets 'Done' then 'No tickets to classify'; a failed save raises before either report |
| ModelRegistry.XgbmInputsOf | model_registry.py:66-73 | a type other than XGBM is unsupported; a missing 'vocab', 'model' or 'pv' raises the quoted key in argument order; otherwise the vocabulary and model paths are built under their resources |
| ModelRegistry.Classify | model_registry.py:16-107 | the job always ends at 100 percent, in 'Done' with text 'Done' or in 'Error'; an unsupported type, a missing resource key and an exception of the classifier end in 'Error' with that message, logged to the listener when the report saves, and write no file; a failed `mark_done` save ends in 'Error' with 'Failed to update job status of <uid>' (or the insert message); with a listener and a successful save, the job ends in 'Error' iff the listener raised 'Classified tickets not found under <out_csv>', with that text; without a listener a successful save ends 'Done'; nothing is raised when the error report saves |
| ModelRegistry.Attempt | model_registry.py:16-104 | the `try` block: a launch error is returned with no job row or file changed; otherwise the job is 'Done' and the result is the save error or the listener's missing-output error |
| ModelRegistry.ReportError | model_registry.py:106-107 | the job reports ('Error', 100, the text): stored when the save succeeds and logged to the listener as one error write; no file changes |
| ModelRegistry.MissingOutput | pasir.py:271-297 | the listener raises 'Classified tickets not found under <out_csv>' exactly when the finishing report starts the insert and the output file is missing |
| ModelRegistry.Complete | model_registry.py:68-104 | the classifier's output file is in place (with a listener, until the insert rewrites it), and the job is 'Done' at 100 percent; without a listener the save decides whether `mark_done` raises; a failed save raises the job's save error and changes no job row; with a listener and a successful save, `mark_done` raises exactly `MissingOutput` of the files as the classifier left them |
| ModelRegistry.Train | model_registry.py:7-14 | the job is left unchanged |
| Server.GetClassifier | server.py:84-89 | a missing uid raises 'Classifier <uid> not found'; otherwise the assembled classifier is returned |
| Server.DeleteClassifier | server.py:91-97 | a missing uid raises and changes nothing; otherwise exactly that classifier's rows are removed |
| Server.SetClassifierEnabled | server.py:99-113 | a missing uid raises; otherwise only the enabled column of that classifier changes |
| Server.GetJobStatus | server.py:170-181 | a missing uid raises 'Job <uid> not found'; otherwise the stored status, percentage and text |
| Server.DeleteJob | server.py:183-189 | a missing uid raises; otherwise exactly that job row is removed, through a job context built from the stored row |
| Server.GetResource | server.py:203-208 | a missing uid raises 'Resource <uid> not found'; otherwise the stored row |
| Server.DeleteResource | server.py:210-216 | a missing uid raises; otherwise `Resource.remove`'s dependency rule decides |
| Server.ClassifyTickets | server.py:115-154 | refuses when classification is disabled, the uid is unknown, or the lower-cased name does not end in '.csv', before any job exists; otherwise places a job iff its save and the classifier's guards pass |
| Server.Place | server.py:139-153 | creates the job, stores the upload in its work directory, and hands the classifier the upload and `autolabeled.tickets.csv` |
| Server.ClassifyUpload | server.py:144-153 | the upload is stored at `<work_dir>/<filename>`, and the classification starts iff the stored classifier is enabled with every dependency present, reading the upload into `autolabeled.tickets.csv` |
| Server.SelectFreshest | server.py:230-235 | None iff no classifier is enabled and titled 'PASIR'; the pick is such a classifier, its `finished_on` is below no other, and ties keep the earliest in list order |
| Server.NewFreshest | server.py:234-235 | a replacement that is strictly fresher keeps the loop's invariant |
| Server.PasirClassify | server.py:227-249 | raises when no classifier is eligible, then `strptime`'s error for the from date, then for the to date; otherwise creates the classification for the freshest eligible classifier |
| Server.PickFreshest | server.py:230-235 | no pick iff no stored classifier is eligible; otherwise the pick is the stored view of an eligible classifier whose `finished_on` is below no other eligible one's |
| Server.Launch | server.py:238-243 | once a classifier is picked and both dates parse, the classification is created for it and registered; only saving its job can fail, and then nothing is written |

## Left out

- HTTP and JSON-RPC transport, Flask routes, templates, auth and start-up are not modelled. A peer call that raises is the single message `Replication.RpcFailure`.
- The upload route and the two download routes (`job.download`, `resource.download`) are not modelled. They are file transfers around `JobContext.get`/`Resource.get`.
- The `get_all` list handlers are not modelled separately. They are `AllClassifiers`/`AllJobs` plus JSON encoding.
- Filesystem work is reduced to given outcomes: tar extraction, rename, copy, `rmtree` and `to_targz`.
  - Work-dir creation (`os.makedirs`, store.py:653) and temp-file removal (`os.remove`, store.py:151) always succeed in the model; their failures are not modelled.
  - The CSV files of work directories are a map from path to rows (`Pasir.CsvFiles`).
  - `secure_filename` is given as a parameter.
- Concurrency is left out: the thread pool and `apply_async`, `Thread.start`, daemon threads, and the DB2 connection thread.
  - `Store.Classifier.Classify` returns the deferred work item (`Store.WorkItem`) for the caller to run.
  - `PasirJobs.Create` is followed by `FetchAndClassify` as a separate call.
- `Pasir.Semaphore.Acquire` requires a free permit instead of blocking, because the model is single-threaded.
- The sqlite `persistence` module is the five in-memory tables, and every statement commits at once. The `exists` class methods are map membership.
- The DB2 ticket database is a log of the statements written (`Pasir.PasirDatabase`).
  - The fetched tickets and the id the database assigns are parameters.
  - Only the batch insert can fail. Failures of the other DB2 statements are not modelled.
- The xgbm classifier is the `ModelRegistry.Run` abstraction: it raises, or returns after writing its output or not.
  - The classifier's own `update_progress` calls through the job context (model_registry.py:59-62) are not modelled; only the reports of `classify` itself are.
- Floating point values are not modelled. `test_accuracy` is dropped, and the per-class scores are kept only as present or null.
- Logging and JSON encoding are not modelled.
- `config.py` is not modelled; its defaults are constants: `BATCH_SIZE` 1000, the resources, work and temp paths.
- Nondeterminism is passed in. `uuid1()`, `datetime.now()`, `strptime` results, day ages and sleeps are parameters or log entries.
  - `strptime` itself is not modelled: what it gives is a parameter, namely the parsed date's `str()` or the message of its `ValueError` (no match, unconverted data left over, a day out of range). The `created_on` defaults that Python evaluates once at definition time are explicit arguments.
- The `while True` loops of the two threads are modelled as their first `n` cycles.
- ModelRegistry.Train: its contract states only that the job object is unchanged, because the source function does nothing at all.
- ModelRegistry.Classify: it requires that the job's listener shares the same CSV file map, which the wiring in `PasirJobs.Create` guarantees.
- PasirJobs.Create: it runs the corrected check `CreateCheck`, so a wrong title is refused with the intended message where pasir.py:195 as written raises the format `TypeError` (see Findings).
- Autosync.AutosyncThread.Sync: the error's text, which the source only logs, is not tied to one cause; the contract names the classifier that failed and states that it was not `Replicable`.
- Replication.FetchClassifier: success is implied by `Replicable`, but not the converse. A dependency with an empty uid is added under a generated uid, so failure does not pin down a single cause.

## Findings

| source | as written | input that shows it | evidently intended | confidence | as-written member | corrected member |
|---|---|---|---|---|---|---|
| pasir.py:195 | the error message is formatted with a list, `'...%s...%s' % [title, uid]`, so the `%` operator raises `TypeError: not enough arguments for format string` instead of the intended exception | an enabled classifier whose title is not 'PASIR' (for example 'OTHER') | raise 'Cannot create new PasirTicketClassification, classifier title is "<title>", expected "PASIR": <uid>' | not executed | PasirJobs.TitleCheckFinding | PasirJobs.CreateCheck |
