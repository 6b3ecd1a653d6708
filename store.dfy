/**
 * The local entity store: the five tables, resources added from archives or files,
 * classifiers with their save/train/enable/remove/classify operations, and job contexts.
 * Every timestamp, generated uid and filesystem or database outcome is a parameter.
 */
module Store {
  import opened Wrappers
  import opened Entities
  import Paths
  import Pasir

  /** `config.RESOURCES_PATH` and `config.WORK_PATH` defaults. */
  const ResourcesPath: string := "data/resources"
  const WorkPath: string := "data/work"

  /** The directory name a resource gets: sanitised type, '-', sanitised uid. */
  function ResourceDir(resourceType: string, uid: Uid): (d: string)
    ensures '/' !in d
    ensures |d| == |resourceType| + 1 + |uid|
  {
    Paths.SanitizeFileName(resourceType) + "-" + Paths.SanitizeFileName(uid)
  }

  /** The uid an add operation uses: the given one, or a generated one when it is empty. */
  function ChosenUid(uid: Uid, freshUid: Uid): Uid {
    if uid == "" then freshUid else uid
  }

  /** What opening a `.tar.gz` gives: an error, or the archive's member names and whether extracting them succeeds. */
  datatype Archive =
    | Unreadable
    | Opened(names: seq<string>, extracts: bool)

  /** The contents of the five tables. */
  datatype Tables = Tables(
    resources: map<Uid, Resource>, classifiers: map<Uid, ClassifierRow>, links: set<Link>,
    meta: map<MetaKey, string>, jobs: map<Uid, JobRow>)
  {
    /**
     * Primary keys agree with the rows, every link row references an existing classifier and
     * an existing resource, keys are unique per classifier, and meta rows belong to existing
     * classifiers.
     */
    ghost predicate Valid() {
      (forall u :: u in resources ==> resources[u].uid == u) &&
      (forall u :: u in classifiers ==> classifiers[u].uid == u) &&
      (forall u :: u in jobs ==> jobs[u].uid == u) &&
      (forall l :: l in links ==> l.classifierUid in classifiers && l.resourceUid in resources) &&
      UniqueKeys(links) &&
      (forall mk :: mk in meta ==> mk.classifierUid in classifiers)
    }
  }

  /** The tables after `save` has inserted a classifier's row, its link rows and its meta rows. */
  function WithClassifier(t: Tables, c: ClassifierRecord): Tables {
    t.(classifiers := t.classifiers[c.Uid() := c.row], links := t.links + LinkRows(c), meta := t.meta + MetaRows(c))
  }

  /**
   * Saving a classifier whose uid is new and whose resources all exist keeps the tables
   * valid (its rows reference only itself and existing resources), and `get` then
   * assembles exactly that classifier from them.
   */
  lemma SaveRoundTrip(t: Tables, c: ClassifierRecord)
    requires t.Valid()
    requires c.Uid() !in t.classifiers
    requires forall k :: k in c.resources ==> c.resources[k] in t.resources
    ensures WithClassifier(t, c).Valid()
    ensures var t' := WithClassifier(t, c);
      c.Uid() in t'.classifiers && View(t'.classifiers[c.Uid()], t'.links, t'.meta) == c
  {
    LinksRoundTrip(t.links, c);
    MetaRoundTrip(t.meta, c);
    forall l | l in LinkRows(c)
      ensures l.resourceUid in t.resources
    {
      var k :| k in c.resources && l == Link(c.Uid(), k, c.resources[k]);
    }
  }

  /** The link rows of every classifier but `uid`. */
  function LinksWithout(links: set<Link>, uid: Uid): set<Link> {
    set l | l in links && l.classifierUid != uid
  }

  /** The meta rows of every classifier but `uid`. */
  function MetaWithout(meta: map<MetaKey, string>, uid: Uid): map<MetaKey, string> {
    map mk | mk in meta && mk.classifierUid != uid :: meta[mk]
  }

  /** The tables after `remove` has deleted a classifier's meta rows, its link rows and its row. */
  function WithoutClassifier(t: Tables, uid: Uid): Tables {
    t.(classifiers := t.classifiers - {uid}, links := LinksWithout(t.links, uid), meta := MetaWithout(t.meta, uid))
  }

  /** Dropping one classifier's link rows keeps keys unique and the others' resources as they were. */
  lemma LinksWithoutKeepOthers(links: set<Link>, uid: Uid, u: Uid)
    requires UniqueKeys(links) && u != uid
    ensures UniqueKeys(LinksWithout(links, uid))
    ensures LinkedResources(LinksWithout(links, uid), u) == LinkedResources(links, u)
  {
    var a := LinkedResources(LinksWithout(links, uid), u);
    var b := LinkedResources(links, u);
    forall k | k in b
      ensures k in a
    {
      var l :| l in links && l.classifierUid == u && l.key == k;
      assert l in LinksWithout(links, uid);
    }
  }

  /** Dropping one classifier's meta rows keeps the others' meta as it was. */
  lemma MetaWithoutKeepsOthers(meta: map<MetaKey, string>, uid: Uid, u: Uid)
    requires u != uid
    ensures MetaOf(MetaWithout(meta, uid), u) == MetaOf(meta, u)
  {
    var a := MetaOf(MetaWithout(meta, uid), u);
    forall k | k in MetaOf(meta, u)
      ensures k in a
    {
      assert MetaKey(u, k) in MetaWithout(meta, uid);
    }
  }

  /** Removing a classifier keeps the tables valid: nothing left refers to it. */
  lemma RemoveKeepsValid(t: Tables, uid: Uid)
    requires t.Valid()
    ensures WithoutClassifier(t, uid).Valid()
    ensures uid !in WithoutClassifier(t, uid).classifiers
  {
    var t' := WithoutClassifier(t, uid);
    forall l1, l2 | l1 in t'.links && l2 in t'.links && l1.classifierUid == l2.classifierUid && l1.key == l2.key
      ensures l1 == l2
    {
      assert l1 in t.links && l2 in t.links;
    }
  }

  /** Removing a newly saved classifier gives back the tables it was saved into. */
  lemma RemoveUndoesSave(t: Tables, c: ClassifierRecord)
    requires t.Valid()
    requires c.Uid() !in t.classifiers
    ensures WithoutClassifier(WithClassifier(t, c), c.Uid()) == t
  {
    LinksWithoutUndoes(t.links, c);
    MetaWithoutUndoes(t.meta, c);
  }

  lemma LinksWithoutUndoes(links: set<Link>, c: ClassifierRecord)
    requires forall l :: l in links ==> l.classifierUid != c.Uid()
    ensures LinksWithout(links + LinkRows(c), c.Uid()) == links
  {
  }

  lemma MetaWithoutUndoes(meta: map<MetaKey, string>, c: ClassifierRecord)
    requires forall mk :: mk in meta ==> mk.classifierUid != c.Uid()
    ensures MetaWithout(meta + MetaRows(c), c.Uid()) == meta
  {
    var m := MetaWithout(meta + MetaRows(c), c.Uid());
    forall mk | mk in meta
      ensures mk in m
    {
    }
  }

  /** Removing a classifier leaves every other stored classifier reading back as before. */
  lemma RemoveKeepsOtherViews(t: Tables, uid: Uid, u: Uid)
    requires t.Valid()
    requires u in t.classifiers && u != uid
    ensures var t' := WithoutClassifier(t, uid);
      t'.Valid() && u in t'.classifiers &&
      View(t'.classifiers[u], t'.links, t'.meta) == View(t.classifiers[u], t.links, t.meta)
  {
    RemoveKeepsValid(t, uid);
    LinksWithoutKeepOthers(t.links, uid, u);
    MetaWithoutKeepsOthers(t.meta, uid, u);
  }

  /** Saving a new classifier leaves every classifier already stored reading back as before. */
  lemma SaveKeepsOtherViews(t: Tables, c: ClassifierRecord)
    requires t.Valid()
    requires c.Uid() !in t.classifiers
    ensures UniqueKeys(WithClassifier(t, c).links)
    ensures var t' := WithClassifier(t, c);
      forall u :: u in t.classifiers ==>
        u in t'.classifiers && View(t'.classifiers[u], t'.links, t'.meta) == View(t.classifiers[u], t.links, t.meta)
  {
    LinkRowsKeepKeysUnique(t.links, c);
    var t' := WithClassifier(t, c);
    forall u | u in t.classifiers
      ensures View(t'.classifiers[u], t'.links, t'.meta) == View(t.classifiers[u], t.links, t.meta)
    {
      OtherLinksUnchanged(t.links, c, u);
      OtherMetaUnchanged(t.meta, c, u);
    }
  }

  lemma OtherLinksUnchanged(links: set<Link>, c: ClassifierRecord, u: Uid)
    requires UniqueKeys(links) && UniqueKeys(links + LinkRows(c)) && u != c.Uid()
    ensures LinkedResources(links + LinkRows(c), u) == LinkedResources(links, u)
  {
    var a := LinkedResources(links + LinkRows(c), u);
    var b := LinkedResources(links, u);
    forall k | k in a
      ensures k in b && a[k] == b[k]
    {
      var l :| l in links + LinkRows(c) && l.classifierUid == u && l.key == k;
    }
  }

  lemma OtherMetaUnchanged(meta: map<MetaKey, string>, c: ClassifierRecord, u: Uid)
    requires u != c.Uid()
    ensures MetaOf(meta + MetaRows(c), u) == MetaOf(meta, u)
  {
    var a := MetaOf(meta + MetaRows(c), u);
    forall k | k in a
      ensures k in MetaOf(meta, u) && a[k] == MetaOf(meta, u)[k]
    {
      assert MetaKey(u, k) !in MetaRows(c);
    }
  }

  /** The meta rows of a classifier for the given subset of its keys. */
  ghost function MetaRowsFor(uid: Uid, meta: map<string, string>, keys: set<string>): map<MetaKey, string> {
    map k | k in keys && k in meta :: MetaKey(uid, k) := meta[k]
  }

  /** The meta rows of one more key. */
  lemma MetaRowsForAdd(uid: Uid, meta: map<string, string>, keys: set<string>, k: string)
    requires k in meta
    ensures MetaRowsFor(uid, meta, keys + {k}) == MetaRowsFor(uid, meta, keys)[MetaKey(uid, k) := meta[k]]
  {
    var a := MetaRowsFor(uid, meta, keys)[MetaKey(uid, k) := meta[k]];
    forall mk | mk in MetaRowsFor(uid, meta, keys + {k})
      ensures mk in a
    {
      assert mk.key in keys + {k};
    }
  }

  /** Updating a merged map is updating its right operand. */
  lemma MergeThenUpdate(base: map<MetaKey, string>, rows: map<MetaKey, string>, mk: MetaKey, v: string)
    ensures (base + rows)[mk := v] == base + rows[mk := v]
  {
  }

  /** The five tables. */
  class EntityStore {
    var resources: map<Uid, Resource>
    var classifiers: map<Uid, ClassifierRow>
    var links: set<Link>
    var meta: map<MetaKey, string>
    var jobs: map<Uid, JobRow>

    constructor ()
      ensures resources == map[] && classifiers == map[] && links == {} && meta == map[] && jobs == map[]
      ensures Valid()
    {
      resources := map[];
      classifiers := map[];
      links := {};
      meta := map[];
      jobs := map[];
    }

    /** The tables keep their keys and references consistent (`Tables.Valid`). */
    ghost predicate Valid()
      reads this
    {
      Contents().Valid()
    }

    function Contents(): Tables
      reads this
    {
      Tables(resources, classifiers, links, meta, jobs)
    }

    /** Some link row references the resource. */
    predicate HasDependents(uid: Uid)
      reads this
    {
      exists l :: l in links && l.resourceUid == uid
    }

    /** The classifier `Classifier.get(uid)` assembles. */
    function ClassifierView(uid: Uid): ClassifierRecord
      requires Valid() && uid in classifiers
      reads this
    {
      View(classifiers[uid], links, meta)
    }

    twostate predicate OnlyResourcesChanged()
      reads this
    {
      classifiers == old(classifiers) && links == old(links) && meta == old(meta) && jobs == old(jobs)
    }

    twostate predicate OnlyJobsChanged()
      reads this
    {
      resources == old(resources) && classifiers == old(classifiers) && links == old(links) && meta == old(meta)
    }

    /** `Resource.add`: refuses an existing uid; a failed insert leaves the table as it was. */
    method AddResource(uid: Uid, resourceType: string, title: string, createdOn: string,
                       localCreatedOn: string, path: string, insertOk: bool) returns (r: Result<Resource>)
      requires Valid()
      modifies this
      ensures Valid() && OnlyResourcesChanged()
      ensures uid in old(resources) ==>
        r == Err("Cannot add resource " + uid + " because it already exists") && resources == old(resources)
      ensures uid !in old(resources) && !insertOk ==>
        r == Err("Failed to insert resource " + uid + " into DB") && resources == old(resources)
      ensures uid !in old(resources) && insertOk ==>
        r == Ok(Resource(uid, resourceType, title, createdOn, localCreatedOn, path)) &&
        resources == old(resources)[uid := r.value]
    {
      if uid in resources {
        return Err("Cannot add resource " + uid + " because it already exists");
      }
      if !insertOk {
        return Err("Failed to insert resource " + uid + " into DB");
      }
      var res := Resource(uid, resourceType, title, createdOn, localCreatedOn, path);
      resources := resources[uid := res];
      return Ok(res);
    }

    /**
     * `Resource.add_from_targz`: the existence check is made on the uid as given, before an
     * empty uid is replaced by a generated one; an archive without members raises
     * `IndexError` outside the extraction's `try`.
     */
    method AddResourceFromTargz(resourceType: string, title: string, gzPath: string, uid: Uid,
                                createdOn: string, freshUid: Uid, now: string, archive: Archive,
                                insertOk: bool) returns (r: Result<Resource>)
      requires Valid()
      modifies this
      ensures Valid() && OnlyResourcesChanged()
      ensures r.Err? ==> resources == old(resources)
      ensures r.Ok? <==>
        uid !in old(resources) && archive.Opened? && archive.names != [] && archive.extracts &&
        ChosenUid(uid, freshUid) !in old(resources) && insertOk
      ensures r.Ok? ==>
        var u := ChosenUid(uid, freshUid);
        r.value == Resource(u, resourceType, title, createdOn, now, ResourceDir(resourceType, u)) &&
        resources == old(resources)[u := r.value]
      ensures uid in old(resources) ==> r == Err("Resource uid " + uid + " already exists")
      ensures uid !in old(resources) && archive.Unreadable? ==>
        r == Err("Cannot add resource because specified gz_path " + gzPath + " is not accessible or corrupt")
      ensures uid !in old(resources) && archive.Opened? && archive.names == [] ==>
        r == Err("list index out of range")
      ensures uid !in old(resources) && archive.Opened? && archive.names != [] && !archive.extracts ==>
        r == Err("Failed to extract resource archive " + gzPath)
    {
      if uid in resources {
        return Err("Resource uid " + uid + " already exists");
      }
      var u := ChosenUid(uid, freshUid);
      var dir := ResourceDir(resourceType, u);
      if archive.Unreadable? {
        return Err("Cannot add resource because specified gz_path " + gzPath + " is not accessible or corrupt");
      }
      if archive.names == [] {
        return Err("list index out of range");
      }
      if !archive.extracts {
        return Err("Failed to extract resource archive " + gzPath);
      }
      r := AddResource(u, resourceType, title, createdOn, now, dir, insertOk);
    }

    /**
     * `Resource.add_from_file`: the uid is generated first and then checked; a failed copy
     * or a failed insert are both reported as a failed copy.
     */
    method AddResourceFromFile(resourceType: string, title: string, filePath: string, uid: Uid,
                               createdOn: string, freshUid: Uid, now: string,
                               makeDirOk: bool, copyOk: bool, insertOk: bool) returns (r: Result<Resource>)
      requires Valid()
      modifies this
      ensures Valid() && OnlyResourcesChanged()
      ensures r.Err? ==> resources == old(resources)
      ensures var u := ChosenUid(uid, freshUid);
        r.Ok? <==> u !in old(resources) && makeDirOk && copyOk && insertOk
      ensures var u := ChosenUid(uid, freshUid);
        r.Ok? ==>
          r.value == Resource(u, resourceType, title, createdOn, now, ResourceDir(resourceType, u)) &&
          resources == old(resources)[u := r.value]
      ensures var u := ChosenUid(uid, freshUid);
        u in old(resources) ==> r == Err("Resource uid " + u + " already exists")
      ensures var u := ChosenUid(uid, freshUid);
        var dirPath := Paths.Join(ResourcesPath, ResourceDir(resourceType, u));
        u !in old(resources) && !makeDirOk ==>
          r == Err("Failed to create resource destination " + dirPath + " for resource " + u)
      ensures var u := ChosenUid(uid, freshUid);
        var dirPath := Paths.Join(ResourcesPath, ResourceDir(resourceType, u));
        u !in old(resources) && makeDirOk && !(copyOk && insertOk) ==>
          r == Err("Failed to copy resource file " + filePath + " to " + dirPath + " for resource " + u)
    {
      var u := ChosenUid(uid, freshUid);
      if u in resources {
        return Err("Resource uid " + u + " already exists");
      }
      var dir := ResourceDir(resourceType, u);
      var dirPath := Paths.Join(ResourcesPath, dir);
      if !makeDirOk {
        return Err("Failed to create resource destination " + dirPath + " for resource " + u);
      }
      var copyError := "Failed to copy resource file " + filePath + " to " + dirPath + " for resource " + u;
      if !copyOk {
        return Err(copyError);
      }
      r := AddResource(u, resourceType, title, createdOn, now, dir, insertOk);
      if r.Err? {
        return Err(copyError);
      }
    }

    /**
     * `Resource.remove`: refused while a link row references the resource; otherwise the row
     * is deleted whatever happens to its directory.
     */
    method RemoveResource(res: Resource) returns (o: Outcome)
      requires Valid()
      modifies this
      ensures Valid() && OnlyResourcesChanged()
      ensures o.Fail? <==> old(HasDependents(res.uid))
      ensures o.Fail? ==>
        o == Fail("Cannot delete resource " + res.uid + " because of existing dependencies") &&
        resources == old(resources)
      ensures o.Pass? ==> resources == old(resources) - {res.uid} && res.uid !in resources
    {
      if exists l :: l in links && l.resourceUid == res.uid {
        return Fail("Cannot delete resource " + res.uid + " because of existing dependencies");
      }
      resources := resources - {res.uid};
      return Pass;
    }

    /**
     * `Resource.get`: the row with that uid; the empty uid selects the whole table, so it
     * gives whichever row comes first.
     */
    method GetResource(uid: Uid) returns (r: Option<Resource>)
      ensures uid != "" ==> r == if uid in resources then Some(resources[uid]) else None
      ensures uid == "" ==> (r.None? <==> resources == map[])
      ensures uid == "" && r.Some? ==> r.value in resources.Values
    {
      if uid != "" {
        r := if uid in resources then Some(resources[uid]) else None;
      } else if resources == map[] {
        r := None;
      } else {
        var u :| u in resources;
        r := Some(resources[u]);
      }
    }

    /** `Classifier.get_all()`: every classifier once, in some order, as `get` assembles it. */
    method AllClassifiers() returns (cs: seq<ClassifierRecord>)
      requires Valid()
      ensures forall c :: c in cs ==> c.Uid() in classifiers && c == ClassifierView(c.Uid())
      ensures forall u :: u in classifiers ==> ClassifierView(u) in cs
      ensures forall i, j :: 0 <= i < j < |cs| ==> cs[i].Uid() != cs[j].Uid()
    {
      var rows := ClassifierRows();
      var ls, ms := links, meta;
      cs := seq(|rows|, i requires 0 <= i < |rows| && UniqueKeys(ls) => View(rows[i], ls, ms));
      forall u | u in classifiers
        ensures ClassifierView(u) in cs
      {
        var i :| 0 <= i < |rows| && rows[i] == classifiers[u];
        assert cs[i] == ClassifierView(u);
      }
    }

    /** The `SELECT` of `get_all`: every classifier row once, in no particular order. */
    method ClassifierRows() returns (rows: seq<ClassifierRow>)
      requires Valid()
      ensures forall i :: 0 <= i < |rows| ==> rows[i].uid in classifiers && rows[i] == classifiers[rows[i].uid]
      ensures forall u :: u in classifiers ==> classifiers[u] in rows
      ensures forall i, j :: 0 <= i < j < |rows| ==> rows[i].uid != rows[j].uid
    {
      rows := [];
      var rest := classifiers.Keys;
      while rest != {}
        invariant rest <= classifiers.Keys
        invariant forall i :: 0 <= i < |rows| ==>
          rows[i].uid in classifiers && rows[i].uid !in rest && rows[i] == classifiers[rows[i].uid]
        invariant forall u :: u in classifiers && u !in rest ==> classifiers[u] in rows
        invariant forall i, j :: 0 <= i < j < |rows| ==> rows[i].uid != rows[j].uid
        decreases rest
      {
        var u :| u in rest;
        rows := rows + [classifiers[u]];
        rest := rest - {u};
      }
    }

    /** `Classifier.get`: as `Resource.get`, the empty uid gives whichever classifier comes first. */
    method GetClassifier(uid: Uid) returns (r: Option<ClassifierRecord>)
      requires Valid()
      ensures uid != "" ==> r == if uid in classifiers then Some(ClassifierView(uid)) else None
      ensures uid == "" ==> (r.None? <==> classifiers == map[])
      ensures r.Some? ==> r.value.Uid() in classifiers && r.value == ClassifierView(r.value.Uid())
    {
      if uid != "" {
        r := if uid in classifiers then Some(ClassifierView(uid)) else None;
      } else if classifiers == map[] {
        r := None;
      } else {
        var u :| u in classifiers;
        r := Some(ClassifierView(u));
      }
    }

    /** `JobContext.get`: as `Resource.get`, the empty uid gives whichever row comes first. */
    method GetJob(uid: Uid) returns (r: Option<JobRow>)
      ensures uid != "" ==> r == if uid in jobs then Some(jobs[uid]) else None
      ensures uid == "" ==> (r.None? <==> jobs == map[])
      ensures uid == "" && r.Some? ==> r.value in jobs.Values
    {
      if uid != "" {
        r := if uid in jobs then Some(jobs[uid]) else None;
      } else if jobs == map[] {
        r := None;
      } else {
        var u :| u in jobs;
        r := Some(jobs[u]);
      }
    }

    /** `JobContext.get_all()`: every job row once, in some order. */
    method AllJobs() returns (js: seq<JobRow>)
      requires Valid()
      ensures forall j :: j in js ==> j.uid in jobs && j == jobs[j.uid]
      ensures forall u :: u in jobs ==> jobs[u] in js
      ensures forall i, j :: 0 <= i < j < |js| ==> js[i].uid != js[j].uid
    {
      js := [];
      var rest := jobs.Keys;
      while rest != {}
        invariant rest <= jobs.Keys
        invariant forall j :: j in js ==> j.uid in jobs - rest && j == jobs[j.uid]
        invariant forall u :: u in jobs && u !in rest ==> jobs[u] in js
        invariant forall i, j :: 0 <= i < j < |js| ==> js[i].uid != js[j].uid
        decreases rest
      {
        var u :| u in rest;
        js := js + [jobs[u]];
        rest := rest - {u};
      }
    }

    /** `DELETE FROM JOB WHERE UID=?`. */
    method DeleteJob(uid: Uid)
      requires Valid()
      modifies this
      ensures Valid() && OnlyJobsChanged()
      ensures jobs == old(jobs) - {uid}
    {
      jobs := jobs - {uid};
    }
  }

  /** One INSERT of `Classifier.save`: the classifier row, the link row of a key, or the meta row of a key. */
  datatype InsertStep = ClassifierInsert | LinkInsert(key: string) | MetaInsert(key: string)

  /** The injected INSERT failure hits one of the statements `save` runs for a classifier with these keys. */
  predicate FaultHits(fault: Option<InsertStep>, resources: map<string, Uid>, meta: map<string, string>) {
    fault.Some? &&
    match fault.value
    case ClassifierInsert => true
    case LinkInsert(k) => k in resources
    case MetaInsert(k) => k in meta
  }

  /** The deferred call `model_registry.classify(...)` that `Classifier.classify` hands to the pool. */
  datatype WorkItem = WorkItem(
    job: JobContext, modelType: string, meta: map<string, string>, resourcePaths: map<string, string>,
    inCsv: string, inDescCol: string, inResCol: string, outCsv: string, outClassCol: string)

  /** Python's `str()` of a bool. */
  function PyBool(b: bool): string {
    if b then "True" else "False"
  }

  /** A classifier object: its attributes, and whether it is known to be stored (`saved`). */
  class Classifier {
    const uid: Uid
    const modelType: string
    const title: string
    var enabled: bool
    const language: string
    const trainingSetSize: Option<int>
    const createdOn: string
    var finishedOn: Option<string>
    const localCreatedOn: string
    var state: string
    const resources: map<string, Uid>
    const meta: map<string, string>
    var saved: bool

    /** An object made from a whole classifier; `saved` is true for one read from the store. */
    constructor (c: ClassifierRecord, saved: bool)
      ensures Record() == c && this.saved == saved
    {
      uid := c.row.uid;
      modelType := c.row.modelType;
      title := c.row.title;
      enabled := c.row.enabled;
      language := c.row.language;
      trainingSetSize := c.row.trainingSetSize;
      createdOn := c.row.createdOn;
      finishedOn := c.row.finishedOn;
      localCreatedOn := c.row.localCreatedOn;
      state := c.row.state;
      resources := c.resources;
      meta := c.meta;
      this.saved := saved;
    }

    function Row(): ClassifierRow
      reads this`enabled, this`finishedOn, this`state
    {
      ClassifierRow(uid, modelType, title, enabled, language, trainingSetSize, createdOn, finishedOn, localCreatedOn, state)
    }

    function Record(): ClassifierRecord
      reads this`enabled, this`finishedOn, this`state
    {
      ClassifierRecord(Row(), resources, meta)
    }

    /** `trained()`. */
    predicate Trained()
      reads this`finishedOn
    {
      finishedOn.Some?
    }

    /** Some referenced resource is not in the store. */
    predicate MissingResource(store: EntityStore)
      reads store
    {
      exists k :: k in resources && resources[k] !in store.resources
    }

    /** The injected INSERT failure hits one of the statements `save` runs. */
    predicate InsertFails(fault: Option<InsertStep>) {
      FaultHits(fault, resources, meta)
    }

    /**
     * `save`: a no-op once saved; refuses an existing uid and a missing resource; otherwise
     * inserts the classifier row, one link row per resource key and one meta row per meta key,
     * and a failure of any INSERT rolls all of them back.
     */
    method Save(store: EntityStore, fault: Option<InsertStep>) returns (o: Outcome)
      requires store.Valid()
      modifies this`saved, store
      ensures store.Valid()
      ensures old(saved) ==> o == Pass && saved && store.Contents() == old(store.Contents())
      ensures !old(saved) && uid in old(store.classifiers) ==>
        o == Fail("Classifier uid " + uid + " exists already")
      ensures !old(saved) && uid !in old(store.classifiers) && old(MissingResource(store)) ==>
        exists k :: k in resources && resources[k] !in old(store.resources) &&
          o == Fail("Required resource " + resources[k] + " of Classifier " + uid + " does not exist locally")
      ensures !old(saved) && uid !in old(store.classifiers) && !old(MissingResource(store)) && InsertFails(fault) ==>
        o == Fail("Failed to insert classifier " + uid + " into DB")
      ensures o.Fail? ==> store.Contents() == old(store.Contents()) && saved == old(saved)
      ensures o.Pass? <==>
        old(saved) || (uid !in old(store.classifiers) && !old(MissingResource(store)) && !InsertFails(fault))
      ensures !old(saved) && o.Pass? ==>
        saved && store.Contents() == WithClassifier(old(store.Contents()), Record()) &&
        uid in store.classifiers && store.ClassifierView(uid) == Record()
    {
      if saved {
        return Pass;
      }
      o := SaveNew(store, fault);
    }

    /** `save` of a classifier not yet known to be stored. */
    method SaveNew(store: EntityStore, fault: Option<InsertStep>) returns (o: Outcome)
      requires store.Valid() && !saved
      modifies this`saved, store
      ensures store.Valid()
      ensures uid in old(store.classifiers) ==> o == Fail("Classifier uid " + uid + " exists already")
      ensures uid !in old(store.classifiers) && old(MissingResource(store)) ==>
        exists k :: k in resources && resources[k] !in old(store.resources) &&
          o == Fail("Required resource " + resources[k] + " of Classifier " + uid + " does not exist locally")
      ensures uid !in old(store.classifiers) && !old(MissingResource(store)) && InsertFails(fault) ==>
        o == Fail("Failed to insert classifier " + uid + " into DB")
      ensures o.Fail? ==> store.Contents() == old(store.Contents()) && !saved
      ensures o.Pass? <==> uid !in old(store.classifiers) && !old(MissingResource(store)) && !InsertFails(fault)
      ensures o.Pass? ==>
        saved && store.Contents() == WithClassifier(old(store.Contents()), Record()) &&
        uid in store.classifiers && store.ClassifierView(uid) == Record()
    {
      if uid in store.classifiers {
        return Fail("Classifier uid " + uid + " exists already");
      }
      var missing := FirstMissing(store);
      if missing.Some? {
        return Fail("Required resource " + missing.value + " of Classifier " + uid + " does not exist locally");
      }
      o := SaveChecked(store, fault);
    }

    /** The inserts of `save` once the uid and the resources have been checked. */
    method SaveChecked(store: EntityStore, fault: Option<InsertStep>) returns (o: Outcome)
      requires store.Valid() && !saved
      requires uid !in store.classifiers && !MissingResource(store)
      modifies this`saved, store
      ensures store.Valid()
      ensures InsertFails(fault) ==>
        o == Fail("Failed to insert classifier " + uid + " into DB") && store.Contents() == old(store.Contents()) && !saved
      ensures !InsertFails(fault) ==>
        o == Pass && saved && store.Contents() == WithClassifier(old(store.Contents()), Record()) &&
        uid in store.classifiers && store.ClassifierView(uid) == Record()
    {
      var ok := InsertChecked(store, fault);
      if !ok {
        return Fail("Failed to insert classifier " + uid + " into DB");
      }
      MarkSaved();
      return Pass;
    }

    /** The transaction of a checked `save`: a new classifier's rows go in whole, or not at all. */
    method InsertChecked(store: EntityStore, fault: Option<InsertStep>) returns (ok: bool)
      requires store.Valid()
      requires uid !in store.classifiers && !MissingResource(store)
      modifies store
      ensures store.Valid()
      ensures ok <==> !InsertFails(fault)
      ensures !ok ==> store.Contents() == old(store.Contents())
      ensures ok ==>
        store.Contents() == WithClassifier(old(store.Contents()), Record()) &&
        uid in store.classifiers && store.ClassifierView(uid) == Record()
    {
      ghost var rec, t := Record(), store.Contents();
      SaveRoundTrip(t, rec);
      ok := InsertAll(store, fault);
      if ok {
        ghost var t' := WithClassifier(t, rec);
        assert store.classifiers == t'.classifiers && store.links == t'.links && store.meta == t'.meta;
        assert store.ClassifierView(uid) == rec;
      }
    }

    /** The object now mirrors a stored row; what it records is unchanged. */
    method MarkSaved()
      modifies this`saved
      ensures saved && Record() == old(Record())
    {
      saved := true;
    }

    /**
     * The transaction of `save`: the classifier row, then the link rows, then the meta rows;
     * a failing INSERT rolls back every row inserted before it.
     */
    method InsertAll(store: EntityStore, fault: Option<InsertStep>) returns (ok: bool)
      modifies store
      ensures ok <==> !InsertFails(fault)
      ensures !ok ==> store.Contents() == old(store.Contents())
      ensures ok ==> store.Contents() == WithClassifier(old(store.Contents()), Record())
    {
      // the transaction's starting point, restored by `db.rollback()`
      var classifiers0, links0, meta0 := store.classifiers, store.links, store.meta;
      if fault == Some(ClassifierInsert) {
        return false;
      }
      store.classifiers := store.classifiers[uid := Row()];
      ok := InsertLinkRows(store, fault);
      if ok {
        ok := InsertMetaRows(store, fault);
      }
      if !ok {
        store.classifiers, store.links, store.meta := classifiers0, links0, meta0;
      }
    }

    /** The existence check of `save`, in the dict's iteration order: the first missing resource. */
    method FirstMissing(store: EntityStore) returns (missing: Option<Uid>)
      ensures missing.None? <==> !MissingResource(store)
      ensures missing.Some? ==>
        missing.value !in store.resources && exists k :: k in resources && resources[k] == missing.value
    {
      var keys := resources.Keys;
      while keys != {}
        invariant keys <= resources.Keys
        invariant forall k :: k in resources && k !in keys ==> resources[k] in store.resources
        decreases keys
      {
        var k :| k in keys;
        if resources[k] !in store.resources {
          return Some(resources[k]);
        }
        keys := keys - {k};
      }
      return None;
    }

    /** The link-row INSERTs of `save`, one per resource key; the first failing one stops them. */
    method InsertLinkRows(store: EntityStore, fault: Option<InsertStep>) returns (ok: bool)
      modifies store
      ensures ok <==> !(fault.Some? && fault.value.LinkInsert? && fault.value.key in resources)
      ensures ok ==> store.links == old(store.links) + LinkRows(Record())
      ensures store.resources == old(store.resources) && store.classifiers == old(store.classifiers)
      ensures store.meta == old(store.meta) && store.jobs == old(store.jobs)
    {
      var done: set<string> := {};
      var keys := resources.Keys;
      while keys != {}
        invariant keys + done == resources.Keys && keys !! done
        invariant store.links == old(store.links) + set k | k in done :: Link(uid, k, resources[k])
        invariant forall k :: k in done ==> fault != Some(LinkInsert(k))
        invariant store.resources == old(store.resources) && store.classifiers == old(store.classifiers)
        invariant store.meta == old(store.meta) && store.jobs == old(store.jobs)
        decreases keys
      {
        var k :| k in keys;
        if fault == Some(LinkInsert(k)) {
          return false;
        }
        store.links := store.links + {Link(uid, k, resources[k])};
        done := done + {k};
        keys := keys - {k};
      }
      return true;
    }

    /** The meta-row INSERTs of `save`, one per meta key; the first failing one stops them. */
    method InsertMetaRows(store: EntityStore, fault: Option<InsertStep>) returns (ok: bool)
      modifies store
      ensures ok <==> !(fault.Some? && fault.value.MetaInsert? && fault.value.key in meta)
      ensures ok ==> store.meta == old(store.meta) + MetaRows(Record())
      ensures store.resources == old(store.resources) && store.classifiers == old(store.classifiers)
      ensures store.links == old(store.links) && store.jobs == old(store.jobs)
    {
      var done: set<string> := {};
      var keys := meta.Keys;
      while keys != {}
        invariant keys + done == meta.Keys && keys !! done
        invariant store.meta == old(store.meta) + MetaRowsFor(uid, meta, done)
        invariant forall k :: k in done ==> fault != Some(MetaInsert(k))
        invariant store.resources == old(store.resources) && store.classifiers == old(store.classifiers)
        invariant store.links == old(store.links) && store.jobs == old(store.jobs)
        decreases keys
      {
        var k :| k in keys;
        if fault == Some(MetaInsert(k)) {
          return false;
        }
        MetaRowsForAdd(uid, meta, done, k);
        MergeThenUpdate(old(store.meta), MetaRowsFor(uid, meta, done), MetaKey(uid, k), meta[k]);
        store.meta := store.meta[MetaKey(uid, k) := meta[k]];
        done := done + {k};
        keys := keys - {k};
      }
      assert MetaRowsFor(uid, meta, done) == MetaRows(Record());
      return true;
    }

    /**
     * `set_enabled`: the attribute changes first; the UPDATE then changes the stored row
     * (if there is one), or fails and leaves the table as it was.
     */
    method SetEnabled(store: EntityStore, value: bool, updateOk: bool) returns (o: Outcome)
      requires store.Valid()
      modifies this, store
      ensures store.Valid()
      ensures enabled == value
      ensures Record() == old(Record()).(row := old(Row()).(enabled := value))
      ensures saved == old(saved)
      ensures store.resources == old(store.resources) && store.links == old(store.links)
      ensures store.meta == old(store.meta) && store.jobs == old(store.jobs)
      ensures !updateOk ==>
        o == Fail("Failed to update classifier " + uid + " as enabled=" + PyBool(value)) &&
        store.classifiers == old(store.classifiers)
      ensures updateOk ==>
        o == Pass &&
        store.classifiers ==
          if uid in old(store.classifiers) then old(store.classifiers)[uid := old(store.classifiers)[uid].(enabled := value)]
          else old(store.classifiers)
    {
      enabled := value;
      if !updateOk {
        return Fail("Failed to update classifier " + uid + " as enabled=" + PyBool(value));
      }
      if uid in store.classifiers {
        store.classifiers := store.classifiers[uid := store.classifiers[uid].(enabled := value)];
      }
      return Pass;
    }

    /**
     * `remove`: deletes this classifier's meta rows, link rows and row, with no dependency
     * check; resources and jobs are left alone.
     */
    method Remove(store: EntityStore)
      requires store.Valid()
      modifies store
      ensures store.Valid()
      ensures store.Contents() == WithoutClassifier(old(store.Contents()), uid)
    {
      RemoveKeepsValid(store.Contents(), uid);
      store.meta := MetaWithout(store.meta, uid);
      store.links := LinksWithout(store.links, uid);
      store.classifiers := store.classifiers - {uid};
    }

    /**
     * `train` after the save: refuses a classifier that is already trained; otherwise the state
     * becomes `'Training'` and is stored, then `'Ready'` with the finish time, and stored again.
     * A failed UPDATE leaves its row as it was, with the attributes already changed.
     */
    method TrainSaved(store: EntityStore, now: string, startOk: bool, endOk: bool) returns (o: Outcome)
      requires store.Valid()
      modifies this, store
      ensures store.Valid()
      ensures store.resources == old(store.resources) && store.links == old(store.links)
      ensures store.meta == old(store.meta) && store.jobs == old(store.jobs)
      ensures enabled == old(enabled) && saved == old(saved)
      ensures old(Trained()) ==>
        o == Fail("Model " + uid + " is already trained") && store.Contents() == old(store.Contents()) && unchanged(this)
      ensures !old(Trained()) && !startOk ==>
        o == Fail("Failed to update classifier " + uid + " as training started") &&
        state == "Training" && finishedOn == old(finishedOn) && store.Contents() == old(store.Contents())
      ensures !old(Trained()) && startOk ==>
        var training := if uid in old(store.classifiers) then old(store.classifiers)[uid := old(store.classifiers)[uid].(state := "Training")] else old(store.classifiers);
        state == "Ready" && finishedOn == Some(now) &&
        (endOk ==>
          o == Pass &&
          store.classifiers == if uid in training then training[uid := training[uid].(state := "Ready", finishedOn := Some(now))] else training) &&
        (!endOk ==>
          o == Fail("Failed to update classifier " + uid + " as training started") &&
          store.classifiers == training)
    {
      if finishedOn.Some? {
        return Fail("Model " + uid + " is already trained");
      }
      state := "Training";
      if !startOk {
        return Fail("Failed to update classifier " + uid + " as training started");
      }
      if uid in store.classifiers {
        store.classifiers := store.classifiers[uid := store.classifiers[uid].(state := state)];
      }
      state := "Ready";
      finishedOn := Some(now);
      if !endOk {
        return Fail("Failed to update classifier " + uid + " as training started");
      }
      if uid in store.classifiers {
        store.classifiers := store.classifiers[uid := store.classifiers[uid].(finishedOn := finishedOn, state := state)];
      }
      return Pass;
    }

    /**
     * `train`: saves an unsaved classifier first (its failure is raised), then runs the
     * training steps; no training algorithm is invoked.
     */
    method Train(store: EntityStore, now: string, saveFault: Option<InsertStep>, startOk: bool, endOk: bool)
      returns (o: Outcome)
      requires store.Valid()
      modifies this, store
      ensures store.Valid()
      ensures store.resources == old(store.resources) && store.jobs == old(store.jobs)
      ensures old(Trained()) ==> o.Fail?
      ensures o.Pass? <==>
        (old(saved) || (uid !in old(store.classifiers) && !old(MissingResource(store)) && !InsertFails(saveFault))) &&
        !old(Trained()) && startOk && endOk
      ensures o.Pass? ==>
        saved && state == "Ready" && finishedOn == Some(now) &&
        (uid in old(store.classifiers) ==>
          uid in store.classifiers &&
          store.classifiers[uid] == old(store.classifiers)[uid].(state := "Ready", finishedOn := Some(now))) &&
        (!old(saved) ==> uid in store.classifiers && store.classifiers[uid] == Row())
    {
      if !saved {
        o := Save(store, saveFault);
        if o.Fail? {
          return;
        }
      }
      o := TrainSaved(store, now, startOk, endOk);
    }

    /** Whether `Resource.get(uid)` finds a row. */
    static predicate Findable(store: EntityStore, u: Uid)
      reads store
    {
      if u == "" then store.resources != map[] else u in store.resources
    }

    /**
     * The `resource_paths` dict of `classify`: each resource's directory under the resources
     * path, looked up by `Resource.get`; a lookup that finds nothing raises on `.path`.
     */
    method ResourcePaths(store: EntityStore) returns (r: Result<map<string, string>>)
      ensures r.Ok? <==> forall k :: k in resources ==> Findable(store, resources[k])
      ensures r.Err? ==> r == Err("'NoneType' object has no attribute 'path'")
      ensures r.Ok? ==> r.value.Keys == resources.Keys
      ensures r.Ok? ==> forall k :: k in resources && resources[k] != "" ==>
        resources[k] in store.resources &&
        r.value[k] == Paths.Join(ResourcesPath, store.resources[resources[k]].path)
      ensures r.Ok? ==> forall k :: k in resources && resources[k] == "" ==>
        exists res :: res in store.resources.Values && r.value[k] == Paths.Join(ResourcesPath, res.path)
    {
      var paths: map<string, string> := map[];
      var keys := resources.Keys;
      while keys != {}
        invariant keys <= resources.Keys
        invariant paths.Keys == resources.Keys - keys
        invariant forall k :: k in paths ==> Findable(store, resources[k])
        invariant forall k :: k in paths && resources[k] != "" ==>
          paths[k] == Paths.Join(ResourcesPath, store.resources[resources[k]].path)
        invariant forall k :: k in paths && resources[k] == "" ==>
          exists res :: res in store.resources.Values && paths[k] == Paths.Join(ResourcesPath, res.path)
        decreases keys
      {
        var k :| k in keys;
        var res := store.GetResource(resources[k]);
        if res.None? {
          return Err("'NoneType' object has no attribute 'path'");
        }
        paths := paths[k := Paths.Join(ResourcesPath, res.value.path)];
        keys := keys - {k};
      }
      return Ok(paths);
    }

    /**
     * `classify`: saves an unsaved classifier first; the `trained` test names the method
     * without calling it and so never refuses; a disabled classifier is refused; then the
     * call to `model_registry.classify` is handed over for the pool to run.
     */
    method Classify(store: EntityStore, job: JobContext, inCsv: string, inDescCol: string, inResCol: string,
                    outCsv: string, outClassCol: string, saveFault: Option<InsertStep>) returns (r: Result<WorkItem>)
      requires store.Valid()
      modifies this, store
      ensures store.Valid()
      ensures store.resources == old(store.resources) && store.jobs == old(store.jobs)
      ensures Record() == old(Record())
      ensures (old(saved) || (uid !in old(store.classifiers) && !old(MissingResource(store)) && !InsertFails(saveFault))) ==>
        (r.Ok? <==> enabled && forall k :: k in resources ==> Findable(store, resources[k]))
      ensures old(saved) ==> store.Contents() == old(store.Contents())
      ensures !old(saved) && uid in old(store.classifiers) ==>
        r == Err("Classifier uid " + uid + " exists already") && store.Contents() == old(store.Contents())
      ensures !old(saved) && uid !in old(store.classifiers) && old(MissingResource(store)) ==>
        store.Contents() == old(store.Contents()) &&
        exists k :: k in resources && resources[k] !in old(store.resources) &&
          r == Err("Required resource " + resources[k] + " of Classifier " + uid + " does not exist locally")
      ensures !old(saved) && uid !in old(store.classifiers) && !old(MissingResource(store)) && InsertFails(saveFault) ==>
        r == Err("Failed to insert classifier " + uid + " into DB") && store.Contents() == old(store.Contents())
      ensures !old(saved) && uid !in old(store.classifiers) && !old(MissingResource(store)) && !InsertFails(saveFault) ==>
        saved && store.Contents() == WithClassifier(old(store.Contents()), Record())
      ensures (!enabled &&
               (old(saved) || (uid !in old(store.classifiers) && !old(MissingResource(store)) && !InsertFails(saveFault))))
        ==> r == Err("Model " + uid + " is not enabled")
      ensures old(saved) && enabled && (exists k :: k in resources && !Findable(store, resources[k])) ==>
        r == Err("'NoneType' object has no attribute 'path'")
      ensures r.Ok? ==>
        r.value.job == job && r.value.modelType == modelType && r.value.meta == meta &&
        r.value.inCsv == inCsv && r.value.inDescCol == inDescCol && r.value.inResCol == inResCol &&
        r.value.outCsv == outCsv && r.value.outClassCol == outClassCol &&
        r.value.resourcePaths.Keys == resources.Keys &&
        forall k :: k in resources && resources[k] != "" ==>
          resources[k] in store.resources &&
          r.value.resourcePaths[k] == Paths.Join(ResourcesPath, store.resources[resources[k]].path)
    {
      if !saved {
        var s := Save(store, saveFault);
        if s.Fail? {
          return Err(s.message);
        }
      }
      if !enabled {
        return Err("Model " + uid + " is not enabled");
      }
      var paths := ResourcePaths(store);
      if paths.Err? {
        return Err(paths.message);
      }
      return Ok(WorkItem(job, modelType, meta, paths.value, inCsv, inDescCol, inResCol, outCsv, outClassCol));
    }

    /**
     * `Classifier.add`: a new object with a generated uid when none is given and the local
     * creation time set now, saved at once.
     */
    static method Add(store: EntityStore, modelType: string, title: string, enabled: bool, language: string,
                      trainingSetSize: Option<int>, resources: map<string, Uid>, meta: map<string, string>,
                      uid: Uid, createdOn: string, finishedOn: Option<string>, state: string,
                      freshUid: Uid, now: string, fault: Option<InsertStep>) returns (c: Classifier, o: Outcome)
      requires store.Valid()
      modifies store
      ensures store.Valid()
      ensures fresh(c)
      ensures c.Record() == ClassifierRecord(
        ClassifierRow(ChosenUid(uid, freshUid), modelType, title, enabled, language, trainingSetSize,
                      createdOn, finishedOn, now, state), resources, meta)
      ensures o.Pass? <==>
        ChosenUid(uid, freshUid) !in old(store.classifiers) &&
        (forall k :: k in resources ==> resources[k] in old(store.resources)) && !c.InsertFails(fault)
      ensures o.Pass? ==>
        c.saved && ChosenUid(uid, freshUid) in store.classifiers &&
        store.ClassifierView(ChosenUid(uid, freshUid)) == c.Record()
      ensures o.Fail? ==> store.Contents() == old(store.Contents())
    {
      var rec := ClassifierRecord(
        ClassifierRow(ChosenUid(uid, freshUid), modelType, title, enabled, language, trainingSetSize,
                      createdOn, finishedOn, now, state), resources, meta);
      c := new Classifier(rec, false);
      o := c.Save(store, fault);
    }
  }

  /** A job: its identity, its progress triple, and an optional extra progress listener. */
  class JobContext {
    const uid: Uid
    const dirName: string
    const createdOn: string
    const classifierUid: Uid
    /** `<WORK_PATH>/<secure_filename(dir_name)>`. */
    const workDir: string
    var status: string
    var progressPercentage: int
    var progressText: string
    /** `aux_progress_callback`: the classification whose `_update_progress` hears every report. */
    var aux: Pasir.PasirTicketClassification?

    /** `secureDirName` is `secure_filename(dirName)`, computed outside this model. */
    constructor (uid: Uid, dirName: string, createdOn: string, classifierUid: Uid,
                 status: string, progressPercentage: int, progressText: string, secureDirName: string)
      ensures this.uid == uid && this.dirName == dirName && this.createdOn == createdOn
      ensures this.classifierUid == classifierUid && workDir == Paths.Join(WorkPath, secureDirName)
      ensures this.status == status && this.progressPercentage == progressPercentage
      ensures this.progressText == progressText && aux == null
    {
      this.uid := uid;
      this.dirName := dirName;
      this.createdOn := createdOn;
      this.classifierUid := classifierUid;
      workDir := Paths.Join(WorkPath, secureDirName);
      this.status := status;
      this.progressPercentage := progressPercentage;
      this.progressText := progressText;
      aux := null;
    }

    function Row(): JobRow
      reads this
    {
      JobRow(uid, dirName, createdOn, classifierUid, status, progressPercentage, progressText)
    }

    /** The objects a progress report may change besides this job and its store. */
    function AuxFrame(): set<object>
      reads this
    {
      if aux == null then {} else {aux.db, aux.gate, aux.fs}
    }

    /** The exception a failed `save` raises. */
    function SaveError(store: EntityStore): string
      reads store
    {
      if uid in store.jobs then "Failed to update job status of " + uid else "Failed to insert job " + uid
    }

    /** The job table after a successful `save`: an existing row changes only its progress triple. */
    function SavedJobs(store: EntityStore): map<Uid, JobRow>
      reads this, store
    {
      if uid in store.jobs then
        store.jobs[uid := store.jobs[uid].(status := status, percentage := progressPercentage, text := progressText)]
      else store.jobs[uid := Row()]
    }

    /**
     * `save`: an UPDATE of status, percentage and text when the row exists, else an INSERT of
     * every column; a failure leaves the table as it was.
     */
    method Save(store: EntityStore, ok: bool) returns (o: Outcome)
      requires store.Valid()
      modifies store
      ensures store.Valid() && store.OnlyJobsChanged()
      ensures ok ==> o == Pass && store.jobs == old(SavedJobs(store))
      ensures !ok ==> o == Fail(old(SaveError(store))) && store.jobs == old(store.jobs)
      ensures uid in old(store.jobs) && ok ==>
        var r := store.jobs[uid];
        r.dirName == old(store.jobs[uid].dirName) && r.createdOn == old(store.jobs[uid].createdOn) &&
        r.classifierUid == old(store.jobs[uid].classifierUid) &&
        r.status == status && r.percentage == progressPercentage && r.text == progressText
    {
      if !ok {
        return Fail(SaveError(store));
      }
      store.jobs := SavedJobs(store);
      return Pass;
    }

    /**
     * `update_progress`: sets the triple exactly as given, saves it, and then passes the
     * report to the listener, whose failure is raised; a failed save raises before it.
     */
    method UpdateProgress(store: EntityStore, percentage: int, text: string, status: string, saveOk: bool)
      returns (o: Outcome)
      requires store.Valid()
      requires saveOk && aux != null && Pasir.TriggersInsert(percentage, status, aux.ticketCount) ==> aux.gate.permits > 0
      modifies this, store, AuxFrame()
      ensures store.Valid() && store.OnlyJobsChanged()
      ensures this.status == status && progressPercentage == percentage && progressText == text
      ensures aux == old(aux)
      ensures saveOk ==> store.jobs == old(store.jobs)[uid := if uid in old(store.jobs)
        then old(store.jobs)[uid].(status := status, percentage := percentage, text := text)
        else Row()]
      ensures !saveOk ==> o == Fail(old(SaveError(store))) && store.jobs == old(store.jobs)
      ensures !saveOk && aux != null ==> unchanged(aux.db, aux.gate, aux.fs)
      ensures saveOk && aux == null ==> o == Pass
      ensures saveOk && aux != null ==> aux.Reported(percentage, text, status, o)
      ensures saveOk && aux != null ==> o == old(aux.ReportOutcome(percentage, status))
    {
      this.status := status;
      progressPercentage := percentage;
      progressText := text;
      o := Save(store, saveOk);
      if o.Fail? {
        return;
      }
      if aux != null {
        o := aux.UpdateProgress(percentage, text, status);
      }
    }

    /** `mark_done`: the report ('Done', 100, 'Done'). */
    method MarkDone(store: EntityStore, saveOk: bool) returns (o: Outcome)
      requires store.Valid()
      requires saveOk && aux != null && Pasir.TriggersInsert(100, "Done", aux.ticketCount) ==> aux.gate.permits > 0
      modifies this, store, AuxFrame()
      ensures store.Valid() && store.OnlyJobsChanged()
      ensures status == "Done" && progressPercentage == 100 && progressText == "Done"
      ensures aux == old(aux)
      ensures saveOk ==> store.jobs == old(store.jobs)[uid := if uid in old(store.jobs)
        then old(store.jobs)[uid].(status := "Done", percentage := 100, text := "Done")
        else Row()]
      ensures !saveOk ==> o == Fail(old(SaveError(store))) && store.jobs == old(store.jobs)
      ensures !saveOk && aux != null ==> unchanged(aux.db, aux.gate, aux.fs)
      ensures saveOk && aux == null ==> o == Pass
      ensures saveOk && aux != null ==> aux.Reported(100, "Done", "Done", o)
      ensures saveOk && aux != null ==> o == old(aux.ReportOutcome(100, "Done"))
      ensures aux != null ==> aux.ticketCount == old(aux.ticketCount)
    {
      o := UpdateProgress(store, 100, "Done", "Done", saveOk);
    }

    /** `remove`: the row is deleted whatever happens to the work directory. */
    method Remove(store: EntityStore)
      requires store.Valid()
      modifies store
      ensures store.Valid() && store.OnlyJobsChanged()
      ensures store.jobs == old(store.jobs) - {uid}
    {
      store.DeleteJob(uid);
    }

    /**
     * `JobContext.create`: a new job named `<stamp>-<uid>`, status 'Scheduled' at 0 percent,
     * saved at once (a failed save is raised).
     */
    static method Create(store: EntityStore, classifierUid: Uid, freshUid: Uid, stamp: string, now: string,
                         secureDirName: string, saveOk: bool) returns (job: JobContext, o: Outcome)
      requires store.Valid()
      modifies store
      ensures store.Valid() && store.OnlyJobsChanged()
      ensures fresh(job) && job.aux == null
      ensures job.Row() == JobRow(freshUid, stamp + "-" + freshUid, now, classifierUid, "Scheduled", 0, "")
      ensures job.workDir == Paths.Join(WorkPath, secureDirName)
      ensures saveOk ==> o == Pass && store.jobs == old(store.jobs)[freshUid := if freshUid in old(store.jobs)
        then old(store.jobs)[freshUid].(status := "Scheduled", percentage := 0, text := "")
        else job.Row()]
      ensures !saveOk ==> o.Fail? && store.jobs == old(store.jobs)
    {
      job := new JobContext(freshUid, stamp + "-" + freshUid, now, classifierUid, "Scheduled", 0, "", secureDirName);
      o := job.Save(store, saveOk);
    }
  }
}
