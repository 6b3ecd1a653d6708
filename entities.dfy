/**
 * The rows of the five local tables (RESOURCE, CLASSIFIER, CLASSIFIER_RESOURCE,
 * CLASSIFIER_META, JOB) and the pure views that assemble a classifier from its rows.
 */
module Entities {
  import opened Wrappers

  type Uid = string

  /** A RESOURCE row; `path` is the resource's directory under the resources path. */
  datatype Resource = Resource(
    uid: Uid, resourceType: string, title: string, createdOn: string, localCreatedOn: string, path: string)

  /** The scalar columns of a CLASSIFIER row (`enabled` is stored as 0/1 and read back as `== 1`). */
  datatype ClassifierRow = ClassifierRow(
    uid: Uid, modelType: string, title: string, enabled: bool, language: string,
    trainingSetSize: Option<int>, createdOn: string, finishedOn: Option<string>,
    localCreatedOn: string, state: string)

  /** A whole classifier: its row, its resource dependencies by key, and its meta entries. */
  datatype ClassifierRecord = ClassifierRecord(row: ClassifierRow, resources: map<string, Uid>, meta: map<string, string>)
  {
    function Uid(): Uid { row.uid }
    /** `trained()`: a finish time has been recorded. */
    predicate Trained() { row.finishedOn.Some? }
  }

  /** A CLASSIFIER_RESOURCE row; the whole triple is the primary key. */
  datatype Link = Link(classifierUid: Uid, key: string, resourceUid: Uid)

  /** The primary key of a CLASSIFIER_META row. */
  datatype MetaKey = MetaKey(classifierUid: Uid, key: string)

  /** A JOB row. */
  datatype JobRow = JobRow(
    uid: Uid, dirName: string, createdOn: string, classifierUid: Uid,
    status: string, percentage: int, text: string)

  /** The link rows `save` inserts for a classifier, one per resource key. */
  function LinkRows(c: ClassifierRecord): (r: set<Link>)
    ensures forall l :: l in r ==> l.classifierUid == c.Uid()
    ensures forall l :: l in r ==> l.key in c.resources && l.resourceUid == c.resources[l.key]
    ensures forall k :: k in c.resources ==> Link(c.Uid(), k, c.resources[k]) in r
  {
    set k | k in c.resources :: Link(c.Uid(), k, c.resources[k])
  }

  /** The meta rows `save` inserts for a classifier, one per meta key. */
  function MetaRows(c: ClassifierRecord): (r: map<MetaKey, string>)
    ensures forall mk :: mk in r ==> mk.classifierUid == c.Uid() && mk.key in c.meta && r[mk] == c.meta[mk.key]
    ensures forall k :: k in c.meta ==> MetaKey(c.Uid(), k) in r && r[MetaKey(c.Uid(), k)] == c.meta[k]
  {
    map k | k in c.meta :: MetaKey(c.Uid(), k) := c.meta[k]
  }

  /** No two link rows give the same classifier the same key with different resources. */
  predicate UniqueKeys(links: set<Link>) {
    forall l1, l2 :: l1 in links && l2 in links && l1.classifierUid == l2.classifierUid && l1.key == l2.key ==> l1 == l2
  }

  /** The `resources` dict `get_all` rebuilds from the link rows of one classifier. */
  function LinkedResources(links: set<Link>, uid: Uid): (m: map<string, Uid>)
    requires UniqueKeys(links)
    ensures forall k :: k in m <==> exists l :: l in links && l.classifierUid == uid && l.key == k
    ensures forall l :: l in links && l.classifierUid == uid ==> l.key in m && m[l.key] == l.resourceUid
  {
    map l | l in links && l.classifierUid == uid :: l.key := l.resourceUid
  }

  /** The `meta` dict `get_all` rebuilds from the meta rows of one classifier. */
  function MetaOf(meta: map<MetaKey, string>, uid: Uid): (m: map<string, string>)
    ensures forall k :: k in m <==> MetaKey(uid, k) in meta
    ensures forall k :: k in m ==> m[k] == meta[MetaKey(uid, k)]
  {
    map mk | mk in meta && mk.classifierUid == uid :: mk.key := meta[mk]
  }

  /** Adding one classifier's link rows to rows of other classifiers keeps keys unique. */
  lemma LinkRowsKeepKeysUnique(links: set<Link>, c: ClassifierRecord)
    requires UniqueKeys(links)
    requires forall l :: l in links ==> l.classifierUid != c.Uid()
    ensures UniqueKeys(links + LinkRows(c))
  {
    var all := links + LinkRows(c);
    forall l1, l2 | l1 in all && l2 in all && l1.classifierUid == l2.classifierUid && l1.key == l2.key
      ensures l1 == l2
    {
      if l1 in LinkRows(c) {
        var k1 :| k1 in c.resources && l1 == Link(c.Uid(), k1, c.resources[k1]);
        var k2 :| k2 in c.resources && l2 == Link(c.Uid(), k2, c.resources[k2]);
      }
    }
  }

  /**
   * Round trip of `resources`: link rows written by `save` for a classifier with no earlier
   * rows are read back by `get_all` as exactly its `resources` dict.
   */
  lemma LinksRoundTrip(links: set<Link>, c: ClassifierRecord)
    requires UniqueKeys(links)
    requires forall l :: l in links ==> l.classifierUid != c.Uid()
    ensures UniqueKeys(links + LinkRows(c))
    ensures LinkedResources(links + LinkRows(c), c.Uid()) == c.resources
  {
    LinkRowsKeepKeysUnique(links, c);
    var all := links + LinkRows(c);
    var r := LinkedResources(all, c.Uid());
    forall k | k in r
      ensures k in c.resources && r[k] == c.resources[k]
    {
      var l :| l in all && l.classifierUid == c.Uid() && l.key == k;
      var k1 :| k1 in c.resources && l == Link(c.Uid(), k1, c.resources[k1]);
    }
    forall k | k in c.resources
      ensures k in r
    {
      assert Link(c.Uid(), k, c.resources[k]) in all;
    }
  }

  /**
   * Round trip of `meta`: meta rows written by `save` for a classifier with no earlier rows
   * are read back by `get_all` as exactly its `meta` dict.
   */
  lemma MetaRoundTrip(meta: map<MetaKey, string>, c: ClassifierRecord)
    requires forall mk :: mk in meta ==> mk.classifierUid != c.Uid()
    ensures MetaOf(meta + MetaRows(c), c.Uid()) == c.meta
  {
    var all := meta + MetaRows(c);
    var m := MetaOf(all, c.Uid());
    forall k | k in m
      ensures k in c.meta && m[k] == c.meta[k]
    {
      assert MetaKey(c.Uid(), k) in MetaRows(c);
    }
  }

  /** The classifier `get_all` assembles for one uid. */
  function View(row: ClassifierRow, links: set<Link>, meta: map<MetaKey, string>): ClassifierRecord
    requires UniqueKeys(links)
  {
    ClassifierRecord(row, LinkedResources(links, row.uid), MetaOf(meta, row.uid))
  }
}
