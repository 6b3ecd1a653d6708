/**
 * Replication from a peer API: `Remote.fetch_resource` and `Remote.fetch_classifier`. The
 * peer is a catalogue of what its calls answer; an answer it does not have is a call that
 * raises. Local timestamps, generated uids and INSERT failures are given as `LocalOutcomes`.
 */
module Replication {
  import opened Wrappers
  import opened Entities
  import Paths
  import Store

  /** `config.TEMP_PATH` default. */
  const TempPath: string := "/tmp"

  /** The message of a remote call that raises (transport error or error answer). */
  const RpcFailure: string := "remote call failed"

  /** What `GET <url>/resource.download/<uid>` gives: the archive (status 200), a 401, or another status. */
  datatype Download = Delivered(archive: Store.Archive) | Unauthorized | DownloadFailed

  /** What the peer's `resource.get` tells about a resource, and what downloading it gives. */
  datatype RemoteResource = RemoteResource(resourceType: string, createdOn: string, download: Download)

  /** The peer's address and API key. */
  datatype Remote = Remote(url: string, key: string)

  /**
   * What the peer answers: `classifier.get_all` (None when the call raises), `classifier.get`
   * and `resource.get` by uid (a missing uid raises).
   */
  datatype Peer = Peer(
    listing: Option<seq<ClassifierRecord>>,
    classifiers: map<Uid, ClassifierRecord>,
    resources: map<Uid, RemoteResource>)

  /**
   * The local side of a replication: the local time, the uid `uuid1()` would generate, the
   * resource uids whose INSERT fails, and the INSERT of `save` that fails for a classifier uid.
   */
  datatype LocalOutcomes = LocalOutcomes(
    now: string, freshUid: Uid, failedInserts: set<Uid>, saveFaults: map<Uid, Store.InsertStep>)

  function SaveFault(env: LocalOutcomes, uid: Uid): Option<Store.InsertStep> {
    if uid in env.saveFaults then Some(env.saveFaults[uid]) else None
  }

  /** The peer describes the resource, delivers a non-empty archive that extracts, and the INSERT succeeds. */
  predicate Fetchable(peer: Peer, uid: Uid, env: LocalOutcomes) {
    uid in peer.resources &&
    var d := peer.resources[uid].download;
    d.Delivered? && d.archive.Opened? && d.archive.names != [] && d.archive.extracts &&
    Store.ChosenUid(uid, env.freshUid) !in env.failedInserts
  }

  /** The row a fetched resource gets: its type doubles as its title, and the peer's creation time is kept. */
  function FetchedRow(rr: RemoteResource, uid: Uid, now: string): (r: Resource)
    ensures r.uid == uid && r.title == rr.resourceType && r.resourceType == rr.resourceType
    ensures r.createdOn == rr.createdOn && r.localCreatedOn == now
    ensures r.path == Store.ResourceDir(rr.resourceType, uid)
  {
    Resource(uid, rr.resourceType, rr.resourceType, rr.createdOn, now, Store.ResourceDir(rr.resourceType, uid))
  }

  /**
   * `fetch_resource`: refuses a resource that exists locally; asks the peer for its details,
   * downloads its archive, and adds it from the archive.
   */
  method FetchResource(store: Store.EntityStore, remote: Remote, peer: Peer, uid: Uid, env: LocalOutcomes)
    returns (r: Result<Resource>)
    requires store.Valid()
    modifies store
    ensures store.Valid() && store.OnlyResourcesChanged()
    ensures r.Err? ==> store.resources == old(store.resources)
    ensures uid in old(store.resources) ==> r == Err("Resource uid " + uid + " already exists locally")
    ensures uid !in old(store.resources) && uid !in peer.resources ==> r == Err(RpcFailure)
    ensures uid !in old(store.resources) && uid in peer.resources && peer.resources[uid].download.Unauthorized? ==>
      r == Err("API-key verification failed with " + remote.url + " using key=\"" + remote.key + "\"")
    ensures uid !in old(store.resources) && uid in peer.resources && peer.resources[uid].download.DownloadFailed? ==>
      r == Err("Downloading remote resource from " + remote.url + "/resource.download/" + uid + " has failed")
    ensures r.Ok? <==>
      uid !in old(store.resources) && Fetchable(peer, uid, env) &&
      Store.ChosenUid(uid, env.freshUid) !in old(store.resources)
    ensures r.Ok? ==>
      var u := Store.ChosenUid(uid, env.freshUid);
      r.value == FetchedRow(peer.resources[uid], u, env.now) &&
      store.resources == old(store.resources)[u := r.value]
  {
    if uid in store.resources {
      return Err("Resource uid " + uid + " already exists locally");
    }
    if uid !in peer.resources {
      return Err(RpcFailure);
    }
    var rr := peer.resources[uid];
    var gzPath := Paths.Join(TempPath, "remote-" + uid + ".tar.gz");
    match rr.download
    case Unauthorized =>
      return Err("API-key verification failed with " + remote.url + " using key=\"" + remote.key + "\"");
    case DownloadFailed =>
      return Err("Downloading remote resource from " + remote.url + "/resource.download/" + uid + " has failed");
    case Delivered(archive) =>
      var insertOk := Store.ChosenUid(uid, env.freshUid) !in env.failedInserts;
      r := store.AddResourceFromTargz(rr.resourceType, rr.resourceType, gzPath, uid, rr.createdOn,
                                      env.freshUid, env.now, archive, insertOk);
  }

  /** The uids a fetch of these dependencies may add. */
  function FetchTargets(resources: map<string, Uid>, freshUid: Uid): set<Uid> {
    set k | k in resources :: Store.ChosenUid(resources[k], freshUid)
  }

  /**
   * What makes `fetch_classifier` succeed against these tables: the uid is new here, the peer has the classifier,
   * every dependency is local or fetchable under its own (non-empty) uid, the classifier's
   * own uid is new here, and no INSERT of its `save` fails.
   */
  predicate Replicable(t: Store.Tables, peer: Peer, uid: Uid, env: LocalOutcomes) {
    uid !in t.classifiers && uid in peer.classifiers &&
    var c := peer.classifiers[uid];
    DependenciesReachable(t.resources, peer, uid, env) &&
    c.Uid() !in t.classifiers && !Store.FaultHits(SaveFault(env, c.Uid()), c.resources, c.meta)
  }

  /** Every dependency of the peer's classifier is local or fetchable under its own (non-empty) uid. */
  predicate DependenciesReachable(resources: map<Uid, Resource>, peer: Peer, uid: Uid, env: LocalOutcomes)
    requires uid in peer.classifiers
  {
    var deps := peer.classifiers[uid].resources;
    forall k :: k in deps ==> deps[k] in resources || (deps[k] != "" && Fetchable(peer, deps[k], env))
  }

  /** `t1` keeps every row of `t0`: resources, classifiers and meta entries with their values, link rows, and jobs. */
  predicate Extends(t0: Store.Tables, t1: Store.Tables) {
    (forall v :: v in t0.resources ==> v in t1.resources && t1.resources[v] == t0.resources[v]) &&
    (forall u :: u in t0.classifiers ==> u in t1.classifiers && t1.classifiers[u] == t0.classifiers[u]) &&
    t0.links <= t1.links &&
    (forall mk :: mk in t0.meta ==> mk in t1.meta && t1.meta[mk] == t0.meta[mk]) &&
    t1.jobs == t0.jobs
  }

  lemma ExtendsTransitive(t0: Store.Tables, t1: Store.Tables, t2: Store.Tables)
    requires Extends(t0, t1) && Extends(t1, t2)
    ensures Extends(t0, t2)
  {
  }

  /**
   * Replicability only improves with more local resources: with the same classifier table,
   * a classifier replicable against `t0` is replicable against `t1`.
   */
  lemma ReplicableMonotone(t0: Store.Tables, t1: Store.Tables, peer: Peer, uid: Uid, env: LocalOutcomes)
    requires t0.resources.Keys <= t1.resources.Keys && t0.classifiers == t1.classifiers
    requires Replicable(t0, peer, uid, env)
    ensures Replicable(t1, peer, uid, env)
  {
  }

  /**
   * A classifier not replicable against `before` was not replicable with fewer local
   * resources either, against the classifier table it left unchanged.
   */
  lemma NotReplicableEarlier(resources: map<Uid, Resource>, before: Store.Tables, after: Store.Tables,
                             peer: Peer, uid: Uid, env: LocalOutcomes)
    requires forall v :: v in resources ==> v in before.resources
    requires after.classifiers == before.classifiers
    requires !Replicable(before, peer, uid, env)
    ensures !Replicable(Store.Tables(resources, after.classifiers, after.links, after.meta, after.jobs), peer, uid, env)
  {
    var t0 := Store.Tables(resources, after.classifiers, after.links, after.meta, after.jobs);
    if Replicable(t0, peer, uid, env) {
      ReplicableMonotone(t0, before, peer, uid, env);
    }
  }

  /** A successful `fetch_classifier` on valid tables keeps every earlier row. */
  lemma SavedExtends(t0: Store.Tables, t1: Store.Tables, c: ClassifierRecord)
    requires t0.Valid() && c.Uid() !in t0.classifiers
    requires forall v :: v in t0.resources ==> v in t1.resources && t1.resources[v] == t0.resources[v]
    requires t1.classifiers == t0.classifiers[c.Uid() := c.row]
    requires t1.links == t0.links + LinkRows(c) && t1.meta == t0.meta + MetaRows(c) && t1.jobs == t0.jobs
    ensures Extends(t0, t1)
  {
    forall mk | mk in t0.meta
      ensures mk in t1.meta && t1.meta[mk] == t0.meta[mk]
    {
      assert mk.classifierUid in t0.classifiers;
      assert mk !in MetaRows(c);
    }
  }

  /**
   * `fetch_classifier`: refuses a classifier that exists locally; asks the peer for it,
   * fetches each dependency that is missing here, then saves the classifier exactly as the
   * peer sent it (its `local_created_on` included). Resources fetched before a failure stay.
   */
  method FetchClassifier(store: Store.EntityStore, remote: Remote, peer: Peer, uid: Uid, env: LocalOutcomes)
    returns (o: Outcome)
    requires store.Valid()
    modifies store
    ensures store.Valid()
    ensures store.jobs == old(store.jobs)
    ensures uid in old(store.classifiers) ==>
      o == Fail("Classifier uid " + uid + " already exists locally") && store.Contents() == old(store.Contents())
    ensures uid !in old(store.classifiers) && uid !in peer.classifiers ==>
      o == Fail(RpcFailure) && store.Contents() == old(store.Contents())
    ensures forall v :: v in old(store.resources) ==> v in store.resources && store.resources[v] == old(store.resources)[v]
    ensures forall v :: v in store.resources && v !in old(store.resources) ==>
      uid in peer.classifiers && v in FetchTargets(peer.classifiers[uid].resources, env.freshUid)
    ensures forall v :: v in store.resources && v !in old(store.resources) && v != env.freshUid ==>
      v in peer.resources && store.resources[v] == FetchedRow(peer.resources[v], v, env.now)
    ensures o.Fail? ==>
      store.classifiers == old(store.classifiers) && store.links == old(store.links) && store.meta == old(store.meta)
    ensures Replicable(old(store.Contents()), peer, uid, env) ==> o.Pass?
    // the dependencies are fetched before the save, and a failed save does not undo them
    ensures uid !in old(store.classifiers) && uid in peer.classifiers && DependenciesReachable(old(store.resources), peer, uid, env) ==>
      var deps := peer.classifiers[uid].resources;
      forall k :: k in deps ==> deps[k] in store.resources || deps[k] == ""
    ensures o.Pass? ==>
      var c := peer.classifiers[uid];
      uid !in old(store.classifiers) && c.Uid() !in old(store.classifiers) &&
      (forall k :: k in c.resources ==> c.resources[k] in store.resources) &&
      store.classifiers == old(store.classifiers)[c.Uid() := c.row] &&
      store.links == old(store.links) + LinkRows(c) && store.meta == old(store.meta) + MetaRows(c) &&
      store.ClassifierView(c.Uid()) == c
  {
    if uid in store.classifiers {
      return Fail("Classifier uid " + uid + " already exists locally");
    }
    if uid !in peer.classifiers {
      return Fail(RpcFailure);
    }
    var rec := peer.classifiers[uid];
    o := FetchDependencies(store, remote, peer, rec.resources, env);
    if o.Fail? {
      return;
    }
    o := SaveFetched(store, rec, env);
  }

  /** The last step of `fetch_classifier`: the peer's classifier is saved exactly as it was sent. */
  method SaveFetched(store: Store.EntityStore, rec: ClassifierRecord, env: LocalOutcomes) returns (o: Outcome)
    requires store.Valid()
    modifies store
    ensures store.Valid()
    ensures o.Fail? ==> store.Contents() == old(store.Contents())
    ensures o.Pass? <==>
      rec.Uid() !in old(store.classifiers) && (forall k :: k in rec.resources ==> rec.resources[k] in old(store.resources)) &&
      !Store.FaultHits(SaveFault(env, rec.Uid()), rec.resources, rec.meta)
    ensures o.Pass? ==>
      store.Contents() == Store.WithClassifier(old(store.Contents()), rec) &&
      rec.Uid() in store.classifiers && store.ClassifierView(rec.Uid()) == rec
  {
    var c := new Store.Classifier(rec, false);
    assert c.MissingResource(store) <==> !(forall k :: k in rec.resources ==> rec.resources[k] in store.resources);
    // a new object is not yet saved, so `save` goes straight to its checks
    o := c.SaveNew(store, SaveFault(env, rec.Uid()));
    assert c.Record() == rec;
  }

  /**
   * The dependency loop of `fetch_classifier`: each resource missing here, in the dict's
   * iteration order, is fetched; the first failing fetch ends the loop.
   */
  method FetchDependencies(store: Store.EntityStore, remote: Remote, peer: Peer, resources: map<string, Uid>,
                           env: LocalOutcomes) returns (o: Outcome)
    requires store.Valid()
    modifies store
    ensures store.Valid() && store.OnlyResourcesChanged()
    ensures forall v :: v in old(store.resources) ==> v in store.resources && store.resources[v] == old(store.resources)[v]
    ensures forall v :: v in store.resources && v !in old(store.resources) ==> v in FetchTargets(resources, env.freshUid)
    ensures forall v :: v in store.resources && v !in old(store.resources) && v != env.freshUid ==>
      v in peer.resources && store.resources[v] == FetchedRow(peer.resources[v], v, env.now)
    // an empty uid is fetched under a generated one, so that dependency itself stays missing
    ensures o.Pass? ==> forall k :: k in resources ==> resources[k] in store.resources || resources[k] == ""
    ensures (forall k :: k in resources ==>
      resources[k] in old(store.resources) || (resources[k] != "" && Fetchable(peer, resources[k], env))) ==>
      o.Pass?
  {
    var keys := resources.Keys;
    while keys != {}
      invariant store.Valid() && store.OnlyResourcesChanged()
      invariant keys <= resources.Keys
      invariant forall v :: v in old(store.resources) ==> v in store.resources && store.resources[v] == old(store.resources)[v]
      invariant forall v :: v in store.resources && v !in old(store.resources) ==> v in FetchTargets(resources, env.freshUid)
      invariant forall v :: v in store.resources && v !in old(store.resources) && v != env.freshUid ==>
        v in peer.resources && store.resources[v] == FetchedRow(peer.resources[v], v, env.now)
      invariant forall k :: k in resources && k !in keys ==> resources[k] in store.resources || resources[k] == ""
      decreases keys
    {
      var k :| k in keys;
      var u := resources[k];
      o := FetchIfMissing(store, remote, peer, u, env);
      if o.Fail? {
        return;
      }
      assert Store.ChosenUid(u, env.freshUid) in FetchTargets(resources, env.freshUid);
      keys := keys - {k};
    }
    return Pass;
  }

  /** One round of the dependency loop: a resource missing here is fetched, a local one is left alone. */
  method FetchIfMissing(store: Store.EntityStore, remote: Remote, peer: Peer, u: Uid, env: LocalOutcomes)
    returns (o: Outcome)
    requires store.Valid()
    modifies store
    ensures store.Valid() && store.OnlyResourcesChanged()
    ensures forall v :: v in old(store.resources) ==> v in store.resources && store.resources[v] == old(store.resources)[v]
    ensures forall v :: v in store.resources && v !in old(store.resources) ==> v == Store.ChosenUid(u, env.freshUid)
    ensures forall v :: v in store.resources && v !in old(store.resources) && v != env.freshUid ==>
      v in peer.resources && store.resources[v] == FetchedRow(peer.resources[v], v, env.now)
    ensures o.Pass? ==> u in store.resources || u == ""
    ensures u in old(store.resources) || (u != "" && Fetchable(peer, u, env)) ==> o.Pass?
  {
    if u in store.resources {
      return Pass;
    }
    var fetched := FetchResource(store, remote, peer, u, env);
    o := fetched.ToOutcome();
  }
}
