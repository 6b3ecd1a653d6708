/**
 * The autosync thread: each cycle lists the peer's classifiers, queues those worth
 * replicating, and fetches them in list order; the first failure ends the cycle and is
 * logged, never raised. Sleeps are recorded in the thread's log instead of taken.
 */
module Autosync {
  import opened Wrappers
  import opened Entities
  import Store
  import Replication

  /** The start-up wait of the first sync, in seconds. */
  const FirstSyncDelay: int := 7

  /** What one sync cycle logs: the uids queued, the uids fetched, and the error that ended it. */
  datatype SyncReport = SyncReport(queued: seq<Uid>, fetched: seq<Uid>, error: Option<string>)

  /** One entry of the thread's log: a sleep, or a finished sync cycle. */
  datatype Activity = Slept(seconds: int) | Synced(report: SyncReport)

  /** What one cycle of `run` meets: the peer's answers and the local outcomes. */
  datatype Cycle = Cycle(peer: Replication.Peer, env: Replication.LocalOutcomes)

  /** A remote classifier is queued iff its type is synced, it is trained, it is new here, and it is enabled. */
  predicate Wanted(c: ClassifierRecord, types: seq<string>, local: map<Uid, ClassifierRow>) {
    c.row.modelType in types && c.Trained() && c.Uid() !in local && c.row.enabled
  }

  /** `q` is `s` with some elements left out and the rest kept in order. */
  predicate Subsequence(q: seq<ClassifierRecord>, s: seq<ClassifierRecord>)
    decreases |s|
  {
    if s == [] then q == []
    else
      (q != [] && q[|q| - 1] == s[|s| - 1] && Subsequence(q[..|q| - 1], s[..|s| - 1]))
      || Subsequence(q, s[..|s| - 1])
  }

  /** The `to_fetch` list: the wanted classifiers of the listing, in listing order. */
  function Queued(list: seq<ClassifierRecord>, types: seq<string>, local: map<Uid, ClassifierRow>)
    : (q: seq<ClassifierRecord>)
    ensures |q| <= |list|
    ensures Subsequence(q, list)
    decreases |list|
  {
    if list == [] then []
    else
      var init := list[..|list| - 1];
      var last := list[|list| - 1];
      assert list == init + [last];
      var q0 := Queued(init, types, local);
      if Wanted(last, types, local) then
        assert (q0 + [last])[..|q0 + [last]| - 1] == q0;
        q0 + [last]
      else
        q0
  }

  /** Exactly the wanted classifiers of the listing are queued. */
  lemma {:induction false} QueuedMembers(list: seq<ClassifierRecord>, types: seq<string>, local: map<Uid, ClassifierRow>)
    ensures forall c :: c in Queued(list, types, local) <==> c in list && Wanted(c, types, local)
    decreases |list|
  {
    if list != [] {
      var init := list[..|list| - 1];
      assert list == init + [list[|list| - 1]];
      QueuedMembers(init, types, local);
    }
  }

  /** Queueing keeps the listing's order: the queue of a concatenation is the concatenation of the queues. */
  lemma {:induction false} QueuedAppend(a: seq<ClassifierRecord>, b: seq<ClassifierRecord>, types: seq<string>,
                                        local: map<Uid, ClassifierRow>)
    ensures Queued(a + b, types, local) == Queued(a, types, local) + Queued(b, types, local)
    decreases |b|
  {
    if b == [] {
      assert a + b == a;
    } else {
      var init := b[..|b| - 1];
      var last := b[|b| - 1];
      var tail := if Wanted(last, types, local) then [last] else [];
      assert (a + b)[..|a + b| - 1] == a + init;
      assert (a + b)[|a + b| - 1] == last;
      assert Queued(a + b, types, local) == Queued(a + init, types, local) + tail;
      QueuedAppend(a, init, types, local);
      assert Queued(b, types, local) == Queued(init, types, local) + tail;
    }
  }

  function Uids(cs: seq<ClassifierRecord>): (us: seq<Uid>)
    ensures |us| == |cs| && forall i :: 0 <= i < |cs| ==> us[i] == cs[i].Uid()
  {
    seq(|cs|, i requires 0 <= i < |cs| => cs[i].Uid())
  }

  /**
   * The log `run` leaves after the given cycles: the first sync's start-up wait, then every
   * cycle's sync followed by a sleep of the interval.
   */
  function RunLog(firstSync: bool, reports: seq<SyncReport>, intervalSec: int): seq<Activity>
    decreases |reports|
  {
    if reports == [] then []
    else
      RunLog(firstSync, reports[..|reports| - 1], intervalSec) +
      (if firstSync && |reports| == 1 then [Slept(FirstSyncDelay)] else []) +
      [Synced(reports[|reports| - 1]), Slept(intervalSec)]
  }

  /** The log of one more cycle: the first sync's wait if it is the first, then the sync and a sleep. */
  lemma RunLogSnoc(firstSync: bool, reports: seq<SyncReport>, rep: SyncReport, intervalSec: int)
    ensures RunLog(firstSync, reports + [rep], intervalSec) ==
      RunLog(firstSync, reports, intervalSec) + (if firstSync && reports == [] then [Slept(FirstSyncDelay)] else []) +
      [Synced(rep), Slept(intervalSec)]
  {
    assert (reports + [rep])[..|reports + [rep]| - 1] == reports;
  }

  /** Once the first sync is over, `run` strictly alternates a sync and a sleep of the interval. */
  lemma {:induction false} RunLogAlternates(reports: seq<SyncReport>, intervalSec: int)
    ensures |RunLog(false, reports, intervalSec)| == 2 * |reports|
    ensures forall i :: 0 <= i < |reports| ==>
      RunLog(false, reports, intervalSec)[2 * i] == Synced(reports[i]) &&
      RunLog(false, reports, intervalSec)[2 * i + 1] == Slept(intervalSec)
    decreases |reports|
  {
    if reports != [] {
      var init := reports[..|reports| - 1];
      RunLogAlternates(init, intervalSec);
      forall i | 0 <= i < |reports|
        ensures RunLog(false, reports, intervalSec)[2 * i] == Synced(reports[i])
        ensures RunLog(false, reports, intervalSec)[2 * i + 1] == Slept(intervalSec)
      {
        if i < |init| {
          assert reports[i] == init[i];
        }
      }
    }
  }

  /** The peer's classifier of that uid is now in the local store. */
  predicate Fetched(store: Store.EntityStore, peer: Replication.Peer, u: Uid)
    reads store
  {
    u in peer.classifiers && peer.classifiers[u].Uid() in store.classifiers
  }

  /** `u` is the uid of the peer's classifier under one of the fetched uids. */
  predicate FetchedAs(peer: Replication.Peer, fetched: seq<Uid>, u: Uid) {
    exists j :: 0 <= j < |fetched| && fetched[j] in peer.classifiers && u == peer.classifiers[fetched[j]].Uid()
  }

  /** Fetching one more uid adds its classifier's uid to the ones accounted for. */
  lemma FetchedAsSnoc(peer: Replication.Peer, fetched: seq<Uid>, uid: Uid)
    requires uid in peer.classifiers
    ensures forall u :: FetchedAs(peer, fetched + [uid], u) <==>
      FetchedAs(peer, fetched, u) || u == peer.classifiers[uid].Uid()
  {
    forall u | FetchedAs(peer, fetched + [uid], u)
      ensures FetchedAs(peer, fetched, u) || u == peer.classifiers[uid].Uid()
    {
      var j :| 0 <= j < |fetched + [uid]| && (fetched + [uid])[j] in peer.classifiers &&
        u == peer.classifiers[(fetched + [uid])[j]].Uid();
      if j < |fetched| {
        assert (fetched + [uid])[j] == fetched[j];
      }
    }
    forall u | FetchedAs(peer, fetched, u)
      ensures FetchedAs(peer, fetched + [uid], u)
    {
      var j :| 0 <= j < |fetched| && fetched[j] in peer.classifiers && u == peer.classifiers[fetched[j]].Uid();
      assert (fetched + [uid])[j] == fetched[j];
    }
    assert (fetched + [uid])[|fetched|] == uid;
  }

  /** Adding a new key to a map keeps every existing entry. */
  lemma NewKeyKeepsOthers(m: map<Uid, ClassifierRow>, k: Uid, v: ClassifierRow)
    requires k !in m
    ensures forall u :: u in m ==> u in m[k := v] && m[k := v][u] == m[u]
  {
  }

  /**
   * The fetch loop after fetching `fetched`, a prefix of the queue, starting from tables `t0`:
   * each fetched classifier is local, no other classifier was added, and no earlier row is lost.
   */
  ghost predicate Fetching(store: Store.EntityStore, t0: Store.Tables, peer: Replication.Peer,
                           toFetch: seq<ClassifierRecord>, fetched: seq<Uid>)
    reads store
  {
    store.Valid() && |fetched| <= |toFetch| &&
    (forall j :: 0 <= j < |fetched| ==> fetched[j] == toFetch[j].Uid()) &&
    (forall j :: 0 <= j < |fetched| ==> Fetched(store, peer, fetched[j])) &&
    (forall u :: u in store.classifiers ==> u in t0.classifiers || FetchedAs(peer, fetched, u)) &&
    Replication.Extends(t0, store.Contents())
  }

  /** `AutosyncThread`: a peer, the model types it replicates, and the wait between cycles. */
  class AutosyncThread {
    const name: string
    const remote: Replication.Remote
    const syncModelTypes: seq<string>
    const intervalSec: int
    var firstSync: bool
    var log: seq<Activity>

    constructor (name: string, url: string, key: string, syncModelTypes: seq<string>, intervalSec: int)
      ensures this.name == name && remote == Replication.Remote(url, key)
      ensures this.syncModelTypes == syncModelTypes && this.intervalSec == intervalSec
      ensures firstSync && log == []
    {
      this.name := name;
      remote := Replication.Remote(url, key);
      this.syncModelTypes := syncModelTypes;
      this.intervalSec := intervalSec;
      firstSync := true;
      log := [];
    }

    /**
     * `sync`: waits on the first call only; every remote classifier is filtered against the
     * local store before any fetch; the queued ones are fetched in listing order until one
     * fails. Any failure is logged and the method returns normally.
     */
    method Sync(store: Store.EntityStore, peer: Replication.Peer, env: Replication.LocalOutcomes)
      returns (rep: SyncReport, ghost before: Store.Tables)
      requires store.Valid()
      modifies this, store
      ensures store.Valid() && store.jobs == old(store.jobs)
      ensures !firstSync
      ensures log == old(log) + (if old(firstSync) then [Slept(FirstSyncDelay)] else []) + [Synced(rep)]
      ensures forall u :: u in old(store.classifiers) ==> u in store.classifiers && store.classifiers[u] == old(store.classifiers)[u]
      ensures peer.listing.None? ==>
        rep == SyncReport([], [], Some(Replication.RpcFailure)) && store.Contents() == old(store.Contents())
      ensures peer.listing.Some? ==>
        rep.queued == Uids(Queued(peer.listing.value, syncModelTypes, old(store.classifiers))) &&
        rep.fetched <= rep.queued &&
        (rep.error.None? <==> rep.fetched == rep.queued)
      ensures forall u :: u in rep.fetched ==> Fetched(store, peer, u)
      ensures forall u :: u in store.classifiers ==> u in old(store.classifiers) || FetchedAs(peer, rep.fetched, u)
      ensures Replication.Extends(old(store.Contents()), store.Contents())
      // `before` is the tables as the failing fetch found them
      ensures peer.listing.Some? && rep.error.Some? ==>
        Replication.Extends(old(store.Contents()), before) && Replication.Extends(before, store.Contents()) &&
        store.classifiers == before.classifiers &&
        !Replication.Replicable(before, peer, rep.queued[|rep.fetched|], env)
      ensures peer.listing.Some? && rep.error.Some? ==>
        !Replication.Replicable(Store.Tables(old(store.resources), store.classifiers, store.links, store.meta, store.jobs),
                                peer, rep.queued[|rep.fetched|], env)
    {
      if firstSync {
        log := log + [Slept(FirstSyncDelay)];
        firstSync := false;
      }
      if peer.listing.None? {
        rep := SyncReport([], [], Some(Replication.RpcFailure));
        before := store.Contents();
        log := log + [Synced(rep)];
        return;
      }
      var toFetch := Filter(store, peer.listing.value);
      var queued := Uids(toFetch);
      var fetched, error;
      fetched, error, before := FetchAll(store, peer, env, toFetch);
      rep := SyncReport(queued, fetched, error);
      log := log + [Synced(rep)];
    }

    /** The candidate loop of `sync`: every remote classifier is tested against the local store. */
    method Filter(store: Store.EntityStore, list: seq<ClassifierRecord>) returns (toFetch: seq<ClassifierRecord>)
      ensures toFetch == Queued(list, syncModelTypes, store.classifiers)
    {
      toFetch := [];
      for i := 0 to |list|
        invariant toFetch == Queued(list[..i], syncModelTypes, store.classifiers)
      {
        assert list[..i + 1][..i] == list[..i];
        if list[i].row.modelType in syncModelTypes && list[i].Trained() &&
           list[i].Uid() !in store.classifiers && list[i].row.enabled {
          toFetch := toFetch + [list[i]];
        }
      }
      assert list[..|list|] == list;
    }

    /** The fetch loop of `sync`: the queued classifiers in order, until the first failure. */
    method FetchAll(store: Store.EntityStore, peer: Replication.Peer, env: Replication.LocalOutcomes,
                    toFetch: seq<ClassifierRecord>) returns (fetched: seq<Uid>, error: Option<string>, ghost before: Store.Tables)
      requires store.Valid()
      modifies store
      ensures store.Valid() && store.jobs == old(store.jobs)
      ensures fetched <= Uids(toFetch)
      ensures error.None? <==> fetched == Uids(toFetch)
      ensures forall u :: u in old(store.classifiers) ==> u in store.classifiers && store.classifiers[u] == old(store.classifiers)[u]
      ensures forall u :: u in fetched ==> Fetched(store, peer, u)
      ensures forall u :: u in store.classifiers ==> u in old(store.classifiers) || FetchedAs(peer, fetched, u)
      ensures Replication.Extends(old(store.Contents()), store.Contents())
      // `before` is the tables as the failing fetch found them
      ensures error.Some? ==>
        Replication.Extends(old(store.Contents()), before) && Replication.Extends(before, store.Contents()) &&
        store.classifiers == before.classifiers && !Replication.Replicable(before, peer, toFetch[|fetched|].Uid(), env)
      ensures error.Some? ==>
        !Replication.Replicable(Store.Tables(old(store.resources), store.classifiers, store.links, store.meta, store.jobs),
                                peer, toFetch[|fetched|].Uid(), env)
    {
      ghost var t0 := store.Contents();
      fetched := [];
      for i := 0 to |toFetch|
        invariant |fetched| == i && Fetching(store, t0, peer, toFetch, fetched)
      {
        var o;
        o, before := FetchNext(store, peer, env, toFetch, fetched, t0);
        if o.Fail? {
          Replication.NotReplicableEarlier(t0.resources, before, store.Contents(), peer, toFetch[i].Uid(), env);
          return fetched, Some(o.message), before;
        }
        fetched := fetched + [toFetch[i].Uid()];
      }
      error := None;
      before := store.Contents();
    }

    /** One round of the fetch loop: the next queued classifier is fetched, or the loop ends in failure. */
    method FetchNext(store: Store.EntityStore, peer: Replication.Peer, env: Replication.LocalOutcomes,
                     toFetch: seq<ClassifierRecord>, fetched: seq<Uid>, ghost t0: Store.Tables)
      returns (o: Outcome, ghost before: Store.Tables)
      requires Fetching(store, t0, peer, toFetch, fetched) && |fetched| < |toFetch|
      modifies store
      ensures o.Pass? ==> Fetching(store, t0, peer, toFetch, fetched + [toFetch[|fetched|].Uid()])
      ensures o.Fail? ==>
        Fetching(store, t0, peer, toFetch, fetched) &&
        Replication.Extends(t0, before) && Replication.Extends(before, store.Contents()) &&
        store.classifiers == before.classifiers && !Replication.Replicable(before, peer, toFetch[|fetched|].Uid(), env)
    {
      var uid := toFetch[|fetched|].Uid();
      before := store.Contents();
      o := FetchOne(store, peer, env, uid);
      Replication.ExtendsTransitive(t0, before, store.Contents());
      if o.Pass? {
        FetchedAsSnoc(peer, fetched, uid);
        assert forall j :: 0 <= j < |fetched| + 1 ==> (fetched + [uid])[j] == if j < |fetched| then fetched[j] else uid;
      }
    }

    /** One `fetch_classifier` of the loop, as far as the loop needs it. */
    method FetchOne(store: Store.EntityStore, peer: Replication.Peer, env: Replication.LocalOutcomes, uid: Uid)
      returns (o: Outcome)
      requires store.Valid()
      modifies store
      ensures store.Valid() && store.jobs == old(store.jobs)
      ensures forall u :: u in old(store.classifiers) ==> u in store.classifiers && store.classifiers[u] == old(store.classifiers)[u]
      ensures o.Pass? ==> Fetched(store, peer, uid)
      ensures o.Pass? ==>
        store.classifiers == old(store.classifiers)[peer.classifiers[uid].Uid() := peer.classifiers[uid].row]
      ensures o.Fail? ==> store.classifiers == old(store.classifiers)
      ensures Replication.Replicable(old(store.Contents()), peer, uid, env) ==> o.Pass?
      ensures Replication.Extends(old(store.Contents()), store.Contents())
    {
      ghost var t0 := store.Contents();
      o := Replication.FetchClassifier(store, remote, peer, uid, env);
      if o.Pass? {
        var c := peer.classifiers[uid];
        NewKeyKeepsOthers(t0.classifiers, c.Uid(), c.row);
        Replication.SavedExtends(t0, store.Contents(), c);
      }
    }

    /** The first `|cycles|` iterations of `run`: a sync, then a sleep of the interval. */
    method Run(store: Store.EntityStore, cycles: seq<Cycle>) returns (reports: seq<SyncReport>)
      requires store.Valid()
      modifies this, store
      ensures store.Valid() && store.jobs == old(store.jobs)
      ensures |reports| == |cycles|
      ensures log == old(log) + RunLog(old(firstSync), reports, intervalSec)
      ensures cycles != [] ==> !firstSync
    {
      reports := [];
      for n := 0 to |cycles|
        invariant store.Valid() && store.jobs == old(store.jobs)
        invariant |reports| == n
        invariant log == old(log) + RunLog(old(firstSync), reports, intervalSec)
        invariant firstSync == (old(firstSync) && n == 0)
      {
        var rep := SyncAndSleep(store, cycles[n]);
        RunLogSnoc(old(firstSync), reports, rep, intervalSec);
        reports := reports + [rep];
      }
    }

    /** One iteration of `run`'s loop: a sync, then a sleep of the interval. */
    method SyncAndSleep(store: Store.EntityStore, cycle: Cycle) returns (rep: SyncReport)
      requires store.Valid()
      modifies this, store
      ensures store.Valid() && store.jobs == old(store.jobs)
      ensures !firstSync
      ensures log == old(log) + (if old(firstSync) then [Slept(FirstSyncDelay)] else []) + [Synced(rep), Slept(intervalSec)]
    {
      ghost var before;
      rep, before := Sync(store, cycle.peer, cycle.env);
      log := log + [Slept(intervalSec)];
    }
  }
}
