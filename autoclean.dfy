/**
 * The autoclean thread: each cycle sleeps a day and then removes the finished jobs that are
 * old enough. A job's age in whole days (`timedelta.days`) is given per `created_on` text;
 * a text missing from that table is one `strptime(created_on, '%Y-%m-%d %H:%M:%S.%f')`
 * cannot parse, and `parseError` gives the message of the `ValueError` it then raises.
 */
module Autoclean {
  import opened Wrappers
  import opened Entities
  import Store

  /** `interval_sec`: 24 hours. */
  const IntervalSec: int := 60 * 60 * 24

  /** What one cleanup logs: the jobs removed, in order, their count, and the error that ended it. */
  datatype CleanReport = CleanReport(removed: seq<Uid>, removedJobs: nat, error: Option<string>)

  /** One entry of the thread's log: a sleep, or a finished cleanup. */
  datatype Activity = Slept(seconds: int) | Cleaned(report: CleanReport)

  /** A job is removed iff its status is exactly 'Done' and it is at least `days` whole days old. */
  predicate Expired(j: JobRow, ages: map<string, int>, days: int) {
    j.createdOn in ages && j.status == "Done" && ages[j.createdOn] >= days
  }

  /** The uids `cleanup` removes from a listing whose every age is known: the expired jobs, in listing order. */
  function ExpiredUids(jobs: seq<JobRow>, ages: map<string, int>, days: int): seq<Uid>
    decreases |jobs|
  {
    if jobs == [] then []
    else
      ExpiredUids(jobs[..|jobs| - 1], ages, days) +
      (if Expired(jobs[|jobs| - 1], ages, days) then [jobs[|jobs| - 1].uid] else [])
  }

  /** Only expired jobs are removed. */
  lemma {:induction false} ExpiredUidsSound(jobs: seq<JobRow>, ages: map<string, int>, days: int)
    ensures forall u :: u in ExpiredUids(jobs, ages, days) ==>
      exists k :: 0 <= k < |jobs| && jobs[k].uid == u && Expired(jobs[k], ages, days)
    decreases |jobs|
  {
    if jobs != [] {
      var init := jobs[..|jobs| - 1];
      ExpiredUidsSound(init, ages, days);
      forall u | u in ExpiredUids(init, ages, days)
        ensures exists k :: 0 <= k < |jobs| && jobs[k].uid == u && Expired(jobs[k], ages, days)
      {
        var k :| 0 <= k < |init| && init[k].uid == u && Expired(init[k], ages, days);
        assert jobs[k] == init[k];
      }
    }
  }

  /** Every expired job is removed. */
  lemma {:induction false} ExpiredUidsComplete(jobs: seq<JobRow>, ages: map<string, int>, days: int)
    ensures forall k :: 0 <= k < |jobs| && Expired(jobs[k], ages, days) ==> jobs[k].uid in ExpiredUids(jobs, ages, days)
    decreases |jobs|
  {
    if jobs != [] {
      var init := jobs[..|jobs| - 1];
      ExpiredUidsComplete(init, ages, days);
      forall k | 0 <= k < |init| && Expired(jobs[k], ages, days)
        ensures jobs[k].uid in ExpiredUids(jobs, ages, days)
      {
        assert jobs[k] == init[k];
      }
    }
  }

  /** No uid occurs twice. */
  predicate NoRepeats(s: seq<Uid>) {
    forall a, b :: 0 <= a < b < |s| ==> s[a] != s[b]
  }

  /** A job is removed at most once when the listing has no repeated uid. */
  lemma {:induction false} ExpiredUidsDistinct(jobs: seq<JobRow>, ages: map<string, int>, days: int)
    requires forall a, b :: 0 <= a < b < |jobs| ==> jobs[a].uid != jobs[b].uid
    ensures NoRepeats(ExpiredUids(jobs, ages, days))
    decreases |jobs|
  {
    if jobs != [] {
      var init := jobs[..|jobs| - 1];
      ExpiredUidsDistinct(init, ages, days);
      ExpiredUidsSound(init, ages, days);
      var last := jobs[|jobs| - 1];
      forall k | 0 <= k < |init|
        ensures init[k].uid != last.uid
      {
        assert init[k] == jobs[k];
      }
      var r0 := ExpiredUids(init, ages, days);
      assert last.uid !in r0;
      var r := ExpiredUids(jobs, ages, days);
      assert r == r0 + (if Expired(last, ages, days) then [last.uid] else []);
      forall a, b | 0 <= a < b < |r|
        ensures r[a] != r[b]
      {
        if b >= |r0| {
          assert r[a] == r0[a] && r0[a] in r0 && r[b] == last.uid;
        } else {
          assert r[a] == r0[a] && r[b] == r0[b];
        }
      }
    }
  }

  /**
   * What a sweep over a listing of the job table removed, read back in the table: each removed
   * uid names an expired job, and none is removed twice.
   */
  lemma SweptFromTable(table: map<Uid, JobRow>, jobs: seq<JobRow>, n: nat, ages: map<string, int>, days: int)
    requires n <= |jobs|
    requires forall j :: j in jobs ==> j.uid in table && j == table[j.uid]
    requires forall a, b :: 0 <= a < b < |jobs| ==> jobs[a].uid != jobs[b].uid
    ensures var r := ExpiredUids(jobs[..n], ages, days);
      (forall u :: u in r ==> u in table && Expired(table[u], ages, days)) && NoRepeats(r)
  {
    var p := jobs[..n];
    ExpiredUidsSound(p, ages, days);
    ExpiredUidsDistinct(p, ages, days);
    forall u | u in ExpiredUids(p, ages, days)
      ensures u in table && Expired(table[u], ages, days)
    {
      var k :| 0 <= k < |p| && p[k].uid == u && Expired(p[k], ages, days);
      assert p[k] in jobs;
    }
  }

  /**
   * The log `run` leaves after the given cycles while the threshold is positive: a full
   * interval of sleep before every cleanup.
   */
  function RunLog(reports: seq<CleanReport>): seq<Activity>
    decreases |reports|
  {
    if reports == [] then []
    else RunLog(reports[..|reports| - 1]) + [Slept(IntervalSec), Cleaned(reports[|reports| - 1])]
  }

  /** The log of one more cycle: a full interval of sleep, then the cleanup. */
  lemma RunLogSnoc(reports: seq<CleanReport>, rep: CleanReport)
    ensures RunLog(reports + [rep]) == RunLog(reports) + [Slept(IntervalSec), Cleaned(rep)]
  {
    assert (reports + [rep])[..|reports + [rep]| - 1] == reports;
  }

  /** `run` never cleans before it has slept: entries alternate a sleep and a cleanup, sleep first. */
  lemma {:induction false} RunLogAlternates(reports: seq<CleanReport>)
    ensures |RunLog(reports)| == 2 * |reports|
    ensures forall i :: 0 <= i < |reports| ==>
      RunLog(reports)[2 * i] == Slept(IntervalSec) && RunLog(reports)[2 * i + 1] == Cleaned(reports[i])
    decreases |reports|
  {
    if reports != [] {
      var init := reports[..|reports| - 1];
      RunLogAlternates(init);
      forall i | 0 <= i < |reports|
        ensures RunLog(reports)[2 * i] == Slept(IntervalSec) && RunLog(reports)[2 * i + 1] == Cleaned(reports[i])
      {
        if i < |init| {
          assert reports[i] == init[i];
        }
      }
    }
  }

  /** `AutocleanThread`: the age threshold in days, and the log of its cycles. */
  class AutocleanThread {
    const cleanJobsAfterDays: int
    var log: seq<Activity>

    constructor (cleanJobsAfterDays: int)
      ensures this.cleanJobsAfterDays == cleanJobsAfterDays && log == []
    {
      this.cleanJobsAfterDays := cleanJobsAfterDays;
      log := [];
    }

    /**
     * `cleanup`: walks the job table in the order `get_all` gives; each job's age is computed
     * first (a parse failure ends the pass), then a finished job old enough is removed and
     * counted. The error is logged, never raised.
     */
    method Cleanup(store: Store.EntityStore, ages: map<string, int>, parseError: string -> string)
      returns (rep: CleanReport)
      requires store.Valid()
      modifies this, store
      ensures store.Valid() && store.OnlyJobsChanged()
      ensures log == old(log) + [Cleaned(rep)]
      ensures rep.removedJobs == |rep.removed|
      ensures forall u :: u in rep.removed ==> u in old(store.jobs) && Expired(old(store.jobs)[u], ages, cleanJobsAfterDays)
      ensures forall i, j :: 0 <= i < j < |rep.removed| ==> rep.removed[i] != rep.removed[j]
      ensures forall u :: u in store.jobs <==> u in old(store.jobs) && u !in rep.removed
      ensures forall u :: u in store.jobs ==> store.jobs[u] == old(store.jobs)[u]
      ensures rep.error.None? <==> forall u :: u in old(store.jobs) ==> old(store.jobs)[u].createdOn in ages
      ensures rep.error.None? ==>
        forall u :: u in old(store.jobs) ==> (u in rep.removed <==> Expired(old(store.jobs)[u], ages, cleanJobsAfterDays))
      ensures rep.error.Some? ==>
        exists u :: u in old(store.jobs) && rep.error == Some(parseError(old(store.jobs)[u].createdOn)) &&
          old(store.jobs)[u].createdOn !in ages
    {
      ghost var table := store.jobs;
      var jobs := store.AllJobs();
      var removed, removedJobs, error, n := Sweep(store, jobs, ages, parseError);
      SweptFromTable(table, jobs, n, ages, cleanJobsAfterDays);
      if error.None? {
        assert jobs[..n] == jobs;
        ExpiredUidsComplete(jobs, ages, cleanJobsAfterDays);
        assert forall u :: u in table ==> table[u] in jobs;
      } else {
        assert jobs[n] in jobs;
      }
      rep := CleanReport(removed, removedJobs, error);
      log := log + [Cleaned(rep)];
    }

    /**
     * The loop of `cleanup` over the jobs as `get_all` listed them: it stops at the first job
     * whose age cannot be parsed, returning that position; otherwise it returns the length.
     */
    method Sweep(store: Store.EntityStore, jobs: seq<JobRow>, ages: map<string, int>, parseError: string -> string)
      returns (removed: seq<Uid>, removedJobs: nat, error: Option<string>, n: nat)
      requires store.Valid()
      requires forall j :: j in jobs ==> j.uid in store.jobs && j == store.jobs[j.uid]
      requires forall a, b :: 0 <= a < b < |jobs| ==> jobs[a].uid != jobs[b].uid
      modifies store
      ensures store.Valid() && store.OnlyJobsChanged()
      ensures n <= |jobs| && removedJobs == |removed|
      ensures removed == ExpiredUids(jobs[..n], ages, cleanJobsAfterDays)
      ensures forall k :: 0 <= k < n ==> jobs[k].createdOn in ages
      ensures error.None? <==> n == |jobs|
      ensures error.Some? ==> error == Some(parseError(jobs[n].createdOn)) && jobs[n].createdOn !in ages
      ensures forall u :: u in store.jobs <==> u in old(store.jobs) && u !in removed
      ensures forall u :: u in store.jobs ==> store.jobs[u] == old(store.jobs)[u]
    {
      removed, removedJobs := [], 0;
      for i := 0 to |jobs|
        invariant store.Valid() && store.OnlyJobsChanged()
        invariant removedJobs == |removed|
        invariant removed == ExpiredUids(jobs[..i], ages, cleanJobsAfterDays)
        invariant forall k :: 0 <= k < i ==> jobs[k].createdOn in ages
        invariant forall k :: i <= k < |jobs| ==> jobs[k].uid !in removed
        invariant forall u :: u in store.jobs <==> u in old(store.jobs) && u !in removed
        invariant forall u :: u in store.jobs ==> store.jobs[u] == old(store.jobs)[u]
      {
        var job := jobs[i];
        if job.createdOn !in ages {
          return removed, removedJobs, Some(parseError(job.createdOn)), i;
        }
        assert jobs[..i + 1][..i] == jobs[..i];
        var gone := CleanOne(store, job, ages);
        if gone {
          removed := removed + [job.uid];
          removedJobs := removedJobs + 1;
        }
      }
      return removed, removedJobs, None, |jobs|;
    }

    /** One step of the `cleanup` loop, once the job's age is known: a finished job old enough is removed. */
    method CleanOne(store: Store.EntityStore, job: JobRow, ages: map<string, int>) returns (gone: bool)
      requires store.Valid() && job.createdOn in ages
      modifies store
      ensures store.Valid() && store.OnlyJobsChanged()
      ensures gone <==> Expired(job, ages, cleanJobsAfterDays)
      ensures store.jobs == if gone then old(store.jobs) - {job.uid} else old(store.jobs)
    {
      var age := ages[job.createdOn];
      gone := job.status == "Done" && age >= cleanJobsAfterDays;
      if gone {
        store.DeleteJob(job.uid);
      }
    }

    /**
     * The first `|cycles|` iterations of `run`: while the threshold is positive, sleep a full
     * interval, then clean up; a threshold of zero or less never cleans.
     */
    method Run(store: Store.EntityStore, cycles: seq<map<string, int>>, parseError: string -> string)
      returns (reports: seq<CleanReport>)
      requires store.Valid()
      modifies this, store
      ensures store.Valid() && store.OnlyJobsChanged()
      ensures cleanJobsAfterDays <= 0 ==> reports == [] && log == old(log) && store.jobs == old(store.jobs)
      ensures cleanJobsAfterDays > 0 ==> |reports| == |cycles| && log == old(log) + RunLog(reports)
    {
      reports := [];
      if cleanJobsAfterDays <= 0 {
        return;
      }
      for n := 0 to |cycles|
        invariant store.Valid() && store.OnlyJobsChanged()
        invariant |reports| == n
        invariant log == old(log) + RunLog(reports)
      {
        log := log + [Slept(IntervalSec)];
        var rep := Cleanup(store, cycles[n], parseError);
        RunLogSnoc(reports, rep);
        reports := reports + [rep];
      }
    }
  }
}
