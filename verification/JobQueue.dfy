/** The job queue of the thread pool: a doubly linked list whose newest job is the head. */
module JobQueue {
  /** thpool_job_t.  `next` leads to the job before it, `prev` to the job after it. */
  class Job {
    const work: nat
    var next: Job?
    var prev: Job?

    constructor (work: nat)
      ensures this.work == work && next == null && prev == null
    {
      this.work, next, prev := work, null, null;
    }
  }

  predicate Distinct<T(==)>(s: seq<T>) { forall i, j :: 0 <= i < j < |s| ==> s[i] != s[j] }

  /** The queue, oldest job first, after a job is added. */
  function Added<T>(q: seq<T>, job: T): seq<T> { q + [job] }

  /** The queue after its oldest job is removed. */
  function Removed<T>(q: seq<T>): seq<T> { if q == [] then [] else q[1..] }

  class Queue {
    var head: Job?
    var tail: Job?
    var jobsN: nat
    var sem: nat
    /** The jobs, oldest first. */
    ghost var jobs: seq<Job>

    /** The links of a job that is followed by `newer`. */
    static ghost predicate Linked(jobs: seq<Job>, i: nat)
      requires i < |jobs|
      reads jobs[i]
    {
      && jobs[i].next == (if i == 0 then null else jobs[i - 1])
      && jobs[i].prev == (if i == |jobs| - 1 then null else jobs[i + 1])
    }

    ghost predicate Valid()
      reads this, jobs
    {
      && jobsN == |jobs| && Distinct(jobs)
      && head == (if jobs == [] then null else jobs[|jobs| - 1])
      && tail == (if jobs == [] then null else jobs[0])
      && (forall i :: 0 <= i < |jobs| ==> Linked(jobs, i))
    }

    /** next and prev are mutually inverse. */
    lemma {:induction false} LinksInverse(i: nat)
      requires Valid() && i < |jobs|
      ensures jobs[i].prev != null ==> jobs[i].prev in jobs && jobs[i].prev.next == jobs[i]
      ensures jobs[i].next != null ==> jobs[i].next in jobs && jobs[i].next.prev == jobs[i]
    {
      assert Linked(jobs, i);
      if i > 0 {
        assert Linked(jobs, i - 1);
      }
      if i + 1 < |jobs| {
        assert Linked(jobs, i + 1);
      }
    }

    /** thpool_jobqueue_init */
    constructor ()
      ensures Valid() && jobs == [] && sem == 0
    {
      head, tail, jobsN, sem, jobs := null, null, 0, 0, [];
    }

    /** thpool_jobqueue_add */
    method Add(job: Job)
      requires Valid() && job !in jobs
      modifies this, jobs, job
      ensures Valid() && jobs == Added(old(jobs), job) && sem == old(sem) + 1
    {
      job.next := null;
      job.prev := null;
      var oldFirst := head;
      assert jobs != [] ==> Linked(jobs, |jobs| - 1);
      if jobsN == 0 {
        tail := job;
        head := job;
      } else {
        oldFirst.prev := job;
        job.next := oldFirst;
        head := job;
      }
      jobsN := jobsN + 1;
      sem := sem + 1;
      ghost var before := jobs;
      jobs := before + [job];
      forall i | 0 <= i < |jobs| ensures Linked(jobs, i) {
        if i < |before| {
          assert old(Linked(before, i)) && before[i] != job;
          assert i < |before| - 1 ==> before[i] != oldFirst;
          assert i > 0 ==> jobs[i - 1] == before[i - 1];
        }
      }
    }

    /** thpool_jobqueue_removelast */
    method RemoveLast() returns (r: int)
      requires Valid()
      modifies this, jobs
      ensures Valid() && jobs == Removed(old(jobs)) && sem == old(sem)
      ensures r == if old(jobs) == [] then -1 else 0
    {
      var oldLast := tail;
      if jobsN == 0 {
        return -1;
      } else if jobsN == 1 {
        tail := null;
        head := null;
      } else {
        assert Linked(jobs, 0) && Linked(jobs, 1);
        oldLast.prev.next := null;
        tail := oldLast.prev;
      }
      jobsN := jobsN - 1;
      ghost var before := jobs;
      jobs := before[1..];
      forall i | 0 <= i < |jobs| ensures Linked(jobs, i) {
        assert old(Linked(before, i + 1));
      }
      r := 0;
    }

    /** thpool_jobqueue_peek */
    method Peek() returns (job: Job?)
      requires Valid()
      ensures job == if jobs == [] then null else jobs[0]
    {
      job := tail;
    }

    /** thpool_jobqueue_empty: each job is deallocated once, oldest first, and none is looked at afterwards. */
    method Empty() returns (ghost freed: seq<Job>)
      requires Valid()
      modifies this
      ensures Valid() && jobs == [] && freed == old(jobs) && sem == old(sem)
    {
      freed := [];
      var cur := tail;
      while jobsN != 0
        invariant jobsN <= |jobs| && jobs == old(jobs) && Distinct(jobs) && sem == old(sem)
        invariant forall i :: 0 <= i < |jobs| ==> Linked(jobs, i)
        invariant freed == jobs[..|jobs| - jobsN] && cur == tail
        invariant cur == (if jobsN == 0 then null else jobs[|jobs| - jobsN])
        decreases jobsN
      {
        ghost var k := |jobs| - jobsN;
        assert Linked(jobs, k);
        assert cur !in freed;
        tail := cur.prev;
        freed := freed + [cur];
        cur := tail;
        jobsN := jobsN - 1;
      }
      tail := null;
      head := null;
      jobs := [];
    }
  }
}
