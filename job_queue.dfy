/**
 * app/jobs/job_queue.rs: background jobs waiting to run.  Enqueueing appends
 * the job and stably re-sorts the queue by priority, so the queue stays
 * ordered by priority and jobs of equal priority leave in arrival order;
 * popping takes the front.
 */
module JobQueue {
  import opened Wrappers
  import opened Sorting

  /** A priority, by its place in the priority order (smaller runs first). */
  type JobPriority = int

  /** A job: its type (by number) and progress; the cancel token is not part of this model. */
  datatype JobHandle = JobHandle(jobType: nat, progress: real)

  type Entry = (JobPriority, JobHandle)

  predicate PriorityBefore(a: Entry, b: Entry)
  {
    a.0 <= b.0
  }

  function ByPriority(): (Entry, Entry) -> bool
  {
    (a: Entry, b: Entry) => PriorityBefore(a, b)
  }

  lemma ByPriorityTotal()
    ensures TotalPreorder(ByPriority())
  {
  }

  /** The queue after enqueue: the job appended, then stably sorted by priority. */
  function Enqueued(q: seq<Entry>, p: JobPriority, h: JobHandle): (r: seq<Entry>)
    ensures |r| == |q| + 1 && multiset(r) == multiset(q) + multiset{(p, h)}
  {
    SortBy(q + [(p, h)], ByPriority())
  }

  /** After enqueue the queue is ordered by priority. */
  lemma EnqueuedSorted(q: seq<Entry>, p: JobPriority, h: JobHandle)
    ensures SortedBy(Enqueued(q, p, h), ByPriority())
  {
    ByPriorityTotal();
    SortBySorted(q + [(p, h)], ByPriority());
  }

  /**
   * First in, first out within a priority: the jobs of any one priority keep
   * their order, and the new job comes after those of its own priority.
   */
  lemma EnqueuedFifo(q: seq<Entry>, p: JobPriority, h: JobHandle, y: Entry)
    ensures EquivalentTo(Enqueued(q, p, h), y, ByPriority())
         == EquivalentTo(q, y, ByPriority()) + (if y.0 == p then [(p, h)] else [])
  {
    ByPriorityTotal();
    SortByStable(q + [(p, h)], y, ByPriority());
    EquivalentToAppend(q, (p, h), y, ByPriority());
  }

  /** The front of a sorted queue has the smallest priority. */
  lemma FrontIsMinimal(q: seq<Entry>)
    requires SortedBy(q, ByPriority()) && q != []
    ensures forall k :: 0 <= k < |q| ==> q[0].0 <= q[k].0
  {
    forall k | 0 < k < |q|
      ensures q[0].0 <= q[k].0
    {
      assert ByPriority()(q[0], q[k]);
    }
  }

  class JobQueue {
    var q: seq<Entry>

    ghost predicate Valid()
      reads this
    {
      SortedBy(q, ByPriority())
    }

    constructor()
      ensures q == [] && Valid()
    {
      q := [];
    }

    method Enqueue(priority: JobPriority, handle: JobHandle)
      modifies this
      ensures q == Enqueued(old(q), priority, handle) && Valid()
    {
      EnqueuedSorted(q, priority, handle);
      q := SortBy(q + [(priority, handle)], ByPriority());
    }

    /** pop_next: the front job, or None when the queue is empty. */
    method PopNext() returns (r: Option<JobHandle>)
      requires Valid()
      modifies this
      ensures old(q) == [] ==> r.None? && q == []
      ensures old(q) != [] ==> r == Some(old(q)[0].1) && q == old(q)[1..]
      ensures r.Some? ==> forall k :: 0 <= k < |old(q)| ==> old(q)[0].0 <= old(q)[k].0
      ensures Valid()
    {
      if q == [] {
        return None;
      }
      FrontIsMinimal(q);
      r := Some(q[0].1);
      q := q[1..];
    }
  }
}
