/** The `orders` job queue as the submission route sees it: an ordered list
    of `processOrder` jobs, each carrying one order id and the retry
    options the source hands to the queue library. */
module OrderQueue {
  const QueueName: string := "orders"
  const JobName: string := "processOrder"

  /** Retry options passed with every job: three attempts, exponential
      backoff starting at one second. The queue library acts on them; the
      model keeps them as data only. */
  const Attempts: nat := 3
  const BackoffDelayMs: nat := 1000

  datatype Job = Job(name: string, orderId: string, attempts: nat, backoffDelayMs: nat)

  /** The job `addOrderToQueue(orderId)` adds. */
  function OrderJob(orderId: string): (j: Job)
    ensures j.name == JobName && j.orderId == orderId
    ensures j.attempts == Attempts && j.backoffDelayMs == BackoffDelayMs
  {
    Job(JobName, orderId, Attempts, BackoffDelayMs)
  }

  /** The order ids of a list of jobs, in queue order. */
  function JobIds(jobs: seq<Job>): (ids: seq<string>)
    ensures |ids| == |jobs|
    ensures forall i :: 0 <= i < |jobs| ==> ids[i] == jobs[i].orderId
  {
    if jobs == [] then [] else [jobs[0].orderId] + JobIds(jobs[1..])
  }

  lemma {:induction false} JobIdsAppend(a: seq<Job>, b: seq<Job>)
    ensures JobIds(a + b) == JobIds(a) + JobIds(b)
  {
    var l, r := JobIds(a + b), JobIds(a) + JobIds(b);
    assert |l| == |r|;
    forall i | 0 <= i < |l| ensures l[i] == r[i] {
      assert (a + b)[i] == if i < |a| then a[i] else b[i - |a|];
    }
  }

  class JobQueue {
    var jobs: seq<Job>

    constructor ()
      ensures jobs == []
    {
      jobs := [];
    }

    /** `addOrderToQueue`: append one job for the order, unless the queue
        backend rejects the call (`unavailable`), in which case nothing is
        added. */
    method AddOrderToQueue(orderId: string, unavailable: bool) returns (ok: bool)
      modifies this
      ensures ok == !unavailable
      ensures jobs == if ok then old(jobs) + [OrderJob(orderId)] else old(jobs)
      ensures JobIds(jobs) == if ok then JobIds(old(jobs)) + [orderId] else JobIds(old(jobs))
    {
      if unavailable {
        ok := false;
      } else {
        JobIdsAppend(jobs, [OrderJob(orderId)]);
        jobs := jobs + [OrderJob(orderId)];
        ok := true;
      }
    }
  }
}
