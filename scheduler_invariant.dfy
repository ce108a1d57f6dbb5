// The well-formedness every reachable scheduler state keeps: fresh ids,
// every job runs the function its id names, a retry job exists only for a
// failed item with attempts left (and at most one per item), so no item is
// ever attempted more than max_attempts times.
module SchedulerInvariant {
  import opened Wrappers
  import opened Models
  import opened SchedulerSpec

  /** The function a job id was registered for. */
  function TaskOf(id: JobId): Task {
    match id
    case PostJob(p, _) => PublishTask(p)
    case RetryJob(q, _) => RetryTask(q)
  }

  /** A settled queue item: completed or failed, never past its attempt bound
      of three, and a failed one has been attempted. */
  predicate ItemOk(item: QueueItem) {
    && item.maxAttempts == DefaultMaxAttempts
    && item.attempts <= item.maxAttempts
    && (item.status == QueueStatus.Completed || item.status == QueueStatus.Failed)
    && (item.status == QueueStatus.Failed ==> item.attempts >= 1)
  }

  /** Item q is waiting for a retry: failed, with attempts left and a next
      attempt time. */
  predicate RetryPending(s: State, q: nat) {
    && q in s.queue && s.queue[q].status == QueueStatus.Failed
    && s.queue[q].attempts < s.queue[q].maxAttempts && s.queue[q].nextAttempt.Some?
  }

  predicate NoRetryJobFor(jobs: map<JobId, Job>, q: nat) {
    forall id :: id in jobs && id.RetryJob? ==> id.queueId != q
  }

  predicate Valid(s: State) {
    && (forall p :: p in s.posts ==> p < s.nextPostId)
    && (forall q :: q in s.queue ==> q < s.nextQueueId && ItemOk(s.queue[q]))
    && (forall id :: id in s.jobs ==> s.jobs[id].task == TaskOf(id))
    && (forall id :: id in s.jobs && id.PostJob? ==> id.postId < s.nextPostId)
    && (forall id :: id in s.jobs && id.RetryJob? ==>
          RetryPending(s, id.queueId) && s.jobs[id].runAt == s.queue[id.queueId].nextAttempt.value)
    && (forall a, b :: a in s.jobs && b in s.jobs && a.RetryJob? && b.RetryJob? && a.queueId == b.queueId ==> a == b)
  }

  /** The attempt bound: in a valid state no queue item has been attempted
      more than max_attempts, which is three. */
  lemma AttemptsBounded(s: State, q: nat)
    requires Valid(s) && q in s.queue
    ensures s.queue[q].attempts <= s.queue[q].maxAttempts == DefaultMaxAttempts
  {
  }

  /** A fresh database is valid. */
  lemma ValidInitial(uploads: map<nat, BulkUpload>, connected: map<int, seq<string>>)
    ensures Valid(State(map[], map[], map[], uploads, connected, 0, 0))
  {
  }

  /** Taking a due job out of the store keeps the state valid, and when it is
      a retry job, leaves its item pending with no other retry job. */
  lemma TakeKeepsValid(s: State, id: JobId)
    requires Valid(s) && id in s.jobs
    ensures Valid(s.(jobs := s.jobs - {id}))
    ensures id.RetryJob? ==> RetryPending(s, id.queueId) && NoRetryJobFor(s.jobs - {id}, id.queueId)
  {
  }

  /** schedule_post keeps the state valid. */
  lemma SchedulePostKeepsValid(s: State, p: nat, accepted: bool, now: int)
    requires Valid(s)
    ensures Valid(SchedulePostSpec(s, p, accepted, now).0)
  {
  }

  /** publish_post keeps the state valid: its items take fresh ids, settle
      within one attempt, and each failed one gets exactly one retry job. */
  lemma PublishKeepsValid(s: State, p: nat, outcomes: nat -> Reply, now: int)
    requires Valid(s)
    ensures Valid(PublishSpec(s, p, outcomes, now))
  {
    if p in s.posts && s.posts[p].status == Scheduled {
      var platforms := s.posts[p].platforms;
      PublishFrame(s, p, outcomes, now);
      PassValid(s, PublishSpec(s, p, outcomes, now), p, platforms, outcomes, now);
    }
  }

  lemma PassValid(s: State, r: State, p: nat, platforms: seq<string>, outcomes: nat -> Reply, now: int)
    requires Valid(s)
    requires r.nextQueueId == s.nextQueueId + |platforms| && r.nextPostId == s.nextPostId
    requires r.posts.Keys == s.posts.Keys
    requires r.queue == PassQueue(s.queue, s.nextQueueId, p, platforms, outcomes, now, |platforms|)
    requires r.jobs == PassJobs(s.jobs, s.nextQueueId, outcomes, now, |platforms|)
    ensures Valid(r)
  {
    PassQueueLayout(s.queue, s.nextQueueId, p, platforms, outcomes, now, |platforms|);
    PassJobsLayout(s.jobs, s.nextQueueId, outcomes, now, |platforms|);
    PublishPartsValid(s, r, p, platforms, outcomes, now);
  }

  lemma PublishPartsValid(s: State, r: State, p: nat, platforms: seq<string>, outcomes: nat -> Reply, now: int)
    requires Valid(s)
    requires r.nextQueueId == s.nextQueueId + |platforms| && r.nextPostId == s.nextPostId
    requires r.posts.Keys == s.posts.Keys
    requires forall q :: q in r.queue <==> q in s.queue || s.nextQueueId <= q < s.nextQueueId + |platforms|
    requires forall q :: q in s.queue ==> r.queue[q] == s.queue[q]
    requires forall j :: 0 <= j < |platforms| ==>
      r.queue[s.nextQueueId + j] == SettledItem(p, platforms[j], outcomes(j), now)
    requires forall id :: id in r.jobs <==> id in s.jobs || NewRetry(s.nextQueueId, outcomes, now, |platforms|, id)
    requires forall id :: id in r.jobs ==>
      r.jobs[id] == if NewRetry(s.nextQueueId, outcomes, now, |platforms|, id)
                    then Job(now + FirstRetryDelay, RetryTask(id.queueId)) else s.jobs[id]
    ensures Valid(r)
  {
    NewItemsOk(s, r, p, platforms, outcomes, now);
    NewJobsOk(s, r, p, platforms, outcomes, now);
  }

  lemma NewItemsOk(s: State, r: State, p: nat, platforms: seq<string>, outcomes: nat -> Reply, now: int)
    requires Valid(s)
    requires r.nextQueueId == s.nextQueueId + |platforms|
    requires forall q :: q in r.queue <==> q in s.queue || s.nextQueueId <= q < s.nextQueueId + |platforms|
    requires forall q :: q in s.queue ==> r.queue[q] == s.queue[q]
    requires forall j :: 0 <= j < |platforms| ==>
      r.queue[s.nextQueueId + j] == SettledItem(p, platforms[j], outcomes(j), now)
    ensures forall q :: q in r.queue ==> q < r.nextQueueId && ItemOk(r.queue[q])
  {
    forall q | q in r.queue
      ensures q < r.nextQueueId && ItemOk(r.queue[q])
    {
      if q !in s.queue {
        var j := q - s.nextQueueId;
        assert r.queue[s.nextQueueId + j] == SettledItem(p, platforms[j], outcomes(j), now);
      }
    }
  }

  lemma NewJobsOk(s: State, r: State, p: nat, platforms: seq<string>, outcomes: nat -> Reply, now: int)
    requires Valid(s)
    requires r.nextQueueId == s.nextQueueId + |platforms| && r.nextPostId == s.nextPostId
    requires forall q :: q in r.queue <==> q in s.queue || s.nextQueueId <= q < s.nextQueueId + |platforms|
    requires forall q :: q in s.queue ==> r.queue[q] == s.queue[q]
    requires forall j :: 0 <= j < |platforms| ==>
      r.queue[s.nextQueueId + j] == SettledItem(p, platforms[j], outcomes(j), now)
    requires forall id :: id in r.jobs <==> id in s.jobs || NewRetry(s.nextQueueId, outcomes, now, |platforms|, id)
    requires forall id :: id in r.jobs ==>
      r.jobs[id] == if NewRetry(s.nextQueueId, outcomes, now, |platforms|, id)
                    then Job(now + FirstRetryDelay, RetryTask(id.queueId)) else s.jobs[id]
    ensures forall id :: id in r.jobs ==> r.jobs[id].task == TaskOf(id)
    ensures forall id :: id in r.jobs && id.PostJob? ==> id.postId < r.nextPostId
    ensures forall id :: id in r.jobs && id.RetryJob? ==>
      RetryPending(r, id.queueId) && r.jobs[id].runAt == r.queue[id.queueId].nextAttempt.value
    ensures forall a, b :: a in r.jobs && b in r.jobs && a.RetryJob? && b.RetryJob? && a.queueId == b.queueId ==> a == b
  {
    var first, n := s.nextQueueId, |platforms|;
    forall id | id in r.jobs && id.RetryJob?
      ensures RetryPending(r, id.queueId) && r.jobs[id].runAt == r.queue[id.queueId].nextAttempt.value
    {
      if NewRetry(first, outcomes, now, n, id) {
        var j := id.queueId - first;
        assert r.queue[first + j] == SettledItem(p, platforms[j], outcomes(j), now);
      }
    }
  }

  /** retry_post, fired by the only retry job of a pending item, keeps the
      state valid: the extra attempt stays within the bound, and a new retry
      job is added only while attempts remain. */
  lemma RetryKeepsValid(s: State, q: nat, reply: Reply, now: int)
    requires Valid(s) && RetryPending(s, q) && NoRetryJobFor(s.jobs, q)
    ensures Valid(RetrySpec(s, q, reply, now))
  {
    if s.queue[q].postId in s.posts {
      var r := RetrySpec(s, q, reply, now);
      if reply.success {
        RetrySuccessRules(s, q, reply, now);
        AggregateRules(Completing(s, q, reply, now), s.queue[q].postId, now);
      } else {
        RetryFailureRules(s, q, reply, now);
        assert forall q' :: q' in s.queue && q' != q ==> r.queue[q'] == s.queue[q'];
      }
    }
  }

  /** Running any due job keeps the state valid. */
  lemma FireKeepsValid(s: State, id: JobId, outcomes: nat -> Reply, retryReply: Reply, now: int)
    requires Valid(s)
    ensures Valid(FireSpec(s, id, outcomes, retryReply, now))
  {
    if id in s.jobs {
      var s1 := s.(jobs := s.jobs - {id});
      TakeKeepsValid(s, id);
      match s.jobs[id].task
      case PublishTask(p) => PublishKeepsValid(s1, p, outcomes, now);
      case RetryTask(q) => RetryKeepsValid(s1, q, retryReply, now);
    }
  }

  /** process_bulk_upload keeps the state valid: its posts take fresh ids and
      its jobs are publish jobs of those posts. */
  lemma BulkKeepsValid(s: State, u: nat, items: seq<BulkItem>, accepted: nat -> bool, now: int)
    requires Valid(s)
    ensures Valid(BulkSpec(s, u, items, accepted, now))
  {
    if u in s.uploads && s.uploads[u].userId in s.connected {
      var connected := s.connected[s.uploads[u].userId];
      BulkPrefixPostIds(StartBulk(s, u), connected, items, accepted, now, |items|);
      BulkPrefixJobs(StartBulk(s, u), connected, items, accepted, now, |items|);
    }
  }
}
