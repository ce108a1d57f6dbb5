// The background scheduler of scheduler.py as functions on one database
// state: the posts, post-queue items and bulk uploads keyed by id, the job
// store of the background scheduler keyed by job id, and the platforms each
// user has an active account for.
module SchedulerSpec {
  import opened Wrappers
  import opened Models
  import opened Clock

  /** Delay of the retry scheduled by the first, failed, attempt. */
  const FirstRetryDelay: int := 30
  /** Delay of every later retry. */
  const RetryDelay: int := 60
  const NoPlatformSucceeded: string := "Failed to post to any platform"
  /** str(e) of the AttributeError raised when the upload's user is missing. */
  const MissingUserError: string := "'NoneType' object has no attribute 'get_connected_platforms'"
  /** The time of day of daily bulk posts: 09:00. */
  const DailyPostMinute: int := 9 * 60

  /** "post_<id>_<stamp>" and "retry_<id>_<stamp>", stamp the clock at scheduling. */
  datatype JobId = PostJob(postId: nat, stamp: int) | RetryJob(queueId: nat, stamp: int)

  /** publish_post(post_id) or retry_post(queue_id). */
  datatype Task = PublishTask(post: nat) | RetryTask(item: nat)

  /** A date-triggered job. */
  datatype Job = Job(runAt: int, task: Task)

  datatype Post = Post(
    userId: int, content: string, hashtags: string, platforms: seq<string>, scheduledFor: int,
    status: PostStatus, postedAt: Option<int>, errorMessage: Option<string>, jobId: Option<JobId>,
    platformPostIds: map<string, Option<string>>)

  /** A PostQueue row: one platform of one post. */
  datatype QueueItem = QueueItem(
    postId: nat, platform: string, status: QueueStatus, attempts: nat, maxAttempts: nat,
    nextAttempt: Option<int>, errorMessage: Option<string>, completedAt: Option<int>)

  datatype BulkUpload = BulkUpload(
    userId: int, totalPosts: nat, processedPosts: nat, failedPosts: nat, status: UploadStatus,
    uploadType: string, startDate: Option<int>, completedAt: Option<int>, errorMessage: Option<string>)

  /** One entry of posts_data; a missing 'content' key is None, a missing
      'platforms' key the empty list, a missing 'hashtags' key "". */
  datatype BulkItem = BulkItem(content: Option<string>, platforms: seq<string>, hashtags: string)

  datatype State = State(
    posts: map<nat, Post>, queue: map<nat, QueueItem>, jobs: map<JobId, Job>,
    uploads: map<nat, BulkUpload>, connected: map<int, seq<string>>,
    nextPostId: nat, nextQueueId: nat)

  // ---------------------------------------------------------------------
  // schedule_post and schedule_retry

  /** schedule_post: registers the publish job (replacing one of the same id)
      and records its id on the post. `accepted` is whether add_job returned;
      if it raised, nothing is stored and the result is false. */
  function SchedulePostSpec(s: State, p: nat, accepted: bool, now: int): (r: (State, bool))
    ensures r.0.queue == s.queue && r.0.uploads == s.uploads && r.0.connected == s.connected
    ensures r.0.nextPostId == s.nextPostId && r.0.nextQueueId == s.nextQueueId
    ensures r.0.posts.Keys == s.posts.Keys
    ensures r.1 <==> p in s.posts && accepted
    ensures !r.1 ==> r.0 == s
    ensures r.1 ==>
      && r.0.jobs == s.jobs[PostJob(p, now) := Job(s.posts[p].scheduledFor, PublishTask(p))]
      && r.0.posts == s.posts[p := s.posts[p].(jobId := Some(PostJob(p, now)))]
  {
    if p !in s.posts || !accepted then (s, false)
    else
      var id := PostJob(p, now);
      (s.(jobs := s.jobs[id := Job(s.posts[p].scheduledFor, PublishTask(p))],
          posts := s.posts[p := s.posts[p].(jobId := Some(id))]), true)
  }

  /** schedule_retry: a retry job at the item's next_attempt, if it has one. */
  function ScheduleRetrySpec(s: State, q: nat, now: int): State {
    if q !in s.queue || s.queue[q].nextAttempt.None? then s
    else s.(jobs := s.jobs[RetryJob(q, now) := Job(s.queue[q].nextAttempt.value, RetryTask(q))])
  }

  // ---------------------------------------------------------------------
  // publish_post

  /** A new PostQueue row: 'processing', no attempts yet, at most three. */
  function NewQueueItem(p: nat, platform: string): QueueItem {
    QueueItem(p, platform, QueueStatus.Processing, 0, DefaultMaxAttempts, None, None, None)
  }

  /** The publishing pass so far: the queue and job store it extends, the next
      queue id, the success count and the platform post ids collected. */
  datatype Pass = Pass(
    queue: map<nat, QueueItem>, jobs: map<JobId, Job>, nextQueueId: nat,
    count: nat, results: map<string, Option<string>>)

  /** The queue item one platform of the pass leaves: created 'processing'
      with no attempts, then completed on success; otherwise failed after one
      attempt, with its next attempt 30 minutes on while attempts remain. */
  function SettledItem(p: nat, platform: string, reply: Reply, now: int): QueueItem {
    var item := NewQueueItem(p, platform);
    if reply.success then item.(status := QueueStatus.Completed, completedAt := Some(now))
    else
      var attempts := item.attempts + 1;
      item.(status := QueueStatus.Failed, errorMessage := Some(ReplyError(reply)), attempts := attempts,
            nextAttempt := if attempts < item.maxAttempts then Some(now + FirstRetryDelay) else None)
  }

  /** One platform of the pass: its queue item under the next id; the count
      and post ids on success; otherwise schedule_retry's job when the item
      has a next attempt. */
  function PublishStep(pass: Pass, p: nat, platform: string, reply: Reply, now: int): Pass {
    var q := pass.nextQueueId;
    var item := SettledItem(p, platform, reply, now);
    Pass(pass.queue[q := item],
         if item.nextAttempt.Some? then pass.jobs[RetryJob(q, now) := Job(item.nextAttempt.value, RetryTask(q))]
         else pass.jobs,
         q + 1,
         if reply.success then pass.count + 1 else pass.count,
         if reply.success then pass.results[platform := reply.postId] else pass.results)
  }

  /** The pass over the first k platforms; `outcomes(j)` is what publishing to
      the j-th platform returned. */
  function PublishPrefix(init: Pass, p: nat, platforms: seq<string>, outcomes: nat -> Reply, now: int, k: nat)
    : (r: Pass)
    requires k <= |platforms|
    ensures r.nextQueueId == init.nextQueueId + k
    ensures r.count <= init.count + k
  {
    if k == 0 then init
    else PublishStep(PublishPrefix(init, p, platforms, outcomes, now, k - 1), p, platforms[k - 1], outcomes(k - 1), now)
  }

  /** The pass publish_post starts from. */
  function StartPass(s: State): Pass {
    Pass(s.queue, s.jobs, s.nextQueueId, 0, map[])
  }

  /** The post's status, posted_at, error and platform post ids after the pass. */
  function FinishPublish(s: State, p: nat, pass: Pass, total: nat, now: int): State
    requires p in s.posts
  {
    var post := s.posts[p];
    var settled :=
      if pass.count == total then post.(status := Posted, postedAt := Some(now))
      else if pass.count > 0 then post.(status := Partial, postedAt := Some(now))
      else post.(status := PostStatus.Failed, errorMessage := Some(NoPlatformSucceeded));
    var stored := if pass.results != map[] then settled.(platformPostIds := pass.results) else settled;
    s.(posts := s.posts[p := stored], queue := pass.queue, jobs := pass.jobs, nextQueueId := pass.nextQueueId)
  }

  /** publish_post: nothing unless the post exists and is scheduled; then
      'posting', one queue item per platform in order, and the final status. */
  function PublishSpec(s: State, p: nat, outcomes: nat -> Reply, now: int): State {
    if p !in s.posts || s.posts[p].status != Scheduled then s
    else
      var platforms := s.posts[p].platforms;
      var posting := s.(posts := s.posts[p := s.posts[p].(status := Posting)]);
      var pass := PublishPrefix(StartPass(s), p, platforms, outcomes, now, |platforms|);
      FinishPublish(posting, p, pass, |platforms|, now)
  }

  // ---------------------------------------------------------------------
  // retry_post

  /** The queue items of a post (PostQueue.query.filter_by(post_id=p)). */
  function ItemsOf(s: State, p: nat): set<nat> {
    set q | q in s.queue && s.queue[q].postId == p
  }

  /** Its completed items (filter_by(post_id=p, status='completed')). */
  function CompletedItemsOf(s: State, p: nat): set<nat> {
    set q | q in s.queue && s.queue[q].postId == p && s.queue[q].status == QueueStatus.Completed
  }

  /** A successful retry: the item completed after one more attempt, and
      the platform's post id recorded on the post. */
  function Completing(s: State, q: nat, reply: Reply, now: int): State
    requires q in s.queue && s.queue[q].postId in s.posts
  {
    var item := s.queue[q];
    var p := item.postId;
    var done := item.(status := QueueStatus.Completed, attempts := item.attempts + 1, completedAt := Some(now));
    var post := s.posts[p].(platformPostIds := s.posts[p].platformPostIds[item.platform := reply.postId]);
    s.(queue := s.queue[q := done], posts := s.posts[p := post])
  }

  /** The post's status after a successful retry, from its queue items:
      posted when all are completed, partial when it had failed and some
      are, otherwise unchanged. */
  function Aggregate(s: State, p: nat, now: int): State
    requires p in s.posts
  {
    var post := s.posts[p];
    var total := |ItemsOf(s, p)|;
    var completed := |CompletedItemsOf(s, p)|;
    if completed == total then s.(posts := s.posts[p := post.(status := Posted, postedAt := Some(now))])
    else if completed > 0 && post.status == PostStatus.Failed then
      s.(posts := s.posts[p := post.(status := Partial, postedAt := Some(now))])
    else s
  }

  /** retry_post: nothing for a missing item or post; otherwise one more
      attempt on this item's platform. */
  function RetrySpec(s: State, q: nat, reply: Reply, now: int): State {
    if q !in s.queue || s.queue[q].postId !in s.posts then s
    else if reply.success then Aggregate(Completing(s, q, reply, now), s.queue[q].postId, now)
    else
      var item := s.queue[q];
      var failed := item.(status := QueueStatus.Failed, attempts := item.attempts + 1,
                          errorMessage := Some(ReplyError(reply)));
      if failed.attempts < failed.maxAttempts then
        ScheduleRetrySpec(s.(queue := s.queue[q := failed.(nextAttempt := Some(now + RetryDelay))]), q, now)
      else s.(queue := s.queue[q := failed])
  }

  // ---------------------------------------------------------------------
  // A job firing

  /** The scheduler runs a due job once: it leaves the job store, then its
      function runs. `outcomes` answers a publish, `retryReply` a retry. */
  function FireSpec(s: State, id: JobId, outcomes: nat -> Reply, retryReply: Reply, now: int): State {
    if id !in s.jobs then s
    else
      var s1 := s.(jobs := s.jobs - {id});
      match s.jobs[id].task
      case PublishTask(p) => PublishSpec(s1, p, outcomes, now)
      case RetryTask(q) => RetrySpec(s1, q, retryReply, now)
  }

  // ---------------------------------------------------------------------
  // process_bulk_upload

  /** [p for p in requested if p in connected] */
  function Filter(requested: seq<string>, connected: seq<string>): seq<string> {
    if requested == [] then []
    else
      var n := |requested| - 1;
      Filter(requested[..n], connected) + if requested[n] in connected then [requested[n]] else []
  }

  /** The platforms of a bulk item: all connected ones when none are
      requested, otherwise the requested ones that are connected. */
  function ResolvePlatforms(requested: seq<string>, connected: seq<string>): seq<string> {
    if requested == [] then connected else Filter(requested, connected)
  }

  /** The time of the item with enumerate index i, or None where computing it
      raises (daily with no start date). */
  function BulkTime(uploadType: string, startDate: Option<int>, i: nat, now: int): Option<int> {
    if uploadType == "daily" then
      match startDate
      case None => None
      case Some(start) => Some(AtTimeOfDay(start + i * MinutesPerDay, 9, 0))
    else if uploadType == "immediate" then Some(now + 2 * i)
    else Some(now + 60 * i)
  }

  /** Whether item i gets a post: it has platforms, a time and content. */
  predicate Eligible(upload: BulkUpload, connected: seq<string>, item: BulkItem, i: nat, now: int) {
    ResolvePlatforms(item.platforms, connected) != [] &&
    BulkTime(upload.uploadType, upload.startDate, i, now).Some? &&
    item.content.Some?
  }

  /** The upload's counters after one item: processed when it was
      scheduled, failed otherwise. */
  function Tally(upload: BulkUpload, scheduled: bool): BulkUpload {
    if scheduled then upload.(processedPosts := upload.processedPosts + 1)
    else upload.(failedPosts := upload.failedPosts + 1)
  }

  /** The post bulk item i becomes. */
  function BulkPost(upload: BulkUpload, connected: seq<string>, item: BulkItem, i: nat, now: int): Post
    requires Eligible(upload, connected, item, i, now)
  {
    Post(upload.userId, item.content.value, item.hashtags, ResolvePlatforms(item.platforms, connected),
         BulkTime(upload.uploadType, upload.startDate, i, now).value, Scheduled, None, None, None, map[])
  }

  /** What the loop of process_bulk_upload changes: the posts, the job
      store, the upload's counters and the next post id. */
  datatype BulkPass = BulkPass(posts: map<nat, Post>, jobs: map<JobId, Job>, upload: BulkUpload, nextPostId: nat)

  function StartBulk(s: State, u: nat): BulkPass
    requires u in s.uploads
  {
    BulkPass(s.posts, s.jobs, s.uploads[u], s.nextPostId)
  }

  /** One item of the loop; `accepted` is whether its schedule_post succeeds.
      An item without platforms, time or content is counted failed at once;
      otherwise its post is created under the next id and schedule_post
      registers its job and records the job id. */
  function BulkStep(pass: BulkPass, connected: seq<string>, item: BulkItem, i: nat, accepted: bool, now: int): BulkPass {
    if !Eligible(pass.upload, connected, item, i, now) then pass.(upload := Tally(pass.upload, false))
    else
      var pid := pass.nextPostId;
      var post := BulkPost(pass.upload, connected, item, i, now);
      if accepted then
        BulkPass(pass.posts[pid := post.(jobId := Some(PostJob(pid, now)))],
                 pass.jobs[PostJob(pid, now) := Job(post.scheduledFor, PublishTask(pid))],
                 Tally(pass.upload, true), pid + 1)
      else BulkPass(pass.posts[pid := post], pass.jobs, Tally(pass.upload, false), pid + 1)
  }

  /** The loop over the first k items. */
  function BulkPrefix(init: BulkPass, connected: seq<string>, items: seq<BulkItem>, accepted: nat -> bool,
                      now: int, k: nat): BulkPass
    requires k <= |items|
  {
    if k == 0 then init
    else BulkStep(BulkPrefix(init, connected, items, accepted, now, k - 1), connected, items[k - 1], k - 1,
                  accepted(k - 1), now)
  }

  /** process_bulk_upload: nothing for a missing upload; 'failed' when the
      user is missing; otherwise the loop, then 'completed'. */
  function BulkSpec(s: State, u: nat, items: seq<BulkItem>, accepted: nat -> bool, now: int): State {
    if u !in s.uploads then s
    else if s.uploads[u].userId !in s.connected then
      s.(uploads := s.uploads[u := s.uploads[u].(status := UploadStatus.Failed, errorMessage := Some(MissingUserError))])
    else
      var r := BulkPrefix(StartBulk(s, u), s.connected[s.uploads[u].userId], items, accepted, now, |items|);
      s.(posts := r.posts, jobs := r.jobs, nextPostId := r.nextPostId,
         uploads := s.uploads[u := r.upload.(status := UploadStatus.Completed, completedAt := Some(now))])
  }

  // =====================================================================
  // Properties of publish_post

  /** The number of successes among the first k outcomes. */
  function Successes(outcomes: nat -> Reply, k: nat): nat {
    if k == 0 then 0 else Successes(outcomes, k - 1) + if outcomes(k - 1).success then 1 else 0
  }

  /** The queue after a pass over the first k platforms: `base` with the
      pass's items added from id `first` on. */
  function PassQueue(base: map<nat, QueueItem>, first: nat, p: nat, platforms: seq<string>, outcomes: nat -> Reply,
                     now: int, k: nat): map<nat, QueueItem>
    requires k <= |platforms|
  {
    if k == 0 then base
    else PassQueue(base, first, p, platforms, outcomes, now, k - 1)[first + (k - 1) := SettledItem(p, platforms[k - 1], outcomes(k - 1), now)]
  }

  /** The job store after a pass over the first k platforms: `base` with a
      retry job for each failed platform. */
  function PassJobs(base: map<JobId, Job>, first: nat, outcomes: nat -> Reply, now: int, k: nat): map<JobId, Job> {
    if k == 0 then base
    else if outcomes(k - 1).success then PassJobs(base, first, outcomes, now, k - 1)
    else PassJobs(base, first, outcomes, now, k - 1)[RetryJob(first + (k - 1), now) := Job(now + FirstRetryDelay, RetryTask(first + (k - 1)))]
  }

  /** The pass's queue is PassQueue of the one it started from. */
  lemma {:induction false} PublishPrefixQueue(init: Pass, p: nat, platforms: seq<string>, outcomes: nat -> Reply,
                                              now: int, k: nat)
    requires k <= |platforms|
    ensures PublishPrefix(init, p, platforms, outcomes, now, k).queue
         == PassQueue(init.queue, init.nextQueueId, p, platforms, outcomes, now, k)
  {
    if k > 0 {
      PublishPrefixQueue(init, p, platforms, outcomes, now, k - 1);
    }
  }

  /** The pass's job store is PassJobs of the one it started from. */
  lemma {:induction false} PublishPrefixJobs(init: Pass, p: nat, platforms: seq<string>, outcomes: nat -> Reply,
                                             now: int, k: nat)
    requires k <= |platforms|
    ensures PublishPrefix(init, p, platforms, outcomes, now, k).jobs == PassJobs(init.jobs, init.nextQueueId, outcomes, now, k)
  {
    if k > 0 {
      PublishPrefixJobs(init, p, platforms, outcomes, now, k - 1);
    }
  }

  /** The pass counts its successes. */
  lemma {:induction false} PublishPrefixCount(init: Pass, p: nat, platforms: seq<string>, outcomes: nat -> Reply,
                                              now: int, k: nat)
    requires k <= |platforms|
    ensures PublishPrefix(init, p, platforms, outcomes, now, k).count == init.count + Successes(outcomes, k)
  {
    if k > 0 {
      PublishPrefixCount(init, p, platforms, outcomes, now, k - 1);
    }
  }

  /** The pass's queue: the items below `first` kept, and ids first ..
      first + k - 1 holding the j-th platform's settled item. */
  lemma {:induction false} PassQueueLayout(base: map<nat, QueueItem>, first: nat, p: nat, platforms: seq<string>,
                                           outcomes: nat -> Reply, now: int, k: nat)
    requires k <= |platforms|
    requires forall q :: q in base ==> q < first
    ensures var m := PassQueue(base, first, p, platforms, outcomes, now, k);
      && (forall q :: q in m <==> q in base || first <= q < first + k)
      && (forall q :: q in base ==> m[q] == base[q])
      && (forall j :: 0 <= j < k ==> m[first + j] == SettledItem(p, platforms[j], outcomes(j), now))
  {
    if k > 0 {
      PassQueueLayout(base, first, p, platforms, outcomes, now, k - 1);
    }
  }

  /** The pass's jobs: the existing ones, and one retry job per failed
      platform, due in 30 minutes. */
  lemma {:induction false} PassJobsLayout(base: map<JobId, Job>, first: nat, outcomes: nat -> Reply, now: int, k: nat)
    ensures var m := PassJobs(base, first, outcomes, now, k);
      && (forall id :: id in m <==> id in base || NewRetry(first, outcomes, now, k, id))
      && (forall id :: id in m ==>
            m[id] == if NewRetry(first, outcomes, now, k, id) then Job(now + FirstRetryDelay, RetryTask(id.queueId)) else base[id])
  {
    if k > 0 {
      PassJobsLayout(base, first, outcomes, now, k - 1);
      forall id
        ensures NewRetry(first, outcomes, now, k, id) <==>
          NewRetry(first, outcomes, now, k - 1, id) || (id == RetryJob(first + (k - 1), now) && !outcomes(k - 1).success)
      {
      }
    }
  }

  /** A retry job registered by the pass: one for a failed platform. */
  predicate NewRetry(first: nat, outcomes: nat -> Reply, now: int, k: nat, id: JobId) {
    id.RetryJob? && id.stamp == now && first <= id.queueId < first + k && !outcomes(id.queueId - first).success
  }

  /** Platform pl succeeded at some j < k. */
  predicate SucceededOn(platforms: seq<string>, outcomes: nat -> Reply, k: nat, pl: string)
    requires k <= |platforms|
  {
    exists j :: 0 <= j < k && platforms[j] == pl && outcomes(j).success
  }

  /** j is the last success of pl before k. */
  predicate LastSuccess(platforms: seq<string>, outcomes: nat -> Reply, k: nat, pl: string, j: nat)
    requires k <= |platforms|
  {
    j < k && platforms[j] == pl && outcomes(j).success &&
    forall j' :: j < j' < k && platforms[j'] == pl ==> !outcomes(j').success
  }

  /** The pass's post ids after k platforms: those of k - 1, with the k-th
      platform's id on success. */
  lemma PublishPrefixResultsStep(init: Pass, p: nat, platforms: seq<string>, outcomes: nat -> Reply, now: int, k: nat)
    requires 0 < k <= |platforms|
    ensures var prev := PublishPrefix(init, p, platforms, outcomes, now, k - 1).results;
      PublishPrefix(init, p, platforms, outcomes, now, k).results
        == if outcomes(k - 1).success then prev[platforms[k - 1] := outcomes(k - 1).postId] else prev
  {
  }

  /** The collected platform post ids are those of the platforms that
      succeeded. */
  lemma {:induction false} PublishPrefixResultKeys(init: Pass, p: nat, platforms: seq<string>, outcomes: nat -> Reply,
                                                   now: int, k: nat)
    requires k <= |platforms| && init.results == map[]
    ensures var res := PublishPrefix(init, p, platforms, outcomes, now, k).results;
      forall pl :: pl in res <==> SucceededOn(platforms, outcomes, k, pl)
  {
    if k > 0 {
      PublishPrefixResultKeys(init, p, platforms, outcomes, now, k - 1);
      PublishPrefixResultsStep(init, p, platforms, outcomes, now, k);
      var res := PublishPrefix(init, p, platforms, outcomes, now, k).results;
      forall pl
        ensures pl in res <==> SucceededOn(platforms, outcomes, k, pl)
      {
        if SucceededOn(platforms, outcomes, k, pl) && !(outcomes(k - 1).success && pl == platforms[k - 1]) {
          var j :| 0 <= j < k && platforms[j] == pl && outcomes(j).success;
          assert SucceededOn(platforms, outcomes, k - 1, pl);
        }
        if SucceededOn(platforms, outcomes, k - 1, pl) {
          var j :| 0 <= j < k - 1 && platforms[j] == pl && outcomes(j).success;
          assert SucceededOn(platforms, outcomes, k, pl);
        }
      }
    }
  }

  /** Each collected post id is that of its platform's last success. */
  lemma {:induction false} PublishPrefixResultValues(init: Pass, p: nat, platforms: seq<string>, outcomes: nat -> Reply,
                                                     now: int, k: nat)
    requires k <= |platforms| && init.results == map[]
    ensures var res := PublishPrefix(init, p, platforms, outcomes, now, k).results;
      forall pl :: pl in res ==> exists j: nat :: LastSuccess(platforms, outcomes, k, pl, j) && res[pl] == outcomes(j).postId
  {
    if k > 0 {
      PublishPrefixResultValues(init, p, platforms, outcomes, now, k - 1);
      PublishPrefixResultsStep(init, p, platforms, outcomes, now, k);
      var prev := PublishPrefix(init, p, platforms, outcomes, now, k - 1).results;
      var res := PublishPrefix(init, p, platforms, outcomes, now, k).results;
      forall pl | pl in res
        ensures exists j: nat :: LastSuccess(platforms, outcomes, k, pl, j) && res[pl] == outcomes(j).postId
      {
        if outcomes(k - 1).success && pl == platforms[k - 1] {
          assert LastSuccess(platforms, outcomes, k, pl, k - 1);
        } else {
          assert pl in prev && res[pl] == prev[pl];
          var j: nat :| LastSuccess(platforms, outcomes, k - 1, pl, j) && prev[pl] == outcomes(j).postId;
          assert LastSuccess(platforms, outcomes, k, pl, j);
        }
      }
    }
  }

  /** The success count is at most k; it is k exactly when all k succeeded
      and 0 exactly when none did. */
  lemma {:induction false} SuccessesMeaning(outcomes: nat -> Reply, k: nat)
    ensures Successes(outcomes, k) <= k
    ensures Successes(outcomes, k) == k <==> forall j :: 0 <= j < k ==> outcomes(j).success
    ensures Successes(outcomes, k) == 0 <==> forall j :: 0 <= j < k ==> !outcomes(j).success
  {
    if k > 0 {
      SuccessesMeaning(outcomes, k - 1);
    }
  }

  /** The status rules of publish_post: posted iff every platform succeeded
      (so also for no platforms), partial iff some but not all did, failed
      with an error message iff there were platforms and none succeeded;
      posted_at is set exactly when the post is posted or partial. Nothing
      else of the post changes but its platform post ids. */
  lemma PublishStatusRules(s: State, p: nat, outcomes: nat -> Reply, now: int)
    requires p in s.posts && s.posts[p].status == Scheduled
    ensures var n := |s.posts[p].platforms|;
      var old_ := s.posts[p];
      var r := PublishSpec(s, p, outcomes, now);
      && p in r.posts
      && (r.posts[p].status == Posted <==> forall j :: 0 <= j < n ==> outcomes(j).success)
      && (r.posts[p].status == Partial <==>
            (exists j :: 0 <= j < n && outcomes(j).success) && (exists j :: 0 <= j < n && !outcomes(j).success))
      && (r.posts[p].status == PostStatus.Failed <==> n > 0 && forall j :: 0 <= j < n ==> !outcomes(j).success)
      && r.posts[p].postedAt == (if r.posts[p].status == PostStatus.Failed then old_.postedAt else Some(now))
      && r.posts[p].errorMessage == (if r.posts[p].status == PostStatus.Failed then Some(NoPlatformSucceeded) else old_.errorMessage)
      && r.posts[p].(status := old_.status, postedAt := old_.postedAt, errorMessage := old_.errorMessage,
                     platformPostIds := old_.platformPostIds) == old_
  {
    var n := |s.posts[p].platforms|;
    PublishPrefixCount(StartPass(s), p, s.posts[p].platforms, outcomes, now, n);
    SuccessesMeaning(outcomes, n);
  }

  /** publish_post replaces the platform post ids with those of the
      platforms that succeeded, each from its last success, and keeps the old
      ones when none succeeded. */
  lemma PublishPostIds(s: State, p: nat, outcomes: nat -> Reply, now: int)
    requires p in s.posts && s.posts[p].status == Scheduled
    ensures var platforms := s.posts[p].platforms;
      var n := |platforms|;
      var ids := PublishSpec(s, p, outcomes, now).posts[p].platformPostIds;
      && ((forall j :: 0 <= j < n ==> !outcomes(j).success) ==> ids == s.posts[p].platformPostIds)
      && ((exists j :: 0 <= j < n && outcomes(j).success) ==>
            && (forall pl :: pl in ids <==> SucceededOn(platforms, outcomes, n, pl))
            && (forall pl :: pl in ids ==>
                  exists j: nat :: LastSuccess(platforms, outcomes, n, pl, j) && ids[pl] == outcomes(j).postId))
  {
    var platforms := s.posts[p].platforms;
    var n := |platforms|;
    PublishPrefixResultKeys(StartPass(s), p, platforms, outcomes, now, n);
    PublishPrefixResultValues(StartPass(s), p, platforms, outcomes, now, n);
    var res := PublishPrefix(StartPass(s), p, platforms, outcomes, now, n).results;
    var ids := PublishSpec(s, p, outcomes, now).posts[p].platformPostIds;
    assert ids == if res != map[] then res else s.posts[p].platformPostIds;
    if exists j :: 0 <= j < n && outcomes(j).success {
      var j :| 0 <= j < n && outcomes(j).success;
      assert SucceededOn(platforms, outcomes, n, platforms[j]);
      assert platforms[j] in res;
    }
    if res != map[] {
      var pl :| pl in res;
      assert SucceededOn(platforms, outcomes, n, pl);
    }
  }

  /** What publish_post leaves of the state besides the post itself: the
      pass's queue and jobs, every other post, the uploads and the counters. */
  lemma PublishFrame(s: State, p: nat, outcomes: nat -> Reply, now: int)
    requires p in s.posts && s.posts[p].status == Scheduled
    ensures var platforms := s.posts[p].platforms;
      var n := |platforms|;
      var r := PublishSpec(s, p, outcomes, now);
      && r.nextQueueId == s.nextQueueId + n
      && r.queue == PassQueue(s.queue, s.nextQueueId, p, platforms, outcomes, now, n)
      && r.jobs == PassJobs(s.jobs, s.nextQueueId, outcomes, now, n)
      && r.posts.Keys == s.posts.Keys
      && (forall p' :: p' in s.posts && p' != p ==> r.posts[p'] == s.posts[p'])
      && r.uploads == s.uploads && r.connected == s.connected && r.nextPostId == s.nextPostId
  {
    var platforms := s.posts[p].platforms;
    PublishPrefixQueue(StartPass(s), p, platforms, outcomes, now, |platforms|);
    PublishPrefixJobs(StartPass(s), p, platforms, outcomes, now, |platforms|);
  }

  /** A publish job that fires again, or fires for a post that was already
      published, changes nothing: publish_post acts only on scheduled posts
      and never leaves one scheduled. */
  lemma RepeatPublishIgnored(s: State, p: nat, first: nat -> Reply, second: nat -> Reply, now: int, later: int)
    ensures p !in s.posts || s.posts[p].status != Scheduled ==> PublishSpec(s, p, second, later) == s
    ensures var s1 := PublishSpec(s, p, first, now);
      PublishSpec(s1, p, second, later) == s1
  {
    if p in s.posts && s.posts[p].status == Scheduled {
      PublishStatusRules(s, p, first, now);
    }
  }

  // =====================================================================
  // Properties of retry_post

  /** Every queue item of the post is completed. */
  predicate AllDone(s: State, p: nat) {
    forall q :: q in s.queue && s.queue[q].postId == p ==> s.queue[q].status == QueueStatus.Completed
  }

  /** Some queue item of the post is completed. */
  predicate SomeDone(s: State, p: nat) {
    exists q :: q in s.queue && s.queue[q].postId == p && s.queue[q].status == QueueStatus.Completed
  }

  /** Comparing the two counts of retry_post decides whether every item of
      the post is completed, and a positive completed count whether some is. */
  lemma CompletedCountRule(s: State, p: nat)
    ensures CompletedItemsOf(s, p) <= ItemsOf(s, p)
    ensures |CompletedItemsOf(s, p)| == |ItemsOf(s, p)| <==> AllDone(s, p)
    ensures |CompletedItemsOf(s, p)| > 0 <==> SomeDone(s, p)
  {
    var all, done := ItemsOf(s, p), CompletedItemsOf(s, p);
    if !AllDone(s, p) {
      var q :| q in s.queue && s.queue[q].postId == p && s.queue[q].status != QueueStatus.Completed;
      var rest := all - {q};
      assert done - rest == {} && rest * done == done && rest + done == rest;
      assert |rest - done| + |done - rest| + |rest * done| == |rest + done|;
      assert |rest| == |all| - 1;
    } else {
      assert done == all;
    }
    if SomeDone(s, p) {
      var q :| q in s.queue && s.queue[q].postId == p && s.queue[q].status == QueueStatus.Completed;
      assert q in done;
    }
  }

  /** The status derivation after a successful retry changes only the
      post's status and posted_at: posted when every item of it is
      completed, partial when it had failed and some item still is not,
      otherwise nothing. */
  lemma AggregateRules(s: State, p: nat, now: int)
    requires p in s.posts
    ensures var r := Aggregate(s, p, now);
      var post := s.posts[p];
      && r.queue == s.queue && r.jobs == s.jobs && r.uploads == s.uploads && r.connected == s.connected
      && r.nextPostId == s.nextPostId && r.nextQueueId == s.nextQueueId
      && p in r.posts && r.posts == s.posts[p := r.posts[p]]
      && r.posts[p].(status := post.status, postedAt := post.postedAt) == post
      && (AllDone(s, p) ==> r.posts[p].status == Posted && r.posts[p].postedAt == Some(now))
      && (!AllDone(s, p) && post.status == PostStatus.Failed && SomeDone(s, p) ==>
            r.posts[p].status == Partial && r.posts[p].postedAt == Some(now))
      && (!AllDone(s, p) && (post.status != PostStatus.Failed || !SomeDone(s, p)) ==> r.posts[p] == post)
  {
    CompletedCountRule(s, p);
  }

  /** A successful retry completes this item only and adds only this
      platform's post id; then the status derivation runs. The item itself
      is completed, so when the post had failed it becomes partial or
      posted. */
  lemma RetrySuccessRules(s: State, q: nat, reply: Reply, now: int)
    requires q in s.queue && s.queue[q].postId in s.posts && reply.success
    ensures var item := s.queue[q];
      var p := item.postId;
      var s1 := Completing(s, q, reply, now);
      && RetrySpec(s, q, reply, now) == Aggregate(s1, p, now)
      && s1.queue == s.queue[q := item.(status := QueueStatus.Completed, attempts := item.attempts + 1, completedAt := Some(now))]
      && s1.jobs == s.jobs && s1.uploads == s.uploads && s1.connected == s.connected
      && s1.nextPostId == s.nextPostId && s1.nextQueueId == s.nextQueueId
      && s1.posts == s.posts[p := s.posts[p].(platformPostIds := s.posts[p].platformPostIds[item.platform := reply.postId])]
      && SomeDone(s1, p)
  {
    var s1 := Completing(s, q, reply, now);
    assert s1.queue[q].status == QueueStatus.Completed;
  }

  /** A failed retry marks this item failed with the error and, while
      attempts remain, schedules the next retry an hour on; posts are not
      touched. */
  lemma RetryFailureRules(s: State, q: nat, reply: Reply, now: int)
    requires q in s.queue && s.queue[q].postId in s.posts && !reply.success
    ensures var item := s.queue[q];
      var attempts := item.attempts + 1;
      var again := attempts < item.maxAttempts;
      var r := RetrySpec(s, q, reply, now);
      && r.queue == s.queue[q := item.(status := QueueStatus.Failed, attempts := attempts,
                                       errorMessage := Some(ReplyError(reply)),
                                       nextAttempt := if again then Some(now + RetryDelay) else item.nextAttempt)]
      && r.jobs == (if again then s.jobs[RetryJob(q, now) := Job(now + RetryDelay, RetryTask(q))] else s.jobs)
      && r.posts == s.posts && r.uploads == s.uploads && r.connected == s.connected
      && r.nextPostId == s.nextPostId && r.nextQueueId == s.nextQueueId
  {
  }

  /** retry_post does nothing when the item or its post is missing. */
  lemma RetryGuards(s: State, q: nat, reply: Reply, now: int)
    requires q !in s.queue || s.queue[q].postId !in s.posts
    ensures RetrySpec(s, q, reply, now) == s
  {
  }

  // =====================================================================
  // Properties of process_bulk_upload

  /** The filter keeps exactly the requested platforms that are connected. */
  lemma {:induction false} FilterMembers(requested: seq<string>, connected: seq<string>)
    ensures forall x :: x in Filter(requested, connected) <==> x in requested && x in connected
    ensures |Filter(requested, connected)| <= |requested|
  {
    if requested != [] {
      var n := |requested| - 1;
      FilterMembers(requested[..n], connected);
      assert requested == requested[..n] + [requested[n]];
    }
  }

  /** The filter keeps request order: it distributes over concatenation. */
  lemma {:induction false} FilterAppend(a: seq<string>, b: seq<string>, connected: seq<string>)
    ensures Filter(a + b, connected) == Filter(a, connected) + Filter(b, connected)
  {
    if b == [] {
      assert a + b == a;
    } else {
      var n := |b| - 1;
      FilterAppend(a, b[..n], connected);
      assert (a + b)[..|a + b| - 1] == a + b[..n];
      assert (a + b)[|a + b| - 1] == b[n];
    }
  }

  /** Platform resolution: the connected platforms when none are requested,
      otherwise exactly the requested ones that are connected; either way
      only connected platforms. */
  lemma ResolvePlatformsRules(requested: seq<string>, connected: seq<string>)
    ensures requested == [] ==> ResolvePlatforms(requested, connected) == connected
    ensures requested != [] ==>
      forall x :: x in ResolvePlatforms(requested, connected) <==> x in requested && x in connected
    ensures forall x :: x in ResolvePlatforms(requested, connected) ==> x in connected
  {
    FilterMembers(requested, connected);
  }

  /** Daily bulk posts land on the start day plus the item's index, at
      09:00:00; immediate ones two minutes apart from now, others an hour. */
  lemma BulkTimeRules(uploadType: string, startDate: Option<int>, i: nat, now: int)
    ensures uploadType == "daily" && startDate.Some? ==>
      && BulkTime(uploadType, startDate, i, now).Some?
      && BulkTime(uploadType, startDate, i, now).value / MinutesPerDay == startDate.value / MinutesPerDay + i
      && BulkTime(uploadType, startDate, i, now).value % MinutesPerDay == DailyPostMinute
    ensures uploadType == "daily" && startDate.None? ==> BulkTime(uploadType, startDate, i, now).None?
    ensures uploadType == "immediate" ==> BulkTime(uploadType, startDate, i, now) == Some(now + 2 * i)
    ensures uploadType != "daily" && uploadType != "immediate" ==> BulkTime(uploadType, startDate, i, now) == Some(now + 60 * i)
  {
    if uploadType == "daily" && startDate.Some? {
      var start := startDate.value;
      DayShift(start, i);
      AtTimeOfDayParts(start + i * MinutesPerDay, 9, 0);
    }
  }

  /** The number of the first k items that get a post. */
  function EligibleCount(upload: BulkUpload, connected: seq<string>, items: seq<BulkItem>, now: int, k: nat): (c: nat)
    requires k <= |items|
    ensures c <= k
  {
    if k == 0 then 0
    else EligibleCount(upload, connected, items, now, k - 1) + (if Eligible(upload, connected, items[k - 1], k - 1, now) then 1 else 0)
  }

  /** The number of the first k items that get a post and are scheduled. */
  function ScheduledCount(upload: BulkUpload, connected: seq<string>, items: seq<BulkItem>, accepted: nat -> bool,
                          now: int, k: nat): (c: nat)
    requires k <= |items|
    ensures c <= EligibleCount(upload, connected, items, now, k)
  {
    if k == 0 then 0
    else
      var scheduled := Eligible(upload, connected, items[k - 1], k - 1, now) && accepted(k - 1);
      ScheduledCount(upload, connected, items, accepted, now, k - 1) + (if scheduled then 1 else 0)
  }

  /** One eligible bulk item is exactly schedule_post applied to the state
      holding its freshly created post: the result is `accepted` and the
      posts, jobs and next id agree with the loop step. */
  lemma BulkStepSchedules(s: State, pass: BulkPass, connected: seq<string>, item: BulkItem, i: nat, accepted: bool,
                          now: int)
    requires s.posts == pass.posts && s.jobs == pass.jobs && s.nextPostId == pass.nextPostId
    requires Eligible(pass.upload, connected, item, i, now)
    ensures var pid := s.nextPostId;
      var created := s.(posts := s.posts[pid := BulkPost(pass.upload, connected, item, i, now)], nextPostId := pid + 1);
      var (s2, ok) := SchedulePostSpec(created, pid, accepted, now);
      var r := BulkStep(pass, connected, item, i, accepted, now);
      && ok == accepted
      && r.posts == s2.posts && r.jobs == s2.jobs && r.nextPostId == s2.nextPostId
      && r.upload == Tally(pass.upload, ok)
  {
  }

  /** Over the first k items: the processed counter grows by the scheduled
      items, the failed counter by all the others, and nothing else of the
      upload changes. */
  lemma {:induction false} BulkPrefixUpload(init: BulkPass, connected: seq<string>, items: seq<BulkItem>,
                                            accepted: nat -> bool, now: int, k: nat)
    requires k <= |items|
    ensures var b := init.upload;
      var sc := ScheduledCount(b, connected, items, accepted, now, k);
      BulkPrefix(init, connected, items, accepted, now, k).upload
        == b.(processedPosts := b.processedPosts + sc, failedPosts := b.failedPosts + (k - sc))
  {
    if k > 0 {
      BulkPrefixUpload(init, connected, items, accepted, now, k - 1);
    }
  }

  /** Over the first k items the posts take the next EligibleCount ids. */
  lemma {:induction false} BulkPrefixIds(init: BulkPass, connected: seq<string>, items: seq<BulkItem>,
                                         accepted: nat -> bool, now: int, k: nat)
    requires k <= |items|
    ensures BulkPrefix(init, connected, items, accepted, now, k).nextPostId
      == init.nextPostId + EligibleCount(init.upload, connected, items, now, k)
  {
    if k > 0 {
      BulkPrefixIds(init, connected, items, accepted, now, k - 1);
      BulkPrefixUpload(init, connected, items, accepted, now, k - 1);
    }
  }

  /** process_bulk_upload's counters: each item adds one to exactly one of
      processed and failed, processed by ScheduledCount; the upload ends
      completed and nothing but posts, jobs, the next post id and this
      upload changes. With the user missing it ends failed and nothing is
      created. */
  lemma BulkCounters(s: State, u: nat, items: seq<BulkItem>, accepted: nat -> bool, now: int)
    requires u in s.uploads
    ensures var b := s.uploads[u];
      var r := BulkSpec(s, u, items, accepted, now);
      && r.uploads.Keys == s.uploads.Keys
      && (forall u' :: u' in s.uploads && u' != u ==> r.uploads[u'] == s.uploads[u'])
      && r.queue == s.queue && r.connected == s.connected && r.nextQueueId == s.nextQueueId
      && (b.userId !in s.connected ==>
            r == s.(uploads := s.uploads[u := b.(status := UploadStatus.Failed, errorMessage := Some(MissingUserError))]))
      && (b.userId in s.connected ==>
            var sc := ScheduledCount(b, s.connected[b.userId], items, accepted, now, |items|);
            && r.uploads[u].status == UploadStatus.Completed && r.uploads[u].completedAt == Some(now)
            && r.uploads[u].processedPosts == b.processedPosts + sc
            && r.uploads[u].processedPosts + r.uploads[u].failedPosts == b.processedPosts + b.failedPosts + |items|
            && r.uploads[u].(status := b.status, completedAt := b.completedAt, processedPosts := b.processedPosts,
                             failedPosts := b.failedPosts) == b
            && r.nextPostId == s.nextPostId + EligibleCount(b, s.connected[b.userId], items, now, |items|))
  {
    var b := s.uploads[u];
    if b.userId in s.connected {
      BulkPrefixUpload(StartBulk(s, u), s.connected[b.userId], items, accepted, now, |items|);
      BulkPrefixIds(StartBulk(s, u), s.connected[b.userId], items, accepted, now, |items|);
    }
  }

  /** One loop step on the posts: an ineligible item leaves them alone, an
      eligible one adds its post under the next id. */
  lemma BulkStepPosts(pass: BulkPass, connected: seq<string>, item: BulkItem, i: nat, accepted: bool, now: int)
    ensures var r := BulkStep(pass, connected, item, i, accepted, now);
      var pid := pass.nextPostId;
      && r.upload == Tally(pass.upload, Eligible(pass.upload, connected, item, i, now) && accepted)
      && (!Eligible(pass.upload, connected, item, i, now) ==> r.posts == pass.posts && r.nextPostId == pid)
      && (Eligible(pass.upload, connected, item, i, now) ==>
            && r.nextPostId == pid + 1 && pid in r.posts
            && r.posts == pass.posts[pid := r.posts[pid]]
            && r.posts[pid].(jobId := None) == BulkPost(pass.upload, connected, item, i, now))
  {
  }

  /** The posts the first k items create take fresh ids from nextPostId on;
      older posts are kept. */
  lemma {:induction false} BulkPrefixPostIds(init: BulkPass, connected: seq<string>, items: seq<BulkItem>,
                                             accepted: nat -> bool, now: int, k: nat)
    requires k <= |items|
    requires forall p :: p in init.posts ==> p < init.nextPostId
    ensures var r := BulkPrefix(init, connected, items, accepted, now, k);
      && init.nextPostId <= r.nextPostId
      && (forall p :: p in r.posts <==> p in init.posts || init.nextPostId <= p < r.nextPostId)
      && (forall p :: p in init.posts ==> r.posts[p] == init.posts[p])
  {
    if k > 0 {
      BulkPrefixPostIds(init, connected, items, accepted, now, k - 1);
      var prev := BulkPrefix(init, connected, items, accepted, now, k - 1);
      BulkStepPosts(prev, connected, items[k - 1], k - 1, accepted(k - 1), now);
    }
  }

  /** A post as process_bulk_upload creates it for the user: scheduled,
      with platforms, all of them connected. */
  predicate CreatedFor(post: Post, userId: int, connected: seq<string>) {
    && post.status == Scheduled && post.userId == userId
    && post.platforms != [] && (forall x :: x in post.platforms ==> x in connected)
  }

  lemma BulkPostCreated(upload: BulkUpload, connected: seq<string>, item: BulkItem, i: nat, now: int, post: Post)
    requires Eligible(upload, connected, item, i, now)
    requires post.(jobId := None) == BulkPost(upload, connected, item, i, now)
    ensures CreatedFor(post, upload.userId, connected)
  {
    ResolvePlatformsRules(item.platforms, connected);
    assert post.platforms == ResolvePlatforms(item.platforms, connected);
  }

  /** Every post the first k items create is scheduled, owned by the
      upload's user, and has platforms, all of them connected. */
  lemma {:induction false} BulkPrefixNewPosts(init: BulkPass, connected: seq<string>, items: seq<BulkItem>,
                                              accepted: nat -> bool, now: int, k: nat)
    requires k <= |items|
    ensures var r := BulkPrefix(init, connected, items, accepted, now, k);
      forall p :: p in r.posts && p !in init.posts ==> CreatedFor(r.posts[p], init.upload.userId, connected)
  {
    if k > 0 {
      BulkPrefixNewPosts(init, connected, items, accepted, now, k - 1);
      BulkPrefixUpload(init, connected, items, accepted, now, k - 1);
      var prev := BulkPrefix(init, connected, items, accepted, now, k - 1);
      var r := BulkPrefix(init, connected, items, accepted, now, k);
      BulkStepPosts(prev, connected, items[k - 1], k - 1, accepted(k - 1), now);
      if Eligible(prev.upload, connected, items[k - 1], k - 1, now) {
        BulkPostCreated(prev.upload, connected, items[k - 1], k - 1, now, r.posts[prev.nextPostId]);
      }
    }
  }

  /** The jobs the first k items add are the publish jobs of new posts, each
      at its post's time and recorded on it; older jobs are kept. */
  lemma {:induction false} BulkPrefixJobs(init: BulkPass, connected: seq<string>, items: seq<BulkItem>,
                                          accepted: nat -> bool, now: int, k: nat)
    requires k <= |items|
    requires forall p :: p in init.posts ==> p < init.nextPostId
    requires forall id :: id in init.jobs && id.PostJob? ==> id.postId < init.nextPostId
    ensures var r := BulkPrefix(init, connected, items, accepted, now, k);
      && (forall id :: id in init.jobs ==> id in r.jobs && r.jobs[id] == init.jobs[id])
      && (forall id :: id in r.jobs && id !in init.jobs ==>
            && id.PostJob? && init.nextPostId <= id.postId < r.nextPostId && id.postId in r.posts
            && r.posts[id.postId].jobId == Some(id)
            && r.jobs[id] == Job(r.posts[id.postId].scheduledFor, PublishTask(id.postId)))
  {
    if k > 0 {
      BulkPrefixJobs(init, connected, items, accepted, now, k - 1);
      BulkPrefixPostIds(init, connected, items, accepted, now, k - 1);
      var prev := BulkPrefix(init, connected, items, accepted, now, k - 1);
      BulkStepPosts(prev, connected, items[k - 1], k - 1, accepted(k - 1), now);
    }
  }
}
