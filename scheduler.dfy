// scheduler.py as it runs: one object holding the database tables and the
// background scheduler's job store, whose methods change them step by step.
// Each method is proved to leave exactly the state its specification
// function in SchedulerSpec describes.
module Scheduler {
  import opened Wrappers
  import opened Models
  import opened SchedulerSpec
  import opened SchedulerInvariant

  class App {
    var posts: map<nat, Post>
    var queue: map<nat, QueueItem>
    var jobs: map<JobId, Job>
    var uploads: map<nat, BulkUpload>
    var connected: map<int, seq<string>>
    var nextPostId: nat
    var nextQueueId: nat

    /** The whole database and job store as one value. */
    function Snapshot(): State
      reads this
    {
      State(posts, queue, jobs, uploads, connected, nextPostId, nextQueueId)
    }

    /** An empty post table, queue and job store over the given uploads and
        connected accounts. */
    constructor(uploads0: map<nat, BulkUpload>, connected0: map<int, seq<string>>)
      ensures Snapshot() == State(map[], map[], map[], uploads0, connected0, 0, 0)
      ensures Valid(Snapshot())
    {
      posts, queue, jobs := map[], map[], map[];
      uploads, connected := uploads0, connected0;
      nextPostId, nextQueueId := 0, 0;
      ValidInitial(uploads0, connected0);
    }

    /** schedule_post(post_id); `accepted` is whether add_job returns. */
    method SchedulePost(p: nat, accepted: bool, now: int) returns (ok: bool)
      modifies this
      ensures (Snapshot(), ok) == SchedulePostSpec(old(Snapshot()), p, accepted, now)
      ensures Valid(old(Snapshot())) ==> Valid(Snapshot())
    {
      if Valid(Snapshot()) {
        SchedulePostKeepsValid(Snapshot(), p, accepted, now);
      }
      if p !in posts {
        return false;
      }
      var post := posts[p];
      var jobId := PostJob(p, now);
      if !accepted {
        return false;
      }
      jobs := jobs[jobId := Job(post.scheduledFor, PublishTask(p))];
      posts := posts[p := post.(jobId := Some(jobId))];
      ok := true;
    }

    /** schedule_retry(queue_id). */
    method ScheduleRetry(q: nat, now: int)
      modifies this
      ensures Snapshot() == ScheduleRetrySpec(old(Snapshot()), q, now)
    {
      if q !in queue || queue[q].nextAttempt.None? {
        return;
      }
      jobs := jobs[RetryJob(q, now) := Job(queue[q].nextAttempt.value, RetryTask(q))];
    }

    /** publish_post(post_id); `outcomes(k)` is what posting to the k-th
        platform returns. */
    method PublishPost(p: nat, outcomes: nat -> Reply, now: int)
      modifies this
      ensures Snapshot() == PublishSpec(old(Snapshot()), p, outcomes, now)
      ensures Valid(old(Snapshot())) ==> Valid(Snapshot())
    {
      if Valid(Snapshot()) {
        PublishKeepsValid(Snapshot(), p, outcomes, now);
      }
      if p !in posts || posts[p].status != Scheduled {
        return;
      }
      ghost var s0 := Snapshot();
      posts := posts[p := posts[p].(status := Posting)];
      ghost var posting := Snapshot();
      var platforms := posts[p].platforms;
      var successCount := 0;
      var platformResults: map<string, Option<string>> := map[];
      for k := 0 to |platforms|
        invariant Pass(queue, jobs, nextQueueId, successCount, platformResults)
          == PublishPrefix(StartPass(s0), p, platforms, outcomes, now, k)
        invariant posts == posting.posts && uploads == s0.uploads && connected == s0.connected
        invariant nextPostId == s0.nextPostId
      {
        successCount, platformResults := PublishPlatform(p, platforms[k], outcomes(k), now, successCount, platformResults);
      }
      ghost var pass := Pass(queue, jobs, nextQueueId, successCount, platformResults);
      assert FinishPublish(Snapshot(), p, pass, |platforms|, now) == FinishPublish(posting, p, pass, |platforms|, now);
      SettlePost(p, |platforms|, successCount, platformResults, now);
    }

    /** One platform of publish_post: a new 'processing' queue item, the post
        attempt, and the item settled by its reply (with a retry scheduled
        while attempts remain). */
    method PublishPlatform(p: nat, platform: string, result: Reply, now: int,
                           successCount: nat, platformResults: map<string, Option<string>>)
      returns (count: nat, results: map<string, Option<string>>)
      modifies this
      ensures Pass(queue, jobs, nextQueueId, count, results)
        == PublishStep(Pass(old(queue), old(jobs), old(nextQueueId), successCount, platformResults), p, platform, result, now)
      ensures posts == old(posts) && uploads == old(uploads) && connected == old(connected)
      ensures nextPostId == old(nextPostId)
    {
      count, results := successCount, platformResults;
      var q := nextQueueId;
      var item := NewQueueItem(p, platform);
      queue := queue[q := item];
      nextQueueId := q + 1;
      if result.success {
        count := count + 1;
        results := results[platform := result.postId];
        item := item.(status := QueueStatus.Completed, completedAt := Some(now));
        queue := queue[q := item];
      } else {
        item := item.(status := QueueStatus.Failed, errorMessage := Some(ReplyError(result)),
                      attempts := item.attempts + 1);
        queue := queue[q := item];
        if item.attempts < item.maxAttempts {
          item := item.(nextAttempt := Some(now + FirstRetryDelay));
          queue := queue[q := item];
          ScheduleRetry(q, now);
        }
      }
    }

    /** The end of publish_post: the status from the success count, and the
        platform post ids when there are any. */
    method SettlePost(p: nat, total: nat, successCount: nat, platformResults: map<string, Option<string>>, now: int)
      requires p in posts
      modifies this
      ensures Snapshot() == FinishPublish(old(Snapshot()), p, Pass(old(queue), old(jobs), old(nextQueueId), successCount, platformResults), total, now)
    {
      var post := posts[p];
      if successCount == total {
        post := post.(status := Posted, postedAt := Some(now));
      } else if successCount > 0 {
        post := post.(status := Partial, postedAt := Some(now));
      } else {
        post := post.(status := PostStatus.Failed, errorMessage := Some(NoPlatformSucceeded));
      }
      if platformResults != map[] {
        post := post.(platformPostIds := platformResults);
      }
      posts := posts[p := post];
    }

    /** retry_post(queue_id); `reply` is what posting to the item's platform
        returns. */
    method RetryPost(q: nat, reply: Reply, now: int)
      modifies this
      ensures Snapshot() == RetrySpec(old(Snapshot()), q, reply, now)
    {
      if q !in queue || queue[q].postId !in posts {
        return;
      }
      ghost var s0 := Snapshot();
      var item := queue[q];
      queue := queue[q := item.(status := QueueStatus.Processing, attempts := item.attempts + 1)];
      if reply.success {
        CompleteRetry(s0, q, reply, now);
        SettleRetriedPost(item.postId, now);
      } else {
        FailRetry(s0, q, reply, now);
      }
    }

    /** A successful retry: the item completed and the platform's post id
        added to the post's. */
    method CompleteRetry(ghost s0: State, q: nat, reply: Reply, now: int)
      requires q in s0.queue && s0.queue[q].postId in s0.posts
      requires Snapshot() == s0.(queue := s0.queue[q := s0.queue[q].(status := QueueStatus.Processing,
                                                                     attempts := s0.queue[q].attempts + 1)])
      modifies this
      ensures Snapshot() == Completing(s0, q, reply, now)
    {
      var item := queue[q].(status := QueueStatus.Completed, completedAt := Some(now));
      queue := queue[q := item];
      var platformResults := posts[item.postId].platformPostIds;
      platformResults := platformResults[item.platform := reply.postId];
      posts := posts[item.postId := posts[item.postId].(platformPostIds := platformResults)];
    }

    /** The post's status after a successful retry, from the counts of its
        queue items and of its completed ones. */
    method SettleRetriedPost(p: nat, now: int)
      requires p in posts
      modifies this
      ensures Snapshot() == Aggregate(old(Snapshot()), p, now)
    {
      var totalQueue := |ItemsOf(Snapshot(), p)|;
      var completedQueue := |CompletedItemsOf(Snapshot(), p)|;
      var post := posts[p];
      if completedQueue == totalQueue {
        posts := posts[p := post.(status := Posted, postedAt := Some(now))];
      } else if completedQueue > 0 && post.status == PostStatus.Failed {
        posts := posts[p := post.(status := Partial, postedAt := Some(now))];
      }
    }

    /** A failed retry: the item failed with the reply's error, and another
        retry an hour on while attempts remain. */
    method FailRetry(ghost s0: State, q: nat, reply: Reply, now: int)
      requires q in s0.queue && s0.queue[q].postId in s0.posts && !reply.success
      requires Snapshot() == s0.(queue := s0.queue[q := s0.queue[q].(status := QueueStatus.Processing,
                                                                     attempts := s0.queue[q].attempts + 1)])
      modifies this
      ensures Snapshot() == RetrySpec(s0, q, reply, now)
    {
      var item := queue[q].(status := QueueStatus.Failed, errorMessage := Some(ReplyError(reply)));
      queue := queue[q := item];
      if item.attempts < item.maxAttempts {
        item := item.(nextAttempt := Some(now + RetryDelay));
        queue := queue[q := item];
        ScheduleRetry(q, now);
      }
    }

    /** The scheduler running the job `id` when it falls due. */
    method Fire(id: JobId, outcomes: nat -> Reply, retryReply: Reply, now: int)
      modifies this
      ensures Snapshot() == FireSpec(old(Snapshot()), id, outcomes, retryReply, now)
      ensures Valid(old(Snapshot())) ==> Valid(Snapshot())
    {
      if Valid(Snapshot()) {
        FireKeepsValid(Snapshot(), id, outcomes, retryReply, now);
      }
      if id !in jobs {
        return;
      }
      var job := jobs[id];
      jobs := jobs - {id};
      match job.task
      case PublishTask(p) => PublishPost(p, outcomes, now);
      case RetryTask(q) => RetryPost(q, retryReply, now);
    }

    /** process_bulk_upload(bulk_upload_id, posts_data); `accepted(i)` is
        whether schedule_post's add_job returns for item i. */
    method ProcessBulkUpload(u: nat, items: seq<BulkItem>, accepted: nat -> bool, now: int)
      modifies this
      ensures Snapshot() == BulkSpec(old(Snapshot()), u, items, accepted, now)
      ensures Valid(old(Snapshot())) ==> Valid(Snapshot())
    {
      if Valid(Snapshot()) {
        BulkKeepsValid(Snapshot(), u, items, accepted, now);
      }
      if u !in uploads {
        return;
      }
      var upload := uploads[u];
      if upload.userId !in connected {
        uploads := uploads[u := upload.(status := UploadStatus.Failed, errorMessage := Some(MissingUserError))];
        return;
      }
      var connectedPlatforms := connected[upload.userId];
      ghost var s0 := Snapshot();
      for i := 0 to |items|
        invariant BulkPass(posts, jobs, upload, nextPostId)
          == BulkPrefix(StartBulk(s0, u), connectedPlatforms, items, accepted, now, i)
        invariant queue == s0.queue && uploads == s0.uploads && connected == s0.connected
        invariant nextQueueId == s0.nextQueueId
      {
        upload := BulkItem(upload, connectedPlatforms, items[i], i, accepted(i), now);
      }
      uploads := uploads[u := upload.(status := UploadStatus.Completed, completedAt := Some(now))];
    }

    /** One item of process_bulk_upload: counted failed when it has no
        platform, no time or no content; otherwise its post is created and
        scheduled, and counted by what schedule_post returns. */
    method BulkItem(upload: BulkUpload, connectedPlatforms: seq<string>, item: BulkItem, i: nat, accepted: bool,
                    now: int)
      returns (tallied: BulkUpload)
      modifies this
      ensures BulkPass(posts, jobs, tallied, nextPostId)
        == BulkStep(BulkPass(old(posts), old(jobs), upload, old(nextPostId)), connectedPlatforms, item, i, accepted, now)
      ensures queue == old(queue) && uploads == old(uploads) && connected == old(connected)
      ensures nextQueueId == old(nextQueueId)
    {
      var platforms := ResolvePlatforms(item.platforms, connectedPlatforms);
      if platforms == [] {
        return upload.(failedPosts := upload.failedPosts + 1);
      }
      var scheduledFor := BulkTime(upload.uploadType, upload.startDate, i, now);
      if scheduledFor.None? || item.content.None? {
        return upload.(failedPosts := upload.failedPosts + 1);
      }
      BulkStepSchedules(Snapshot(), BulkPass(posts, jobs, upload, nextPostId), connectedPlatforms, item, i, accepted, now);
      var pid := nextPostId;
      posts := posts[pid := Post(upload.userId, item.content.value, item.hashtags, platforms, scheduledFor.value,
                                 Scheduled, None, None, None, map[])];
      nextPostId := pid + 1;
      var ok := SchedulePost(pid, accepted, now);
      tallied := if ok then upload.(processedPosts := upload.processedPosts + 1)
                 else upload.(failedPosts := upload.failedPosts + 1);
    }
  }
}
