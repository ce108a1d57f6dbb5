# Social media scheduler: bulk distribution, dispatch and retry

This project models the two parts of the scheduler that carry real invariants:

- **The bulk upload service** (`bulk_upload_service.py`), modelled in `bulk_upload_service.dfy`. It covers:
  - file-name validation;
  - platform-name standardisation and hashtag parsing;
  - turning a spreadsheet row into post data;
  - distributing a batch over time. Daily batches cycle through the user's daily slots, one day per round. Immediate batches are spaced two minutes apart. Any other batch is spaced one hour apart;
  - the polling service's one-pass publication of a single post.
- **The background scheduler** (`scheduler.py`), modelled in three files:
  - `scheduler_spec.dfy` describes each operation as a function on one database state. The state holds posts, post-queue items, bulk uploads, the job store and each user's connected platforms.
  - `scheduler.dfy` has `class App`. Its fields are those tables and its methods change them step by step, as the Python does. Each method is proved to leave exactly the state its specification function describes.
  - `scheduler_invariant.dfy` proves that every operation keeps one well-formedness invariant, `Valid`:
    - ids are fresh;
    - every job runs the function its id names;
    - a retry job exists only for a failed item that has attempts left, and there is at most one per item.

    From `Valid` it follows that no queue item is attempted more than `max_attempts` (three) times.

`text.dfy` holds shared modules:
- the Python string operations used (`lower`, `strip`, `split`, `int`);
- the model enums and defaults of `models.py`;
- minute-based clock arithmetic.

**Time.** Time is whole minutes, and the day of minute `t` is `t / 1440`. `datetime.replace(hour=h, minute=m, second=0)` becomes `day * 1440 + h * 60 + m`.

**Inputs taken as parameters.** The clock, each platform publisher's reply and whether `add_job` returns are all parameters:
- `now`;
- `outcomes(k)` for the k-th platform of a pass;
- `accepted`.

**Database.** The database is maps keyed by id. Fresh ids come from counters.

**Behaviour of the code worth noting.**
- **Backoff.** A platform that fails during `publish_post` is retried 30 minutes later (scheduler.py:84-87). Every later failed retry waits 60 minutes (scheduler.py:184-186).
- **Retry job ids.** Each retry job is named `retry_<queue id>_<stamp>` (scheduler.py:124), so the id names the queue item and the time it was scheduled.
- **Status after a retry.** `retry_post` moves a post to `partial` only when it was `failed` (scheduler.py:172-177). It overwrites `posted_at` on every posted or partial result, so `posted_at` records the latest such retry.
- **Non-daily bulk times.** `scheduler.py` spaces immediate and other non-daily items from the current time (scheduler.py:229-234), not from the upload's start date.
- **Platforms without an account.**
  - `publish_post` hands every platform to the publisher (scheduler.py:72). The publisher answers `{'success': False, 'error': 'No connected … account'}` for a platform without an active account, and `publish_post` treats that as an ordinary failure: it counts an attempt and schedules a retry (scheduler.py:79-87), which fails the same way. In the model that reply is one of the `outcomes`.
  - The polling service's pass records a "No connected … account" result without calling the publisher (bulk_upload_service.py:359-365).
- **Empty platform list.**
  - `publish_post` with no platforms ends `posted`, because `0 == len([])`.
  - The service's single pass ends `failed`, because it needs at least one success.
- **Field names.** `bulk_upload_service.py` reads and writes fields that `models.py` does not declare:
  - `Post.target_platforms`, `scheduled_time`, `bulk_upload_id`, `posting_results`, `media_url` (models.py declares only `media_urls`);
  - `BulkUpload.name`, `schedule_type`, `target_platforms`;
  - `User.daily_post_times`.

  Against `models.py` as written, these raise. Building `BulkUpload(name=…)` or `Post(scheduled_time=…)` raises TypeError, and reading `user.daily_post_times` or `post.target_platforms` raises AttributeError. So the batch path fails once rows parse, and the polling pass publishes nothing. The service's model assumes the schema the service writes and uses its names.

## Model

| member | source | states |
|---|---|---|
| Text.SplitJoin | bulk_upload_service.py:163 | joining the pieces of `split(d)` with `d` gives the text back |
| Text.Lower | bulk_upload_service.py:145 | defines `str.lower()`: ASCII upper-case letters are lowered, every other character is kept |
| Text.Strip | bulk_upload_service.py:145 | defines `str.strip()`: leading and trailing whitespace removed |
| Text.Split | bulk_upload_service.py:163 | defines `str.split(d)`: the pieces between occurrences of `d`, empty pieces kept; never empty |
| Text.SplitPieces | bulk_upload_service.py:163 | no piece of `split(d)` contains `d` |
| Text.StripInfix | bulk_upload_service.py:169 | `strip()` gives a contiguous part of its input, so it adds no character |
| Text.NormaliseIdempotent | bulk_upload_service.py:145 | `lower().strip()` applied twice equals applying it once |
| Text.ParseInt | bulk_upload_service.py:257 | `int()` succeeds exactly when the stripped text is ASCII digits after an optional `+` or `-`, and then gives their decimal value, negated after `-` |
| Text.ParseIntSigned | bulk_upload_service.py:257 | digits with an optional sign and any surrounding whitespace parse to their decimal value, negated after `-` |
| Clock.AtTimeOfDayParts | scheduler.py:228 | `replace(hour, minute)` keeps the day and sets the minute of the day to `hour*60+minute` |
| Clock.DailyStep | bulk_upload_service.py:259-264 | the slot time on the round's date is `(start day + idx div n)` days plus the slot; the date advances by one day exactly when the index completes a round of `n` |
| BulkUploadService.ValidateFile | bulk_upload_service.py:28-34 | a missing file or an empty file name is refused |
| BulkUploadService.Extension | bulk_upload_service.py:33 | defines `os.path.splitext(name)[1]`: from the last `.` of the last path component, and empty when there is none or only dots precede it in that component |
| BulkUploadService.ValidateFileSuffix | bulk_upload_service.py:33-34 | every accepted name ends, ignoring case, in `.csv`, `.xlsx` or `.xls` |
| BulkUploadService.ValidateFileAccepts | bulk_upload_service.py:33-34 | every name made of a stem plus a supported extension in any case is accepted (the stem is non-empty and does not end in `.` or `/`) |
| BulkUploadService.ValidateFileExamples | bulk_upload_service.py:30-34 | `.csv` (no extension for `splitext`), `""` and no file are refused; `Posts.CSV` is accepted |
| BulkUploadService.StandardizePlatformName | bulk_upload_service.py:143-154 | the result is None or one of `tiktok`, `instagram`, `youtube` |
| BulkUploadService.CanonicalNamesFixed | bulk_upload_service.py:147-152 | each canonical name maps to itself |
| BulkUploadService.StandardizeIdempotent | bulk_upload_service.py:143-154 | standardising a standardised name changes nothing |
| BulkUploadService.StandardizeNormalised | bulk_upload_service.py:145 | only case and surrounding whitespace are ignored: lower-casing and stripping first gives the same answer |
| BulkUploadService.FirstDelimiter | bulk_upload_service.py:161-166 | the chosen delimiter is the first of `,` `;` space newline that occurs in the text; None means none occurs |
| BulkUploadService.Hashtags | bulk_upload_service.py:156-176 | defines the parsed tags: the tags of the pieces split at the first delimiter, or of the whole text |
| BulkUploadService.TagsOf | bulk_upload_service.py:168-174 | defines the tag loop: each stripped non-empty piece, with `#` put in front when missing |
| BulkUploadService.ParseHashtags | bulk_upload_service.py:156-176 | the loops compute exactly the tags of the pieces split at the first delimiter |
| BulkUploadService.TagsOfShape | bulk_upload_service.py:168-174 | every tag is non-empty and starts with `#`; a piece that already started with `#` is kept unchanged; each tag comes from one piece; there are no more tags than pieces |
| BulkUploadService.HashtagsWellFormed | bulk_upload_service.py:156-176 | every parsed tag is non-empty and starts with `#`; text without a delimiter gives the tag of the whole text |
| BulkUploadService.HashtagsSplitAt | bulk_upload_service.py:161-166 | the pieces split at the chosen delimiter join back to the input, and no tag contains that delimiter |
| BulkUploadService.ColumnValueFirst | bulk_upload_service.py:93-96 | a column value exists iff some key, lower-cased and stripped, equals the field, and it is the cell of the first such key |
| BulkUploadService.FindColumn | bulk_upload_service.py:93-96 | the inner key loop returns that first matching cell or None |
| BulkUploadService.FindContent | bulk_upload_service.py:91-98 | the content loop: a matching column replaces the stripped content, and a non-empty content stops the search |
| BulkUploadService.ContentFrom | bulk_upload_service.py:90-98 | defines the content search: a matching column replaces the content with its stripped cell, and a non-empty content ends the search |
| BulkUploadService.HashtagsFrom | bulk_upload_service.py:123-134 | defines the hashtag search: the first field whose meaningful cell gives a tag decides |
| BulkUploadService.PostDataOf | bulk_upload_service.py:83-141 | defines what a row gives: None without meaningful content, otherwise the content, the platforms (all three by default), the tags and the row number |
| BulkUploadService.CanonicalPlatforms | bulk_upload_service.py:111-114 | the standardised names keep only canonical platforms |
| BulkUploadService.PlatformPick | bulk_upload_service.py:108-114 | a platform cell gives only canonical platforms |
| BulkUploadService.PlatformsFrom | bulk_upload_service.py:104-117 | the platform search yields only canonical platforms |
| BulkUploadService.CellPlatforms | bulk_upload_service.py:106-115 | one platform cell is parsed as PlatformPick says |
| BulkUploadService.FindPlatforms | bulk_upload_service.py:104-117 | the platform loop stops at the first field that yields a platform |
| BulkUploadService.CellHashtags | bulk_upload_service.py:127-132 | one hashtag cell gives its tags unless it is blank, `nan` or `none` |
| BulkUploadService.FindHashtags | bulk_upload_service.py:124-134 | the hashtag loop stops at the first field that yields a tag |
| BulkUploadService.ExtractPostData | bulk_upload_service.py:83-141 | the method computes PostDataOf: the content, platform and hashtag loops followed by the meaningful-content check and the all-platforms default |
| BulkUploadService.ContentFromShape | bulk_upload_service.py:95 | the content found is always stripped |
| BulkUploadService.HashtagsFromShape | bulk_upload_service.py:124-134 | every tag a row yields starts with `#` |
| BulkUploadService.PostDataWellFormed | bulk_upload_service.py:83-141 | a post from a row has stripped, non-empty, meaningful content, a non-empty list of canonical platforms, tags starting with `#`, and its row number |
| BulkUploadService.PostDataDefaultPlatforms | bulk_upload_service.py:103-121 | a post's platforms are those of the first platform field that names a canonical platform, and all three when none does (no column, a blank, `nan` or `none` cell, or only unknown names) |
| BulkUploadService.NoPlatformColumnDefault | bulk_upload_service.py:119-121 | a row with no platform column goes to all three platforms |
| BulkUploadService.PostDataNone | bulk_upload_service.py:100-101 | a row gives no post exactly when no content field gives a value or the content is `''`, `nan` or `none` in any case |
| BulkUploadService.NoContentColumnSkipped | bulk_upload_service.py:90-101 | a row without a content column gives no post |
| BulkUploadService.ParseRows | bulk_upload_service.py:50-54 | the row loop keeps the posts of the rows that give one, numbers rows from 1, and keeps their order |
| BulkUploadService.ParsedRows | bulk_upload_service.py:50-54 | defines the row loop: rows numbered from 1, the posts of the rows that give one, in order |
| BulkUploadService.ParsedRowsOrdered | bulk_upload_service.py:50-54 | parsed posts are no more than the rows, their row numbers lie in 1..rows and rise strictly |
| BulkUploadService.DailyTimes | bulk_upload_service.py:247 | the user's daily times when set, else the default; never empty |
| BulkUploadService.ParseSlot | bulk_upload_service.py:256-259 | a parsed slot has hour 0..23 and minute 0..59; `replace` raises otherwise |
| BulkUploadService.ScheduledTime | bulk_upload_service.py:252-272 | defines item i's time: daily slot `i mod n` on day `start + i div n`, None when the slot does not parse; immediate `start + 2i` minutes; otherwise `start + i` hours |
| BulkUploadService.DailySlotTime | bulk_upload_service.py:256-264 | one daily step gives item i's slot `i mod n` on its round's date, and moves the date on by a day when a round ends |
| BulkUploadService.DailyStepTime | bulk_upload_service.py:259-264 | the slot set on the current date equals the formula time, and the date advances exactly at the end of a round |
| BulkUploadService.CreateScheduledPosts | bulk_upload_service.py:239-289 | a missing user raises before any post is made. Otherwise post j is the j-th row's post at ScheduledTime(j), in order, and the batch either completes or stops at the first daily time that does not parse; that error happens only for daily batches |
| BulkUploadService.NonDailySpacing | bulk_upload_service.py:266-272 | immediate item i is at `start + 2i` minutes; any other non-daily type puts it at `start + i` hours |
| BulkUploadService.DailySlotOfItem | bulk_upload_service.py:254-264 | daily item i lands on day `start + i div n`, at slot `i mod n`, with seconds zeroed |
| BulkUploadService.DailyNextRound | bulk_upload_service.py:261-264 | item `i + n` takes item i's slot exactly one day later, so all slots of a day are used first |
| BulkUploadService.DailyDaysNondecreasing | bulk_upload_service.py:261-264 | the day never goes backwards along the batch |
| BulkUploadService.ParseWholeHour | bulk_upload_service.py:257 | `HH:00` parses to hour HH, minute 0 |
| BulkUploadService.DefaultSlotsParse | bulk_upload_service.py:247 | the defaults `09:00` and `18:00` parse to (9, 0) and (18, 0) |
| BulkUploadService.TwoSlotItem | bulk_upload_service.py:254-264 | with slots 09:00 and 18:00, item i is on day `i div 2`, at 09:00 for even i and 18:00 for odd i |
| BulkUploadService.DefaultDailySchedule | bulk_upload_service.py:247-264 | with the default slots and a daily batch, item i is on day `i div 2`, at 09:00 for even i and 18:00 for odd i |
| BulkUploadService.ProcessBulkUpload | bulk_upload_service.py:178-232 | no parsed rows raises "No valid posts found" without a record. Success gives `completed`, `processed = total = len(posts_data)`. A failure after the record exists leaves it `failed` with 0 processed and re-raises: the missing-user error with no posts, or the bad-time error with the posts made before it. The record's fields come from the arguments and defaults |
| BulkUploadService.AccountMapKeys | bulk_upload_service.py:357 | a platform has an account iff some active account is for it |
| BulkUploadService.AccountMapLast | bulk_upload_service.py:357 | a platform maps to the last account for it |
| BulkUploadService.AccountMap | bulk_upload_service.py:357 | defines `{acc.platform: acc for acc in accounts}` |
| BulkUploadService.ResultsOf | bulk_upload_service.py:359-395 | defines `posting_results`: per target, the no-account failure, the posted reply, the reply's error or the raised message |
| BulkUploadService.SinglePostStatus | bulk_upload_service.py:397-404 | defines the status: posted when all targets succeeded, partial when some did, failed when none did |
| BulkUploadService.ResultsCoverTargets | bulk_upload_service.py:359-365 | there is one result per target platform; a target without an account gets `No connected <platform> account` |
| BulkUploadService.CallsOnlyConnected | bulk_upload_service.py:359-376 | the publisher is called only for targets with an account, with that account's token, the post's content and media; every target is called when all have accounts |
| BulkUploadService.SuccessCountMeaning | bulk_upload_service.py:378-384 | the success count reaches the number of targets iff all succeeded, and is 0 iff none did |
| BulkUploadService.SinglePostStatusRules | bulk_upload_service.py:400-404 | posted iff there are targets and all succeeded; partial iff some but not all succeeded; failed iff none succeeded |
| BulkUploadService.ServicePost.constructor | models.py:55 | a new post is `scheduled`, with no results and no `posted_at` |
| BulkUploadService.ProcessSinglePost | bulk_upload_service.py:341-406 | the results, status and publisher calls are those of the pass, and `posted_at` is set only when some platform succeeded |
| SchedulerSpec.SchedulePostSpec | scheduler.py:8-38 | false for a missing post or an add_job that raises, with nothing changed. Otherwise a date job at `scheduled_for` under the post's job id, replacing one of the same id, and that id recorded on the post |
| SchedulerSpec.ScheduleRetrySpec | scheduler.py:117-133 | defines schedule_retry: nothing for a missing item or one without `next_attempt`, else a retry job at `next_attempt` |
| SchedulerSpec.PublishPrefix | scheduler.py:61-89 | each platform takes one new queue id; the success count grows by at most one per platform |
| SchedulerSpec.PublishStep | scheduler.py:61-89 | defines one platform of the loop: its settled item under the next queue id, the count and post id on success, a retry job when the item has a next attempt |
| SchedulerSpec.FinishPublish | scheduler.py:91-104 | defines the end of publish_post: the status from the success count, `posted_at` or the error, and the post ids when any were collected |
| SchedulerSpec.PublishSpec | scheduler.py:40-104 | defines publish_post: nothing unless the post exists and is scheduled; then `posting`, the loop over its platforms, and the end |
| SchedulerSpec.PublishPrefixQueue | scheduler.py:61-89 | the pass's queue is the original with one settled item per platform added |
| SchedulerSpec.PublishPrefixJobs | scheduler.py:84-87 | the pass's job store is the original with a retry job for each failed platform |
| SchedulerSpec.PublishPrefixCount | scheduler.py:74-75 | the pass counts the successful platforms |
| SchedulerSpec.PassQueueLayout | scheduler.py:61-89 | existing items are kept, and ids `first..first+n-1` hold the j-th platform's item: completed on success, else failed after one attempt with its next attempt 30 minutes on |
| SchedulerSpec.PassJobsLayout | scheduler.py:84-87 | the jobs are the existing ones plus exactly one retry job per failed platform, due at `now + 30` minutes |
| SchedulerSpec.PublishPrefixResultsStep | scheduler.py:74-76 | a success records that platform's post id, and a failure records nothing |
| SchedulerSpec.PublishPrefixResultKeys | scheduler.py:59-76 | the collected post ids are exactly those of the platforms that succeeded |
| SchedulerSpec.PublishPrefixResultValues | scheduler.py:76 | each collected post id is that of its platform's last success |
| SchedulerSpec.SuccessesMeaning | scheduler.py:74-75 | the count is n iff all n succeeded, and 0 iff none did |
| SchedulerSpec.PublishStatusRules | scheduler.py:91-100 | posted iff all platforms succeeded, partial iff some but not all did, failed with the error message iff there were platforms and none succeeded; `posted_at` is set iff posted or partial; nothing else of the post changes |
| SchedulerSpec.PublishPostIds | scheduler.py:102-104 | the platform post ids become those of the successful platforms, each from its last success; with no success the old ids are kept |
| SchedulerSpec.PublishFrame | scheduler.py:53-89 | apart from the post itself, publish_post changes only the queue (new items), the jobs (retries) and the queue-id counter; other posts and the uploads are untouched |
| SchedulerSpec.RepeatPublishIgnored | scheduler.py:44-51 | a late or repeated firing, or a firing for a missing or non-scheduled post, changes nothing |
| SchedulerSpec.CompletedCountRule | scheduler.py:169-172 | the completed count equals the total iff every item of the post is completed, and is positive iff some is |
| SchedulerSpec.AggregateRules | scheduler.py:168-177 | after a successful retry: posted when every item is completed; partial when the post had failed and some item is completed; otherwise nothing changes; only status and `posted_at` change |
| SchedulerSpec.RetrySuccessRules | scheduler.py:159-177 | a successful retry completes only this item, after one more attempt, and adds only this platform's post id; then the status derivation runs |
| SchedulerSpec.RetryFailureRules | scheduler.py:179-186 | a failed retry marks this item failed with the error after one more attempt, and only while attempts remain schedules a retry one hour on; posts are untouched |
| SchedulerSpec.RetryGuards | scheduler.py:144-150 | retry_post does nothing for a missing queue item or post |
| SchedulerSpec.Completing | scheduler.py:152-166 | defines the success branch of retry_post before the status derivation |
| SchedulerSpec.Aggregate | scheduler.py:168-177 | defines the status derivation from the counts of the post's items and its completed items |
| SchedulerSpec.RetrySpec | scheduler.py:140-188 | defines retry_post: nothing for a missing item or post; otherwise one more attempt, then success or failure |
| SchedulerSpec.FireSpec | scheduler.py:20-27 | defines a due job firing: it leaves the store and its function runs |
| SchedulerSpec.FilterMembers | scheduler.py:216 | the filter keeps exactly the requested platforms that are connected |
| SchedulerSpec.FilterAppend | scheduler.py:216 | the filter keeps request order: it distributes over concatenation |
| SchedulerSpec.Filter | scheduler.py:216 | defines `[p for p in requested if p in connected]` |
| SchedulerSpec.ResolvePlatforms | scheduler.py:210-216 | defines the item's platforms: all connected ones when none are requested, else the filter |
| SchedulerSpec.ResolvePlatformsRules | scheduler.py:210-216 | an empty request gives all connected platforms; otherwise exactly the requested ones that are connected |
| SchedulerSpec.BulkTimeRules | scheduler.py:222-234 | daily gives day `start + i` at exactly 09:00, and raises with no start date; immediate gives `now + 2i` minutes; anything else gives `now + i` hours |
| SchedulerSpec.BulkTime | scheduler.py:222-234 | defines item i's time: 09:00 on `start + i` days (None without a start date); `now + 2i` minutes; `now + i` hours |
| SchedulerSpec.EligibleCount | scheduler.py:218-246 | at most one post per item |
| SchedulerSpec.ScheduledCount | scheduler.py:249-250 | only items that got a post can be scheduled |
| SchedulerSpec.BulkStepSchedules | scheduler.py:236-252 | an eligible item is exactly schedule_post on the state holding its new post, counted by what schedule_post returns |
| SchedulerSpec.BulkStep | scheduler.py:208-256 | defines one item of the loop: counted failed without platforms, time or content; otherwise its post under the next id, scheduled, counted by schedule_post's result |
| SchedulerSpec.BulkSpec | scheduler.py:194-271 | defines process_bulk_upload: nothing for a missing upload, `failed` for a missing user, otherwise the loop and then `completed` |
| SchedulerSpec.BulkPrefixUpload | scheduler.py:218-256 | each item adds exactly one to `processed_posts` (scheduled) or `failed_posts` (all others) |
| SchedulerSpec.BulkPrefixIds | scheduler.py:236-246 | one new post id per item that had platforms, a time and content |
| SchedulerSpec.BulkCounters | scheduler.py:194-271 | processed plus failed grows by the number of items, and processed by the scheduled ones. The upload ends `completed` with `completed_at`. A missing user leaves it `failed` with the error and creates nothing. Queue and other uploads are untouched |
| SchedulerSpec.BulkStepPosts | scheduler.py:218-246 | an ineligible item creates no post; an eligible one adds its post under the next id |
| SchedulerSpec.BulkPrefixPostIds | scheduler.py:236-246 | new posts take fresh ids; existing posts are kept |
| SchedulerSpec.BulkPostCreated | scheduler.py:236-243 | a created post is scheduled, owned by the upload's user, with non-empty connected platforms |
| SchedulerSpec.BulkPrefixNewPosts | scheduler.py:236-246 | every post the loop creates is scheduled, owned by the user, with non-empty connected platforms |
| SchedulerSpec.BulkPrefixJobs | scheduler.py:249-250 | existing jobs are kept; each new job is the publish job of a new post, at its time, with its id recorded on the post |
| SchedulerInvariant.AttemptsBounded | scheduler.py:84-87 | in a valid state no item has more than `max_attempts` = 3 attempts |
| SchedulerInvariant.ValidInitial | models.py:102-108 | the empty database is valid |
| SchedulerInvariant.TakeKeepsValid | scheduler.py:126-133 | taking a fired job out keeps validity; for a retry job its item is pending and has no other retry job |
| SchedulerInvariant.SchedulePostKeepsValid | scheduler.py:8-38 | schedule_post keeps the state valid |
| SchedulerInvariant.PublishKeepsValid | scheduler.py:40-104 | publish_post keeps the state valid |
| SchedulerInvariant.PassValid | scheduler.py:61-89 | a state laid out as the publishing pass leaves it is valid |
| SchedulerInvariant.PublishPartsValid | scheduler.py:61-89 | the pass's items and jobs together satisfy every clause of validity |
| SchedulerInvariant.NewItemsOk | scheduler.py:63-87 | every new item has a fresh id and is settled within one attempt |
| SchedulerInvariant.NewJobsOk | scheduler.py:84-87 | every new retry job is for a failed item with attempts left, due at its next attempt, and is the only one for that item |
| SchedulerInvariant.RetryKeepsValid | scheduler.py:140-192 | a retry fired by the only job of a pending item keeps the state valid, so attempts stay within the bound |
| SchedulerInvariant.FireKeepsValid | scheduler.py:20-27 | running any due job keeps the state valid |
| SchedulerInvariant.BulkKeepsValid | scheduler.py:194-271 | process_bulk_upload keeps the state valid |
| Scheduler.App.constructor | models.py:102-108 | an empty post table, queue and job store, which is valid |
| Scheduler.App.SchedulePost | scheduler.py:8-38 | the new state and result are SchedulePostSpec's, and validity is kept |
| Scheduler.App.ScheduleRetry | scheduler.py:117-138 | a retry job at the item's `next_attempt` if it has one, else nothing |
| Scheduler.App.PublishPost | scheduler.py:40-104 | the new state is PublishSpec's, and validity is kept |
| Scheduler.App.PublishPlatform | scheduler.py:61-89 | one platform's step of the loop is PublishStep |
| Scheduler.App.SettlePost | scheduler.py:91-104 | the final status, `posted_at`, error and post ids are FinishPublish's |
| Scheduler.App.RetryPost | scheduler.py:140-188 | the new state is RetrySpec's |
| Scheduler.App.CompleteRetry | scheduler.py:152-166 | the item is completed after one more attempt, and the platform's post id is added |
| Scheduler.App.SettleRetriedPost | scheduler.py:168-177 | the status derivation is Aggregate's |
| Scheduler.App.FailRetry | scheduler.py:179-186 | the failure branch of RetrySpec |
| Scheduler.App.Fire | scheduler.py:20-27 | a due job leaves the job store and its function runs, as FireSpec says, and validity is kept |
| Scheduler.App.ProcessBulkUpload | scheduler.py:194-271 | the new state is BulkSpec's, and validity is kept |
| Scheduler.App.BulkItem | scheduler.py:208-256 | one item of the loop is BulkStep |

## Left out

- CSV sniffing, `csv.DictReader` and pandas Excel reading (bulk_upload_service.py:36-81) are foreign library calls. The model starts from the rows they produce, as (column name, cell text) pairs, and models only the loop over those rows. This leaves out rows `csv.DictReader` can give:
  - for a row with extra cells, a `None` key: the key loop raises on it, and the row is skipped by the per-row `except … continue` (bulk_upload_service.py:51-57);
  - for a short row, `None` values, which `str()` reads as `"None"`.

  The per-row `except` itself is not modelled, because no modelled step of a row raises.
- Saving and removing the temporary file (bulk_upload_service.py:184-193, 234-237): file-system I/O.
- The polling thread of `SchedulingService` (`start`, `stop`, `_run_scheduler`, bulk_upload_service.py:295-323): background concurrency.
- `_process_due_posts` is left out: the database query and its limit of ten. Its `except` branch sets a post to `failed`; the model's publisher outcomes already cover a raised publisher error per platform.
- The background scheduler itself: job firing order, misfires and persistence. The job store is a map from job id to (run time, function), and `Fire` runs one due job.
- Wall-clock reads become one `now` parameter per call. Where the Python reads the clock several times in one call (`completed_at`, `next_attempt`, job stamps), the model uses the same instant. Job-id stamps are this `now` rather than whole seconds.
- Timezones: `datetime.now` and `datetime.utcnow` are not told apart.
- Text.ParseInt: Python's `int()` also accepts `_` between digits and non-ASCII decimal digits. The model refuses both.
- Text is Python `str` restricted to what the code uses:
  - `lower()` folds ASCII letters only;
  - `strip()` knows Latin-1 whitespace only;
  - `str(cell)` of a spreadsheet value is taken as already done.
- SQLAlchemy sessions, commits and JSON column helpers are left out. At every return the model's state is what the code has committed or still holds in its objects at that point.
  - Scheduler.App.RetryPost: the committed `processing` state between the attempt count and the reply is not observable in the model.
  - The intermediate `posting` status is observable only inside the methods.
- `publish_post`'s `except` branch (scheduler.py:109-115) is left out: it sets a post `failed` with the exception text. No modelled step raises, because the publisher catches its own errors.
- `retry_post`'s `except` branch (scheduler.py:191-192) only logs. It is left out for the same reason.
- `schedule_retry`'s `except` branch (scheduler.py:137-138) is left out. The model assumes that `add_job` for a retry does not raise. `schedule_post`'s `add_job` failure is modelled, by `accepted`.
- The `except` of `process_bulk_upload`'s item loop (scheduler.py:254-256) is modelled for the errors that can occur there. A missing `content`, or a daily batch without a start date, counts the item failed, and no post is created.
- The outer `except` (scheduler.py:265-271) is modelled only for a missing user.
- BulkUploadService.CreateScheduledPosts: an invalid daily time stops the batch, and the posts made before it are kept. That is what the outer `except` commits. The error text `BadTimeError` stands for the message of Python's ValueError, which is not modelled. A missing user (bulk_upload_service.py:244-247) is modelled as `userTimes == None` and raises before any post is made.
- The service's model assumes the schema that `bulk_upload_service.py` writes, not the one `models.py` declares. Against `models.py`, the constructor calls and attribute reads named under "Field names" raise, and the model does not capture those failures.
- BulkUploadService.ProcessBulkUpload: exceptions raised by the parsing libraries are not modelled.
- Publishing through the platform HTTP clients and OAuth tokens is left out. Each call is an outcome parameter: a reply, or a raised error.

