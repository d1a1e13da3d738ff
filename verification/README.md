# Message-cloning pipeline of `Bot`, modelled in Dafny

The `Bot` class clones the history of one Telegram chat into another. Two
asyncio tasks run side by side:

- The fetch/dispatch task (`_send_messages`) refills the pending queue
  `messages_queue` from the origin chat, one page at a time, starting after
  the checkpoint `last_processed_msg`. It then passes each message through a
  token bucket and decides what to do with it. A service message is
  skipped. Media that the origin chat or the message protects from
  forwarding is downloaded and put on `download_queue`. Everything else is
  sent to the destination as a copy.
- The upload task (`_upload_downloads`) drains `download_queue` and uploads
  each downloaded file with the original message's metadata. It runs its
  first pass while the dispatch task awaits the newest message id, so it
  starts out asleep on an empty queue and then waiting in `get()`.

An expired file reference in either task empties both queues.
`finished_queue` records that the newest message has been fetched, and
`finished_dequeue` that the dispatch loop has ended. Each task stops on its
own empty queue plus its flag.

The model keeps that state in a class, `Cloner.Bot`. Each of its step
methods runs one task from one real suspension (an `await` that can let the
other task in) to the next, and its postcondition states the complete new
state. Two program counters record where each task is suspended:

- dispatch: `Fetching` (a refetch from an offset is in flight), `Pausing`
  (asleep after a flood-wait or a refused token), `Sending` (the remote call
  for a message is in flight), `Blocked` (in `get()` on an empty pending
  queue), `Done` or `Aborted`;
- upload: `Waiting` (in `get()` on the download queue), `Uploading` or
  `Finished`.

The steps are `Fetched` (a page arrives), `Woken` (a sleep ends), `Replied`
(a copy or download returns), `Take` (`get()` hands the upload task an
item) and `Uploaded` (an upload returns). Code that has no `await` runs
inside the step that reaches it: a service message is skipped with no
suspension, the test at the top of each loop follows its `finally` at
once, and `consume()` and `get()` on a non-empty queue do not suspend. So
after a remote call returns, the dispatch task runs on to its next remote
call, refused token, refetch or loop end within the same step
(`Cloner.Advance`, implemented by `Bot.Proceed`), and after an upload
returns, the upload task takes its next item, finishes or waits. Each call
to `consume()` is an input: `grants` is how many times in a row it succeeds
before it refuses.

`Run` is the scheduler: it interleaves the two tasks. The object invariant
`Valid()` ties the flags to the program counters:

- `finished_dequeue` holds exactly when dispatch is `Done`;
- when dispatch is `Done`, the pending queue is empty and `finished_queue`
  is set;
- a refetch is only in flight with an empty pending queue and
  `finished_queue` clear; a blocked dispatch task has an empty queue;
- when upload is `Finished`, dispatch is `Done` and the download queue is
  empty;
- `finished_queue` can only be set when the newest id is known.

The rest of the model is pure:

- the classification (`Dispatch.Classify`);
- the download-path naming (`Naming.DownloadPath`), with a proof that
  different message ids never share a path, and pathlib's `with_suffix`
  (`Naming.WithSuffix`), which the renaming of a temporary download uses;
- the prefix of a page that one fetch appends (`Cloner.ThroughLast`);
- the text-versus-file branch of `_send_copy_message`
  (`Messages.SendCopy`).

The outside world becomes values. Every remote call ends in an `Outcome`:
`Ok`, `ReferenceExpired`, `OtherFailure` or `FloodWait`. The client is
built with `flood_sleep_threshold=11` (main.py:72): it sleeps through a
shorter flood-wait itself, so every flood-wait the model sees is longer
than `FloodSleepThreshold`. A fetch receives the page that `iter_messages`
yields, together with how that page ended (ran out, flood-wait, or any
other error); with `reverse=True` and an `offset_id`, that page holds only
messages newer than the offset (`Cloner.NewerThan`). The extension found in
a downloaded file is a string. `Scenarios` drives concrete interleavings
and states where each one ends.

## Consequences of the code as written

The model follows the code; these consequences of it are proved as scenarios.

- The checkpoint is not monotonic. The upload task writes the id of the
  item it uploaded, and that id can be older than one the dispatch task has
  already written (`Scenarios.CheckpointMovesBack`).
- Recovery does not always refetch. The flush leaves `finished_queue`
  alone. When the newest message has already been fetched, the dispatch
  loop ends right after the flush, and the flushed messages are never
  delivered (`Scenarios.ExpiryAfterLastFetch`).
- The upload task does not keep polling. After its five-second sleep on an
  empty queue it blocks in `get()` and never tests `finished_dequeue` again.
  It takes that path on its very first pass, before anything is fetched. A
  clone that defers no media therefore never finishes
  (`Scenarios.TextOnlyCloneNeverFinishes`, and in general `Cloner.Bot.Run`).
  A clone with downloads finishes only when the dispatch task has already
  finished when the upload task's last upload returns; when that upload
  returns first, the upload task waits for ever
  (`Scenarios.UploadOutlivesDispatch`).
- The dispatch task can block for ever too. After a fetch it goes to the
  token gate and `get()` without testing its queue again, so a fetch that
  yields nothing leaves it waiting on an empty queue that only it fills:
  the clone of an empty chat (`Scenarios.EmptyChatBlocksDispatch`), or a
  flood-wait before the first message (`Scenarios.EmptyPageBlocksDispatch`).
  An expired reference in the upload task, while the dispatch task sleeps
  on a refused token, empties the pending queue under it with the same
  result (`Scenarios.UploadExpiryStrandsDispatch`). With a token to spare,
  the dispatch task has already taken the next message, and only the rest
  is lost (`Scenarios.UploadExpiryDuringCopy`).
- The checkpoint written after an expired reference is the id of the
  message whose call expired. The refetch asks for messages newer than that
  id, so that message is never fetched again. Downloads flushed from the
  download queue whose ids are not above the checkpoint are lost as well,
  even while `finished_queue` is clear. This happens, for example, to a video
  queued while the upload task is busy with an earlier one
  (`Scenarios.ExpiredMessagesLost`).
- A fetch error other than a flood-wait is not caught: the call at
  main.py:234 lies outside the `try` at main.py:246, so it ends the dispatch
  task, with no checkpoint written (`Scenarios.FetchErrorEndsDispatch`).

## Model

| member | source | states |
|---|---|---|
| `Messages.SendCopy` | main.py:157-189 | A message without a file is sent as a plain copy. Otherwise it is a file send with the message's name and caption: from the local file when a path is given, by reference when none is. The sent record always carries the original message. |
| `Naming.Decimal` | main.py:124-126 | The id as an f-string prints it: non-empty, made of digits and '-' only, with a leading '-' exactly for negative ids, so never the separator '_' or a '.'. |
| `Naming.DecimalInjective` | main.py:124-126 | Different ids print differently. |
| `Naming.DownloadTarget` | main.py:121-126 | The pre-download path lies inside the download directory. With a file name, it ends with that name. Without one, no character after the directory is a '.' or a '/'. |
| `Naming.LastIndex` | main.py:140 | `rfind`, which pathlib uses to split off the name and the suffix: the result is -1 or a position holding the character, and no later position holds it. |
| `Naming.Name` | main.py:140 | The final component of a path is a suffix of it without any '/', preceded by a '/' when it is not the whole path. |
| `Naming.Stem` | main.py:140 | The name without its suffix is a prefix of the name. Something is cut exactly when the last '.' is neither the first nor the last character, and then the cut is at that '.'. A name without a '.' is kept whole. |
| `Naming.WithSuffix` | main.py:138-142 | `with_suffix(f".{extension}")` ends the path with '.' and the extension, and what comes before that is a prefix of the old path. |
| `Naming.WithSuffixCut` | main.py:138-142 | The prefix `with_suffix` keeps is the old path up to the last '.' of its final component, when that '.' is neither the first nor the last character of the component, and the whole old path otherwise. What it drops is nothing, or a part of the final component that starts with '.'. |
| `Naming.WithSuffixReplaces` | main.py:138-142 | An existing suffix is replaced: `downloads/a.txt` renamed with `jpg` becomes `downloads/a.jpg`. |
| `Naming.WithSuffixAppends` | main.py:138-142 | On a path whose final component has no '.', `with_suffix` appends '.' and the extension. |
| `Naming.TempTargetAppends` | main.py:126-142 | Renaming the temporary target `{id}_temp` with `with_suffix` appends the extension. |
| `Naming.DownloadPath` | main.py:121-142 | The queued path lies under `downloads/`. With a file name, the rest is `message_{id}_{filename}`. Without one (None or an empty name), it is `{id}_temp.{ext}`. |
| `Naming.DownloadPathRenames` | main.py:121-142 | The queued path is the download target when there is a file name, and otherwise the target renamed by `with_suffix`. |
| `Naming.DownloadPathInjective` | main.py:117-126 | Two messages with different ids never get the same download path, whatever their file names and extensions. |
| `Dispatch.Classify` | main.py:321-342 | A service message is skipped. A message is deferred exactly when it is not a service message, it has media, and the origin chat or the message restricts forwarding. It is copied in every other case, including a text-only message in a protected chat. |
| `Cloner.ThroughLast` | main.py:91-105 | A fetch appends a prefix of the page in arrival order, and the whole page when the page holds no message with the newest id. |
| `Cloner.ThroughLastStopsAtLast` | main.py:99-105 | What a fetch appends ends with a newest-id message exactly when the page holds one, and no earlier message it appends has the newest id. |
| `Cloner.ThroughLastNewerThan` | main.py:91-105 | Everything a fetch appends is newer than the offset, when the page is. |
| `Cloner.ThroughLastAt` | main.py:99-105 | When the first newest-id message of a page sits at position i, the fetch appends exactly the page through i. |
| `Cloner.SuffixNewerThan` | main.py:244 | Taking messages off the front of a queue newer than an offset leaves a queue newer than it. |
| `Cloner.AdvanceStops` | main.py:227-261 | Run on from the top of the dispatch loop or its token gate, up to the next suspension: it leaves a suffix of the pending queue. Every message it drops is skipped, except the one whose call is then in flight, which is the next message and is not skipped. It skips no more messages than `consume()` grants, and the checkpoint is the last skipped id, or unchanged. It settles in exactly one way. It ends the loop only with an empty queue and `finished_queue` set, and refetches from the checkpoint only with an empty queue and the flag clear. It sleeps on a refused token only once every grant is spent, and blocks in `get()` exactly when it starts at the gate with an empty queue and a token. |
| `Cloner.AdvanceDefersNothing` | main.py:240-261 | When no pending message has protected media, none is left pending, or in flight, after the dispatch task runs on. |
| `Cloner.Bot.Start` | main.py:43-50 | A fresh pipeline has empty queues, both flags false, nothing delivered, and the checkpoint equal to the caller's offset id (set at main.py:224). The dispatch task has started the first fetch from that offset. The upload task has already run its first pass during the await at main.py:225: it waits in `get()` (main.py:279-284). |
| `Cloner.Bot.Flush` | main.py:254-257 | Both the pending queue and the download queue become empty. Nothing else changes. |
| `Cloner.Bot.Proceed` | main.py:227-261 | The dispatch loop, run from its top or its token gate until it suspends, leaves exactly the program counter, pending queue and checkpoint that `Advance` gives. The pending queue only loses messages from its front, and `finished_dequeue` is set exactly when the loop ends. |
| `Cloner.Bot.FetchPage` | main.py:81-109 | The pending queue becomes exactly `ThroughLast(page)`. `finished_queue` becomes set exactly when the page reaches the newest id. A flood-wait that ends the page early keeps what was appended, sleeps its seconds and puts the task to sleep; another error keeps it too and ends the dispatch task. Otherwise the task is where it was. Nothing else changes. |
| `Cloner.Bot.Fetched` | main.py:229-244 | After a fetch, the dispatch task goes to the token gate without testing the queue again. Everything queued is newer than the fetch's offset. A page cut short by an error leaves the page queued and the checkpoint alone, and the task asleep (flood-wait) or ended (other error). Otherwise the task runs on over what the fetch appended, from the gate, as `Advance` says. The download queue, the deliveries and the upload task are untouched. |
| `Cloner.Bot.Woken` | main.py:240-244 | After a flood-wait or token sleep, the dispatch task polls the bucket again and runs on from the gate, as `Advance` says. Nothing else changes. |
| `Cloner.Bot.Replied` | main.py:246-261 | When the call for the message in flight returns, a copy that succeeds is delivered once, and deferred media that downloads appends exactly one (message, `DownloadPath`) item. An expired reference empties both queues. Any other error on a copy or download ends the dispatch task. In every case the checkpoint becomes the message's id, and unless the task ended, it runs on from the top of its loop, as `Advance` says. |
| `Cloner.Bot.Take` | main.py:284 | The waiting upload task receives the head of the download queue, which loses it. |
| `Cloner.Bot.Uploaded` | main.py:277-304 | When an upload returns, the checkpoint becomes its message id. A success is delivered from the local file. An expired reference empties both queues. Any other error, flood-waits included, drops the item. The task then goes on with the next download if there is one. Otherwise it finishes if `finished_dequeue` is set, and waits in `get()` if not. |
| `Cloner.Bot.Run` | main.py:366-381 | Interleaving the two tasks preserves the invariant, only ever appends deliveries, and never clears `finished_queue`. When both tasks have ended, both queues are empty and both flags are set. A dispatch task blocked in `get()` stays blocked. An upload task waiting on an empty download queue, while nothing pending, in flight or fetched has protected media, is still waiting at the end. Once dispatch is done with the upload task waiting on an empty queue, no step runs. |
| `Scenarios.CloneThreeMessages` | main.py:192-307 | A service message, a text message and a protected video (ids 1-3, newest id 3) end with two deliveries: a copy of 2, then an upload of 3 from `downloads/message_3_clip.mp4`. The checkpoint ends at 3, both queues are empty, and both tasks finish. |
| `Scenarios.UploadOutlivesDispatch` | main.py:277-304 | A protected video 1 and a text 2 (newest id 2): the upload of 1 returns before the copy of 2, so the upload task, finding its queue empty and `finished_dequeue` clear, waits in `get()`. Both are delivered, the dispatch task finishes, and the upload task never does. |
| `Scenarios.CheckpointMovesBack` | main.py:259-260 | The checkpoint goes from 6 back to 5 when a deferred photo is uploaded after a later text was copied (the upload's write is main.py:303). |
| `Scenarios.ExpiryAfterLastFetch` | main.py:229-257 | An expired reference on a photo copied by reference, after the newest message was fetched, makes dispatch finish without a refetch. Nothing is delivered. |
| `Scenarios.TextOnlyCloneNeverFinishes` | main.py:279-284 | In a clone of one text message, the upload task waits in `get()` from the start, and dispatch finishes with no download queued. No upload step can run, and the upload task never finishes. |
| `Scenarios.FloodWaitThenRefetch` | main.py:99-109 | A page cut by a 30-second flood-wait keeps its message and leaves `finished_queue` clear. After the sleep, a refused token and a second sleep, the text is copied, and the next refetch uses the checkpoint 8 as offset and reaches the newest id. |
| `Scenarios.EmptyPageBlocksDispatch` | main.py:229-244 | A flood-wait before the first message of a page: after the sleep, the dispatch task takes a token and waits in `get()` on its empty queue. |
| `Scenarios.EmptyChatBlocksDispatch` | main.py:229-244 | With no newest id and an empty first page, the dispatch task waits in `get()` on its empty queue. |
| `Scenarios.UploadExpiryStrandsDispatch` | main.py:240-297 | A protected video 1 and texts 2 and 3: the dispatch task queues 1 and sleeps on a refused token. The upload of 1 reports an expired reference, which empties the pending queue. On waking, the dispatch task waits in `get()`. Nothing is delivered, and neither task can run again. |
| `Scenarios.UploadExpiryDuringCopy` | main.py:240-297 | The same expiry while the copy of text 2 is in flight: only text 3 is flushed, text 2 is delivered, and the dispatch task finishes while the upload task waits. |
| `Scenarios.ExpiredMessagesLost` | main.py:229-304 | A 30-second flood-wait cuts the first page before the newest id 4. Video 1 is downloaded and taken by the upload task. Video 2 is downloaded and queued, and then the copy of photo 3 by reference expires. The refetch uses offset 3. Text 4 is copied and dispatch finishes; the upload of 1 then returns and the upload task finishes too. Only 4 and 1 are delivered (video 2 and photo 3 are lost), and the checkpoint ends at 1. |
| `Scenarios.FetchErrorEndsDispatch` | main.py:91-109 | A fetch that fails after yielding text 1 keeps it queued, ends the dispatch task, and leaves the checkpoint at 0 (main.py:234). |

## Left out

- Telethon I/O is not modelled: `iter_messages`, `send_message`,
  `send_file`, `download_media`, `get_entity`, `start` and `disconnect`.
  Their results become `Outcome` values and pages chosen by the caller.
- `get_last_message` is represented by its answer: the constructor's newest
  id, None for an empty chat. With None, `finished_queue` is never set.
- The `TokenBucket` internals are not modelled: `bot/rate_limit.py` is not
  part of this model. Its answers are an input to each dispatch step:
  `grants`, the number of calls to `consume()` in a row that succeed
  before one refuses.
- The helpers from `bot.utils` and `bpt.FastTelethon` are not part of this
  model: `get_file_name`, `get_file_extension`, `empty_queue`,
  `create_progress_callback`, `download_file` and `upload_file`. The file
  name is a field of the message, and the extension is a given string. The
  progress callback on protected sends is cosmetic and is left out.
- pathlib details are not modelled: the normalisation of a file name that
  contains path separators or of a path ending in '/', `mkdir` and
  `os.rename`. Only the resulting path string is kept.
- Naming.WithSuffix: does not model the `ValueError` that `with_suffix`
  raises for an empty extension, an extension containing '/', or an empty
  name. The extension comes from `get_file_extension`, which is not part of
  this model.
- Suspensions inside Telethon's calls are not modelled separately: each
  remote call is one suspension, whose end is one step. The durations of
  sleeps, clocks, uvloop, logging and prints are not modelled.
- A task waiting in `get()` on an empty queue is a program counter
  (`Blocked`, `Waiting`) with no step that can run until an item arrives,
  not a modelled timeout.
- The client's automatic sleep through flood-waits of up to 11 seconds is
  not modelled as a step. A flood-wait in the model is one the client
  raised, longer than `FloodSleepThreshold`; that is a precondition of the
  steps (`Raisable`, `RaisableEnd`).
- An uncaught error in the dispatch task ends that task (`Aborted`). What
  `asyncio.gather`, `asyncio.run` and the process do afterwards (the error
  propagates, and the upload task is cancelled when the loop closes) is
  not modelled.
- `clone_messages` entity resolution is not modelled; it is remote I/O, and
  its failure path raises a string. `main()` only holds fixed ids and is
  left out.
- `offset_date`, the destination chat and the reply-to topic are passed
  through unchanged by the source. The model does not record them in a
  delivery.
- `task_done()` is not modelled, because nothing joins the queues.
- Cloner.Bot.FetchPage: assumes the flood handler at main.py:107-109
  completes. The message it prints reads `e.value`, which Telethon's
  `FloodWaitError` is not known to define (it defines `seconds`). If that
  attribute is missing, the handler raises `AttributeError`, which escapes
  `_get_chat_messages` and ends the dispatch task instead of sleeping; that
  run is the one a `Failed` page end gives.
- Cloner.Bot.Fetched: a refetched page is tied to its offset only by
  holding messages newer than it (`NewerThan`). Its ascending order and the
  absence of gaps are not modelled. A page may end, by a flood-wait or
  another error, after any prefix of it; how Telethon splits a page into
  requests, and so where such an error can arrive, is not part of this
  model.
- Cloner.Bot.FetchPage: the service yielding at most `limit` (100) messages per page
  is a precondition, not modelled behaviour.
