/** Concrete runs of the pipeline, each driving a fresh `Bot` through one
    interleaving of its two tasks and stating where it ends. */
module Scenarios {
  import opened Messages
  import opened Naming
  import opened Dispatch
  import opened Cloner

  function Text(id: int): Message {
    Message(id, false, false, false, false, None, "text")
  }

  function Service(id: int): Message {
    Message(id, true, false, false, false, None, "")
  }

  /** A video that restricts forwarding by itself. */
  function ProtectedVideo(id: int, name: string): Message {
    Message(id, false, true, true, true, Some(name), "caption")
  }

  /** A photo without a file name. */
  function Photo(id: int): Message {
    Message(id, false, false, true, true, None, "caption")
  }

  /** A service message, a text message and a protected video, ids 1 to 3,
      cloned from an open chat with 3 as the newest id: the destination gets
      a copy of the text and an upload of the downloaded video, the
      checkpoint ends at 3, both queues are empty and both tasks finish.
      The dispatch task skips the service message and runs on to the end of
      its loop right after queueing the video, so the upload task, woken by
      that item, finds `finished_dequeue` set after its upload. */
  method CloneThreeMessages() returns (delivered: seq<Delivery>, checkpoint: int, queuesEmpty: bool, finished: bool)
    ensures delivered == [PlainCopy(Text(2)), FileSend(ProtectedVideo(3, "clip.mp4"), LocalFile("downloads/message_3_clip.mp4"))]
    ensures checkpoint == 3 && queuesEmpty && finished
  {
    var bot := new Bot.Start(Chat(100, false), 0, Some(3));
    FetchThree(bot);
    CopyAndQueue(bot);
    bot.Take();
    bot.Uploaded(Ok);
    delivered := bot.delivered;
    checkpoint := bot.lastProcessedMsg;
    queuesEmpty := bot.messagesQueue == [] && bot.downloadQueue == [];
    finished := bot.dispatchPc == Done && bot.uploadPc == Finished;
  }

  /** The one page of `CloneThreeMessages` reaches the newest id: the
      service message is skipped and the copy of the text is in flight. */
  method FetchThree(bot: Bot)
    requires bot.Valid() && bot.origin == Chat(100, false) && bot.lastMsgId == Some(3)
    requires bot.messagesQueue == [] && bot.downloadQueue == [] && bot.delivered == []
    requires !bot.finishedQueue && bot.dispatchPc == Fetching(0) && bot.uploadPc == Waiting
    modifies bot
    ensures bot.Valid() && bot.origin == Chat(100, false)
    ensures bot.messagesQueue == [ProtectedVideo(3, "clip.mp4")] && bot.downloadQueue == [] && bot.delivered == []
    ensures bot.finishedQueue && bot.dispatchPc == Sending(Text(2)) && bot.uploadPc == Waiting
  {
    var page := [Service(1), Text(2), ProtectedVideo(3, "clip.mp4")];
    ThroughLastAt(page, 2, Some(3));
    assert page[..3] == page;
    assert Advance(bot.origin, page, true, 0, 2, false) == Settled(Sending(Text(2)), [ProtectedVideo(3, "clip.mp4")], 1);
    var waited := bot.Fetched(page, Exhausted, 2);
  }

  /** The text is copied, the video is queued for download, and the
      dispatch task finishes with the upload task still waiting in `get()`. */
  method CopyAndQueue(bot: Bot)
    requires bot.Valid() && bot.origin == Chat(100, false)
    requires bot.messagesQueue == [ProtectedVideo(3, "clip.mp4")] && bot.downloadQueue == [] && bot.delivered == []
    requires bot.finishedQueue && bot.dispatchPc == Sending(Text(2)) && bot.uploadPc == Waiting
    modifies bot
    ensures bot.Valid() && bot.messagesQueue == [] && bot.delivered == [PlainCopy(Text(2))]
    ensures bot.downloadQueue == [DownloadItem(ProtectedVideo(3, "clip.mp4"), "downloads/message_3_clip.mp4")]
    ensures bot.dispatchPc == Done && bot.finishedDequeue && bot.uploadPc == Waiting
  {
    bot.Replied(Ok, "", 1);
    assert bot.dispatchPc == Sending(ProtectedVideo(3, "clip.mp4")) && bot.messagesQueue == [];
    ClipPath();
    bot.Replied(Ok, "", 1);
  }

  /** The path the video of `CloneThreeMessages` is queued under. */
  lemma ClipPath()
    ensures DownloadPath(3, Some("clip.mp4"), "") == "downloads/message_3_clip.mp4"
  {
    assert Decimal(3) == "3";
  }

  /** A protected video and then a text, newest id 2: the upload of the
      video returns before the copy of the text, with the download queue
      empty and `finished_dequeue` still clear, so the upload task sleeps
      and waits in `get()`. The copy then returns and the dispatch task
      finishes. Both messages are delivered, yet the upload task waits for
      an item that never comes. */
  method UploadOutlivesDispatch() returns (delivered: seq<Delivery>, dispatchDone: bool, uploadWaiting: bool)
    ensures |delivered| == 2 && delivered[0].msg == ProtectedVideo(1, "a.mp4") && delivered[1] == PlainCopy(Text(2))
    ensures dispatchDone && uploadWaiting
  {
    var origin := Chat(100, false);
    var bot := new Bot.Start(origin, 0, Some(2));
    var page := [ProtectedVideo(1, "a.mp4"), Text(2)];
    ThroughLastAt(page, 1, Some(2));
    assert page[..2] == page;
    var waited := bot.Fetched(page, Exhausted, 1);
    assert bot.dispatchPc == Sending(ProtectedVideo(1, "a.mp4")) && bot.messagesQueue == [Text(2)];
    bot.Replied(Ok, "", 1);
    assert bot.dispatchPc == Sending(Text(2)) && bot.messagesQueue == [];
    bot.Take();
    bot.Uploaded(Ok);
    bot.Replied(Ok, "", 1);
    delivered := bot.delivered;
    dispatchDone := bot.dispatchPc == Done;
    uploadWaiting := bot.uploadPc == Waiting && bot.downloadQueue == [];
  }

  /** The checkpoint is not monotonic: dispatch defers photo 5, copies text 6
      (checkpoint 6), and the upload of photo 5 then writes 5. */
  method CheckpointMovesBack() returns (afterCopy: int, afterUpload: int)
    ensures afterCopy == 6 && afterUpload == 5
  {
    var origin := Chat(100, true);
    var bot := new Bot.Start(origin, 4, Some(6));
    var page := [Photo(5), Text(6)];
    ThroughLastAt(page, 1, Some(6));
    assert page[..2] == page;
    var waited := bot.Fetched(page, Exhausted, 1);
    bot.Replied(Ok, "jpg", 1);
    bot.Take();
    bot.Replied(Ok, "", 1);
    afterCopy := bot.lastProcessedMsg;
    bot.Uploaded(Ok);
    afterUpload := bot.lastProcessedMsg;
  }

  /** An expired reference, on a photo copied by reference, after the
      newest message has been fetched: the flush empties the pending queue
      while `finished_queue` stays set, so the dispatch task leaves its loop
      without refetching, and texts 2 and 3 are never delivered. */
  method ExpiryAfterLastFetch() returns (delivered: seq<Delivery>, dispatchDone: bool)
    ensures delivered == [] && dispatchDone
  {
    var origin := Chat(100, false);
    var bot := new Bot.Start(origin, 0, Some(3));
    var page := [Photo(1), Text(2), Text(3)];
    ThroughLastAt(page, 2, Some(3));
    assert page[..3] == page;
    var waited := bot.Fetched(page, Exhausted, 1);
    bot.Replied(ReferenceExpired, "", 1);
    delivered := bot.delivered;
    dispatchDone := bot.dispatchPc == Done;
  }

  /** A clone that defers nothing: the upload task has been waiting on
      `get()` since the start, and the dispatch task copies the only message
      and finishes. No step of the upload task can run any more, so the
      clone never returns. */
  method TextOnlyCloneNeverFinishes() returns (uploadCanRun: bool, dispatchDone: bool, uploadFinished: bool)
    ensures !uploadCanRun && dispatchDone && !uploadFinished
  {
    var origin := Chat(100, false);
    var bot := new Bot.Start(origin, 0, Some(1));
    var page := [Text(1)];
    ThroughLastAt(page, 0, Some(1));
    var waited := bot.Fetched(page, Exhausted, 1);
    bot.Replied(Ok, "", 1);
    uploadCanRun := bot.CanRun(TakeEvent) || bot.CanRun(UploadEvent(Ok));
    dispatchDone := bot.dispatchPc == Done;
    uploadFinished := bot.uploadPc == Finished;
  }

  /** A page cut short by a flood-wait keeps what it appended and does not
      set `finished_queue`. After the sleep the bucket refuses once, the
      text is copied, and the next fetch starts from the checkpoint 8 and
      reaches the newest id. */
  method FloodWaitThenRefetch() returns (firstWait: nat, queued: seq<Message>, refetchOffset: int, finishedQueue: bool)
    ensures firstWait == 30 && queued == [Text(8)]
    ensures refetchOffset == 8 && finishedQueue
  {
    var origin := Chat(100, false);
    var bot := new Bot.Start(origin, 7, Some(9));
    assert !ReachesLast([Text(8)], Some(9));
    firstWait := bot.Fetched([Text(8)], Flooded(30), 1);
    queued := bot.messagesQueue;
    bot.Woken(0);
    bot.Woken(1);
    bot.Replied(Ok, "", 1);
    refetchOffset := bot.dispatchPc.offset;
    var page := [Text(9)];
    ThroughLastAt(page, 0, Some(9));
    var waited := bot.Fetched(page, Exhausted, 1);
    finishedQueue := bot.finishedQueue;
  }

  /** A fetch that yields nothing, here because a flood-wait cuts it before
      the first message: after the sleep the dispatch task takes a token
      and waits in `get()` on its empty queue, which nothing else fills. */
  method EmptyPageBlocksDispatch() returns (firstWait: nat, blocked: bool)
    ensures firstWait == 30 && blocked
  {
    var origin := Chat(100, false);
    var bot := new Bot.Start(origin, 7, Some(9));
    firstWait := bot.Fetched([], Flooded(30), 1);
    bot.Woken(1);
    blocked := bot.dispatchPc == Blocked;
  }

  /** The clone of an empty chat: the newest id is unknown, the first page
      is empty, and the dispatch task waits in `get()` for ever. */
  method EmptyChatBlocksDispatch() returns (blocked: bool)
    ensures blocked
  {
    var bot := new Bot.Start(Chat(100, false), 0, None);
    var waited := bot.Fetched([], Exhausted, 1);
    blocked := bot.dispatchPc == Blocked;
  }

  /** An expired reference in the upload task while the dispatch task
      sleeps on a refused token: the flush empties the pending queue under
      it, and on waking it takes a token and waits in `get()` for ever.
      Texts 2 and 3 are never delivered. */
  method UploadExpiryStrandsDispatch() returns (delivered: seq<Delivery>, dispatchBlocked: bool, uploadWaiting: bool)
    ensures delivered == [] && dispatchBlocked && uploadWaiting
  {
    var origin := Chat(100, false);
    var bot := new Bot.Start(origin, 0, Some(3));
    var page := [ProtectedVideo(1, "a.mp4"), Text(2), Text(3)];
    ThroughLastAt(page, 2, Some(3));
    assert page[..3] == page;
    var waited := bot.Fetched(page, Exhausted, 1);
    bot.Replied(Ok, "", 0);
    assert bot.dispatchPc == Pausing;
    bot.Take();
    bot.Uploaded(ReferenceExpired);
    bot.Woken(1);
    delivered := bot.delivered;
    dispatchBlocked := bot.dispatchPc == Blocked;
    uploadWaiting := bot.uploadPc == Waiting && bot.downloadQueue == [];
  }

  /** The same expiry while the copy of text 2 is in flight: with a token
      to spare, the dispatch task took text 2 as soon as video 1 was
      queued, so the flush only drops text 3. Text 2 is delivered and the
      dispatch task finishes; the upload task waits for ever. */
  method UploadExpiryDuringCopy() returns (delivered: seq<Delivery>, dispatchDone: bool, uploadWaiting: bool)
    ensures delivered == [PlainCopy(Text(2))] && dispatchDone && uploadWaiting
  {
    var origin := Chat(100, false);
    var bot := new Bot.Start(origin, 0, Some(3));
    var page := [ProtectedVideo(1, "a.mp4"), Text(2), Text(3)];
    ThroughLastAt(page, 2, Some(3));
    assert page[..3] == page;
    var waited := bot.Fetched(page, Exhausted, 1);
    bot.Replied(Ok, "", 1);
    assert bot.dispatchPc == Sending(Text(2));
    bot.Take();
    bot.Uploaded(ReferenceExpired);
    bot.Replied(Ok, "", 1);
    delivered := bot.delivered;
    dispatchDone := bot.dispatchPc == Done;
    uploadWaiting := bot.uploadPc == Waiting && bot.downloadQueue == [];
  }

  /** The first steps of `ExpiredMessagesLost`: a 30-second flood-wait,
      long enough for the client to raise it, cuts the first page after 1
      to 3; video 1 is downloaded and queued, and the dispatch task takes
      video 2 at once. */
  method FetchAndDefer(bot: Bot)
    requires bot.Valid() && bot.origin == Chat(100, false) && bot.lastMsgId == Some(4)
    requires bot.messagesQueue == [] && bot.downloadQueue == [] && bot.delivered == []
    requires !bot.finishedQueue && bot.dispatchPc == Fetching(0) && bot.uploadPc == Waiting
    modifies bot
    ensures bot.Valid() && bot.messagesQueue == [Photo(3)]
    ensures |bot.downloadQueue| == 1 && bot.downloadQueue[0].msg == ProtectedVideo(1, "a.mp4")
    ensures bot.delivered == [] && !bot.finishedQueue
    ensures bot.dispatchPc == Sending(ProtectedVideo(2, "b.mp4")) && bot.uploadPc == Waiting
  {
    var page := [ProtectedVideo(1, "a.mp4"), ProtectedVideo(2, "b.mp4"), Photo(3)];
    assert forall i :: 0 <= i < |page| ==> page[i].id < 4;
    assert !ReachesLast(page, Some(4));
    var waited := bot.Fetched(page, Flooded(30), 1);
    bot.Woken(1);
    bot.Replied(Ok, "", 1);
  }

  /** The upload task takes video 1; video 2 is downloaded and queued
      behind it while its upload is in flight, and the dispatch task takes
      photo 3, whose copy by reference reports an expired reference. The
      flush empties the download queue, video 2 included, and the refetch
      starts from 3. */
  method FlushAfterDownload(bot: Bot)
    requires bot.Valid() && bot.origin == Chat(100, false) && bot.lastMsgId == Some(4)
    requires bot.messagesQueue == [Photo(3)]
    requires |bot.downloadQueue| == 1 && bot.downloadQueue[0].msg == ProtectedVideo(1, "a.mp4")
    requires bot.delivered == [] && !bot.finishedQueue
    requires bot.dispatchPc == Sending(ProtectedVideo(2, "b.mp4")) && bot.uploadPc == Waiting
    modifies bot
    ensures bot.Valid() && bot.messagesQueue == [] && bot.downloadQueue == []
    ensures bot.delivered == [] && !bot.finishedQueue
    ensures bot.dispatchPc == Fetching(3)
    ensures bot.uploadPc.Uploading? && bot.uploadPc.item.msg == ProtectedVideo(1, "a.mp4")
  {
    bot.Take();
    bot.Replied(Ok, "", 1);
    bot.Replied(ReferenceExpired, "", 1);
  }

  /** An expired reference while `finished_queue` is clear: the refetch
      starts after the checkpoint, which is the id of the message whose call
      expired. Neither that message nor video 2, downloaded and flushed
      while the upload task was busy with video 1, is ever fetched again.
      Text 4 is copied and the dispatch task finishes; the upload of video
      1 then returns, finds `finished_dequeue` set and finishes too, leaving
      the checkpoint at 1. */
  method ExpiredMessagesLost() returns (refetchOffset: int, delivered: seq<Delivery>, checkpoint: int, finished: bool)
    ensures refetchOffset == 3 && checkpoint == 1
    ensures |delivered| == 2 && delivered[0] == PlainCopy(Text(4)) && delivered[1].msg == ProtectedVideo(1, "a.mp4")
    ensures forall i :: 0 <= i < |delivered| ==> delivered[i].msg.id != 2 && delivered[i].msg.id != 3
    ensures finished
  {
    var bot := new Bot.Start(Chat(100, false), 0, Some(4));
    FetchAndDefer(bot);
    FlushAfterDownload(bot);
    refetchOffset := bot.dispatchPc.offset;
    var page := [Text(4)];
    ThroughLastAt(page, 0, Some(4));
    var waited := bot.Fetched(page, Exhausted, 1);
    bot.Replied(Ok, "", 1);
    bot.Uploaded(Ok);
    delivered := bot.delivered;
    checkpoint := bot.lastProcessedMsg;
    finished := bot.dispatchPc == Done && bot.uploadPc == Finished;
  }

  /** A fetch that fails with an error other than a flood-wait: what it
      yielded stays queued, the error ends the dispatch task, and the
      checkpoint is not written. */
  method FetchErrorEndsDispatch() returns (queued: seq<Message>, checkpoint: int, aborted: bool)
    ensures queued == [Text(1)] && checkpoint == 0 && aborted
  {
    var bot := new Bot.Start(Chat(100, false), 0, Some(3));
    var page := [Text(1)];
    assert !ReachesLast(page, Some(3));
    var waited := bot.Fetched(page, Failed, 1);
    queued := bot.messagesQueue;
    checkpoint := bot.lastProcessedMsg;
    aborted := bot.dispatchPc == Aborted;
  }
}
