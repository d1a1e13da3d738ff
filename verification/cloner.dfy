/** The cloning pipeline of `Bot`: the pending-message queue, the download
    queue, the two completion flags and the checkpoint, changed in place by
    the fetch/dispatch task and the upload task. */
module Cloner {
  import opened Messages
  import opened Naming
  import opened Dispatch

  /** The `limit` `_get_chat_messages` asks `iter_messages` for. */
  const FetchLimit: nat := 100

  /** `message.id == self.last_msg_id`; never true while the newest id is
      unknown (None). */
  predicate IsLast(m: Message, lastMsgId: Option<int>) {
    lastMsgId == Some(m.id)
  }

  predicate ReachesLast(page: seq<Message>, lastMsgId: Option<int>) {
    exists i :: 0 <= i < |page| && IsLast(page[i], lastMsgId)
  }

  /** What one fetch puts on the pending queue: the page in arrival order,
      up to and including the first message with the newest id, and nothing
      after it. */
  function ThroughLast(page: seq<Message>, lastMsgId: Option<int>): (r: seq<Message>)
    ensures |r| <= |page| && r == page[..|r|]
    ensures !ReachesLast(page, lastMsgId) ==> r == page
  {
    if page == [] then []
    else if IsLast(page[0], lastMsgId) then [page[0]]
    else
      assert !ReachesLast(page, lastMsgId) ==> !ReachesLast(page[1..], lastMsgId) by {
        if ReachesLast(page[1..], lastMsgId) {
          var i :| 0 <= i < |page[1..]| && IsLast(page[1..][i], lastMsgId);
          assert page[i + 1] == page[1..][i];
        }
      }
      [page[0]] + ThroughLast(page[1..], lastMsgId)
  }

  /** A fetch stops at the first newest-id message: what it appends ends
      with that message exactly when the page holds one, and no earlier
      message it appends has the newest id. */
  lemma {:induction false} ThroughLastStopsAtLast(page: seq<Message>, lastMsgId: Option<int>) returns (r: seq<Message>)
    decreases |page|
    ensures r == ThroughLast(page, lastMsgId)
    ensures ReachesLast(page, lastMsgId) <==> r != [] && IsLast(r[|r| - 1], lastMsgId)
    ensures forall i :: 0 <= i < |r| - 1 ==> !IsLast(r[i], lastMsgId)
  {
    r := ThroughLast(page, lastMsgId);
    if page != [] && !IsLast(page[0], lastMsgId) {
      var rest := ThroughLastStopsAtLast(page[1..], lastMsgId);
      assert r == [page[0]] + rest;
      if ReachesLast(page, lastMsgId) {
        var i :| 0 <= i < |page| && IsLast(page[i], lastMsgId);
        assert page[1..][i - 1] == page[i];
      }
      if ReachesLast(page[1..], lastMsgId) {
        var i :| 0 <= i < |page[1..]| && IsLast(page[1..][i], lastMsgId);
        assert page[i + 1] == page[1..][i];
      }
      assert forall i :: 1 <= i < |r| ==> r[i] == rest[i - 1];
    } else if page != [] {
      assert IsLast(page[0], lastMsgId) && ReachesLast(page, lastMsgId);
    }
  }

  /** When the first newest-id message of a page is at `i`, a fetch takes
      the page through `i`. */
  lemma {:induction false} ThroughLastAt(page: seq<Message>, i: nat, lastMsgId: Option<int>)
    decreases i
    requires i < |page| && IsLast(page[i], lastMsgId)
    requires forall j :: 0 <= j < i ==> !IsLast(page[j], lastMsgId)
    ensures ThroughLast(page, lastMsgId) == page[..i + 1]
  {
    if i > 0 {
      assert !IsLast(page[0], lastMsgId);
      ThroughLastAt(page[1..], i - 1, lastMsgId);
      assert page[..i + 1] == [page[0]] + page[1..][..i];
    }
  }

  /** The answer `iter_messages` gives with `reverse=True` and an
      `offset_id`: only messages newer than the offset. */
  predicate NewerThan(page: seq<Message>, offset: int) {
    forall i :: 0 <= i < |page| ==> page[i].id > offset
  }

  /** What one fetch appends keeps the service's promise about the page. */
  lemma ThroughLastNewerThan(page: seq<Message>, lastMsgId: Option<int>, offset: int)
    requires NewerThan(page, offset)
    ensures NewerThan(ThroughLast(page, lastMsgId), offset)
  {
    var r := ThroughLast(page, lastMsgId);
    assert forall i :: 0 <= i < |r| ==> r[i] == page[i];
  }

  /** What is left of a page after messages are taken from its front is
      still newer than the offset. */
  lemma SuffixNewerThan(page: seq<Message>, rest: seq<Message>, offset: int)
    requires NewerThan(page, offset)
    requires |rest| <= |page| && rest == page[|page| - |rest|..]
    ensures NewerThan(rest, offset)
  {
    assert forall i :: 0 <= i < |rest| ==> rest[i] == page[|page| - |rest| + i];
  }

  /** No message of `msgs` has protected media, so none is deferred. */
  predicate DefersNothing(origin: Chat, msgs: seq<Message>) {
    forall i :: 0 <= i < |msgs| ==> Classify(origin, msgs[i]) != Defer
  }

  /** The remote call made for a message reported an expired file
      reference; a skipped message makes no remote call. */
  predicate Expires(d: Decision, o: Outcome) {
    d != Skip && o.ReferenceExpired?
  }

  /** An error the dispatch task does not catch: it ends the dispatch task. */
  predicate Aborts(d: Decision, o: Outcome) {
    d != Skip && IsFailure(o)
  }

  /** Where the fetch/dispatch task (`_send_messages`) is suspended:
      Fetching: the refetch from `offset` is in flight;
      Pausing: asleep, after a flood-wait or a refused token, and then polls
        the token bucket again;
      Sending: the remote call for `msg`, already taken off the pending
        queue, is in flight;
      Blocked: waiting in `get()` on an empty pending queue, which only this
        task fills;
      Done: left the loop and set `finished_dequeue`;
      Aborted: an uncaught error ended this task. */
  datatype DispatchPc =
    | Fetching(offset: int)
    | Pausing
    | Sending(msg: Message)
    | Blocked
    | Done
    | Aborted

  /** Where the upload task (`_upload_downloads`) is suspended:
      Waiting: slept five seconds on an empty queue and now waits on `get()`
        until an item arrives, without testing the flag again;
      Uploading: the upload of `item`, already taken off the download queue,
        is in flight;
      Finished: left the loop. */
  datatype UploadPc = Waiting | Uploading(item: DownloadItem) | Finished

  /** Where the dispatch task next suspends, with its pending queue and its
      checkpoint at that moment. */
  datatype Settled = Settled(pc: DispatchPc, queue: seq<Message>, checkpoint: int)

  /** How many messages the dispatch task skipped on its way from `queue` to
      `r`: every message it took, except one whose call is now in flight. */
  function Skipped(queue: seq<Message>, r: Settled): int {
    |queue| - |r.queue| - (if r.pc.Sending? then 1 else 0)
  }

  /** The dispatch loop run on without a suspension, from its top (`atTop`)
      or from the token gate: `grants` is how many times in a row
      `consume()` succeeds before it refuses. Service messages are skipped
      with no await, so the task runs on through them to the first message
      with a remote call, a refused token, an empty queue at the top (the
      end of the loop or a refetch) or `get()` on an empty queue. */
  function Advance(origin: Chat, queue: seq<Message>, finishedQueue: bool, checkpoint: int, grants: nat, atTop: bool): Settled
    decreases |queue|
  {
    if atTop && queue == [] then
      Settled(if finishedQueue then Done else Fetching(checkpoint), [], checkpoint)
    else if grants == 0 then Settled(Pausing, queue, checkpoint)
    else if queue == [] then Settled(Blocked, [], checkpoint)
    else if Classify(origin, queue[0]) == Skip then
      Advance(origin, queue[1..], finishedQueue, queue[0].id, grants - 1, true)
    else Settled(Sending(queue[0]), queue[1..], checkpoint)
  }

  /** Where `Advance` stops and what it passed on the way: it takes a prefix
      of the queue, every message of which is skipped except one whose call
      is then in flight; it skips no more messages than it has tokens; the
      checkpoint is the id of the last message skipped; and it stops on a
      refused token only once every token is spent, on `get()` of an empty
      queue only when it starts at the token gate with an empty queue, and
      at the top of the loop only with an empty queue. */
  lemma {:induction false} AdvanceStops(origin: Chat, queue: seq<Message>, finishedQueue: bool, checkpoint: int, grants: nat, atTop: bool)
    returns (r: Settled)
    ensures r == Advance(origin, queue, finishedQueue, checkpoint, grants, atTop)
    ensures |r.queue| <= |queue| && r.queue == queue[|queue| - |r.queue|..]
    ensures 0 <= Skipped(queue, r) <= grants
    ensures forall i :: 0 <= i < Skipped(queue, r) ==> Classify(origin, queue[i]) == Skip
    ensures r.checkpoint == if Skipped(queue, r) == 0 then checkpoint else queue[Skipped(queue, r) - 1].id
    ensures r.pc.Sending? ==> r.pc.msg == queue[Skipped(queue, r)] && Classify(origin, r.pc.msg) != Skip
    ensures r.pc.Done? || r.pc.Fetching? || r.pc.Pausing? || r.pc.Blocked? || r.pc.Sending?
    ensures r.pc.Done? ==> finishedQueue && r.queue == []
    ensures r.pc.Fetching? ==> !finishedQueue && r.queue == [] && r.pc.offset == r.checkpoint
    ensures r.pc.Pausing? ==> Skipped(queue, r) == grants
    ensures r.pc.Blocked? <==> !atTop && queue == [] && grants > 0
  {
    r := AdvanceSuffix(origin, queue, finishedQueue, checkpoint, grants, atTop);
    var _ := AdvanceSkipsOnlySkips(origin, queue, finishedQueue, checkpoint, grants, atTop);
    var _ := AdvanceCheckpoint(origin, queue, finishedQueue, checkpoint, grants, atTop);
    var _ := AdvanceSettles(origin, queue, finishedQueue, checkpoint, grants, atTop);
  }

  /** What the run leaves: a suffix of the queue, shorter by no more than
      one message per token plus the one whose call is then in flight. */
  lemma {:induction false} AdvanceSuffix(origin: Chat, queue: seq<Message>, finishedQueue: bool, checkpoint: int, grants: nat, atTop: bool)
    returns (r: Settled)
    decreases |queue|
    ensures r == Advance(origin, queue, finishedQueue, checkpoint, grants, atTop)
    ensures |r.queue| <= |queue| && r.queue == queue[|queue| - |r.queue|..]
    ensures 0 <= Skipped(queue, r) <= grants
  {
    r := Advance(origin, queue, finishedQueue, checkpoint, grants, atTop);
    if !(atTop && queue == []) && grants != 0 && queue != [] && Classify(origin, queue[0]) == Skip {
      var tail := queue[1..];
      var rest := AdvanceSuffix(origin, tail, finishedQueue, queue[0].id, grants - 1, true);
      assert r == rest;
      assert tail[|tail| - |r.queue|..] == queue[|queue| - |r.queue|..];
      assert Skipped(queue, r) == Skipped(tail, rest) + 1;
    }
  }

  /** What the run skips: every message it drops is one the trial skips. */
  lemma {:induction false} AdvanceSkipsOnlySkips(origin: Chat, queue: seq<Message>, finishedQueue: bool, checkpoint: int, grants: nat, atTop: bool)
    returns (r: Settled)
    decreases |queue|
    ensures r == Advance(origin, queue, finishedQueue, checkpoint, grants, atTop)
    ensures Skipped(queue, r) <= |queue|
    ensures forall i :: 0 <= i < Skipped(queue, r) ==> Classify(origin, queue[i]) == Skip
  {
    r := AdvanceSuffix(origin, queue, finishedQueue, checkpoint, grants, atTop);
    if !(atTop && queue == []) && grants != 0 && queue != [] && Classify(origin, queue[0]) == Skip {
      var tail := queue[1..];
      var rest := AdvanceSkipsOnlySkips(origin, tail, finishedQueue, queue[0].id, grants - 1, true);
      assert r == rest;
      var k := Skipped(tail, rest);
      assert Skipped(queue, r) == k + 1;
      forall i | 1 <= i < k + 1
        ensures Classify(origin, queue[i]) == Skip
      {
        assert queue[i] == tail[i - 1];
      }
    }
  }

  /** The last message the run skips is the new checkpoint, and the message
      it sends next, if any, follows the skipped ones. */
  lemma {:induction false} AdvanceCheckpoint(origin: Chat, queue: seq<Message>, finishedQueue: bool, checkpoint: int, grants: nat, atTop: bool)
    returns (r: Settled)
    decreases |queue|
    ensures r == Advance(origin, queue, finishedQueue, checkpoint, grants, atTop)
    ensures 0 <= Skipped(queue, r) <= |queue| - (if r.pc.Sending? then 1 else 0)
    ensures r.checkpoint == if Skipped(queue, r) == 0 then checkpoint else queue[Skipped(queue, r) - 1].id
    ensures r.pc.Sending? ==> r.pc.msg == queue[Skipped(queue, r)]
  {
    r := Advance(origin, queue, finishedQueue, checkpoint, grants, atTop);
    if !(atTop && queue == []) && grants != 0 && queue != [] && Classify(origin, queue[0]) == Skip {
      var tail := queue[1..];
      var rest := AdvanceCheckpoint(origin, tail, finishedQueue, queue[0].id, grants - 1, true);
      assert r == rest;
      var k := Skipped(tail, rest);
      assert Skipped(queue, r) == k + 1;
      assert k == 0 || queue[k] == tail[k - 1];
      assert r.pc.Sending? ==> queue[k + 1] == tail[k];
    }
  }

  /** Where the run settles: the loop's end, a refetch from the checkpoint,
      a refused token once every token is spent, a `get()` that finds the
      queue empty, which only happens on a run that starts there, or the
      call for a message that is not skipped. */
  lemma {:induction false} AdvanceSettles(origin: Chat, queue: seq<Message>, finishedQueue: bool, checkpoint: int, grants: nat, atTop: bool)
    returns (r: Settled)
    decreases |queue|
    ensures r == Advance(origin, queue, finishedQueue, checkpoint, grants, atTop)
    ensures r.pc.Done? || r.pc.Fetching? || r.pc.Pausing? || r.pc.Blocked? || r.pc.Sending?
    ensures r.pc.Sending? ==> Classify(origin, r.pc.msg) != Skip
    ensures r.pc.Done? ==> finishedQueue && r.queue == []
    ensures r.pc.Fetching? ==> !finishedQueue && r.queue == [] && r.pc.offset == r.checkpoint
    ensures r.pc.Pausing? ==> Skipped(queue, r) == grants
    ensures r.pc.Blocked? <==> !atTop && queue == [] && grants > 0
  {
    r := Advance(origin, queue, finishedQueue, checkpoint, grants, atTop);
    if !(atTop && queue == []) && grants != 0 && queue != [] && Classify(origin, queue[0]) == Skip {
      var rest := AdvanceSettles(origin, queue[1..], finishedQueue, queue[0].id, grants - 1, true);
      assert r == rest;
      assert Skipped(queue, r) == Skipped(queue[1..], rest) + 1;
    }
  }

  /** Running on through a queue in which nothing is deferred leaves a
      queue, and a call in flight, in which nothing is deferred. */
  lemma AdvanceDefersNothing(origin: Chat, queue: seq<Message>, finishedQueue: bool, checkpoint: int, grants: nat, atTop: bool)
    requires DefersNothing(origin, queue)
    ensures var r := Advance(origin, queue, finishedQueue, checkpoint, grants, atTop);
      DefersNothing(origin, r.queue) && (r.pc.Sending? ==> Classify(origin, r.pc.msg) != Defer)
  {
    var r := AdvanceStops(origin, queue, finishedQueue, checkpoint, grants, atTop);
    assert forall i :: 0 <= i < |r.queue| ==> r.queue[i] == queue[|queue| - |r.queue| + i];
  }

  /** One atomic step picked by the scheduler: a task resumes from where it
      is suspended and runs to its next suspension, with what the outside
      world answers. */
  datatype Event =
    | PageEvent(page: seq<Message>, end: PageEnd, grants: nat)
    | WakeEvent(grants: nat)
    | ReplyEvent(outcome: Outcome, extension: string, grants: nat)
    | TakeEvent
    | UploadEvent(outcome: Outcome)

  class Bot {
    const origin: Chat
    /** The newest message id of the origin chat when cloning starts;
        None for an empty chat. */
    const lastMsgId: Option<int>
    var messagesQueue: seq<Message>
    var downloadQueue: seq<DownloadItem>
    var finishedQueue: bool
    var finishedDequeue: bool
    /** The checkpoint: the id of the last message either task handled. */
    var lastProcessedMsg: int
    /** What reached the destination chat, in order. */
    var delivered: seq<Delivery>
    var dispatchPc: DispatchPc
    var uploadPc: UploadPc

    ghost predicate Valid()
      reads this
    {
      (finishedQueue ==> lastMsgId.Some?) &&
      (finishedDequeue <==> dispatchPc == Done) &&
      (dispatchPc == Done ==> messagesQueue == [] && finishedQueue) &&
      (dispatchPc.Fetching? ==> messagesQueue == [] && !finishedQueue) &&
      (dispatchPc == Blocked ==> messagesQueue == []) &&
      (dispatchPc.Sending? ==> Classify(origin, dispatchPc.msg) != Skip) &&
      (uploadPc == Finished ==> dispatchPc == Done && downloadQueue == [])
    }

    /** What the dispatch loop needs to run on from its top or its token
        gate: neither task has ended the clone. */
    ghost predicate Running()
      reads this
    {
      (finishedQueue ==> lastMsgId.Some?) && !finishedDequeue && uploadPc != Finished
    }

    /** A fresh bot about to clone `origin` from `offsetId` on, the newest
        message id having been probed. While the dispatch task awaits that
        probe, the upload task runs its first pass: its queue is empty and
        `finished_dequeue` is clear, so it sleeps and commits to `get()`.
        The dispatch task then finds its pending queue empty and
        `finished_queue` clear, and starts the first fetch from the offset. */
    constructor Start(origin: Chat, offsetId: int, lastMsgId: Option<int>)
      ensures Valid()
      ensures this.origin == origin && this.lastMsgId == lastMsgId
      ensures messagesQueue == [] && downloadQueue == []
      ensures !finishedQueue && !finishedDequeue
      ensures lastProcessedMsg == offsetId
      ensures delivered == []
      ensures dispatchPc == Fetching(offsetId) && uploadPc == Waiting
    {
      this.origin := origin;
      this.lastMsgId := lastMsgId;
      messagesQueue, downloadQueue := [], [];
      finishedQueue, finishedDequeue := false, false;
      lastProcessedMsg := offsetId;
      delivered := [];
      dispatchPc, uploadPc := Fetching(offsetId), Waiting;
    }

    /** Empties both queues, discarding every buffered item. */
    method Flush()
      requires Valid()
      modifies this`messagesQueue, this`downloadQueue
      ensures Valid()
      ensures messagesQueue == [] && downloadQueue == []
    {
      messagesQueue := [];
      downloadQueue := [];
    }

    /** The dispatch loop from its top (`atTop`) or its token gate, run on
        until the task next suspends: an empty pending queue at the top
        ends the loop once the newest message has been fetched, and
        otherwise starts a refetch from the checkpoint; a refused token
        puts the task to sleep; `get()` on an empty queue blocks; a service
        message is skipped and its id becomes the checkpoint; any other
        message is taken and its remote call starts. */
    method Proceed(grants: nat, atTop: bool)
      requires Running()
      modifies this`messagesQueue, this`lastProcessedMsg, this`dispatchPc, this`finishedDequeue
      ensures Valid()
      ensures Settled(dispatchPc, messagesQueue, lastProcessedMsg) ==
              Advance(origin, old(messagesQueue), finishedQueue, old(lastProcessedMsg), grants, atTop)
      ensures |messagesQueue| <= |old(messagesQueue)|
      ensures messagesQueue == old(messagesQueue)[|old(messagesQueue)| - |messagesQueue|..]
    {
      ghost var target := Advance(origin, messagesQueue, finishedQueue, lastProcessedMsg, grants, atTop);
      var g, top := grants, atTop;
      while !(top && messagesQueue == []) && g != 0 && messagesQueue != [] && Classify(origin, messagesQueue[0]) == Skip
        invariant (finishedQueue ==> lastMsgId.Some?) && !finishedDequeue
        invariant Advance(origin, messagesQueue, finishedQueue, lastProcessedMsg, g, top) == target
        invariant |messagesQueue| <= |old(messagesQueue)|
        invariant messagesQueue == old(messagesQueue)[|old(messagesQueue)| - |messagesQueue|..]
        decreases |messagesQueue|
      {
        var m := messagesQueue[0];
        assert Advance(origin, messagesQueue, finishedQueue, lastProcessedMsg, g, top) ==
               Advance(origin, messagesQueue[1..], finishedQueue, m.id, g - 1, true);
        messagesQueue := messagesQueue[1..];
        lastProcessedMsg := m.id;
        g, top := g - 1, true;
      }
      if top && messagesQueue == [] {
        if finishedQueue {
          finishedDequeue := true;
          dispatchPc := Done;
        } else {
          dispatchPc := Fetching(lastProcessedMsg);
        }
      } else if g == 0 {
        dispatchPc := Pausing;
      } else if messagesQueue == [] {
        dispatchPc := Blocked;
      } else {
        dispatchPc := Sending(messagesQueue[0]);
        messagesQueue := messagesQueue[1..];
      }
    }

    /** The page of the fetch in flight: appends what `iter_messages` yields,
        in order, and stops right after the newest message, setting
        `finished_queue`. A flood-wait ends the page early, keeps what was
        appended, leaves the flag alone and puts the task to sleep for
        `waited` seconds. Any other error also keeps what was appended; it
        is not caught, and ends the dispatch task with no checkpoint
        written. Otherwise the fetch returns and the task is still where the
        fetch left it. */
    method FetchPage(page: seq<Message>, end: PageEnd) returns (waited: nat)
      requires Valid() && dispatchPc.Fetching?
      requires |page| <= FetchLimit && RaisableEnd(end)
      modifies this`messagesQueue, this`finishedQueue, this`dispatchPc
      ensures Running()
      ensures messagesQueue == ThroughLast(page, lastMsgId)
      ensures finishedQueue == ReachesLast(page, lastMsgId)
      ensures waited == if end.Flooded? && !finishedQueue then end.seconds else 0
      ensures dispatchPc ==
        if finishedQueue || end.Exhausted? then old(dispatchPc)
        else if end.Failed? then Aborted else Pausing
    {
      var i := 0;
      while i < |page|
        invariant 0 <= i <= |page|
        invariant forall j :: 0 <= j < i ==> !IsLast(page[j], lastMsgId)
        invariant messagesQueue == page[..i]
        invariant !finishedQueue && dispatchPc == old(dispatchPc)
      {
        messagesQueue := messagesQueue + [page[i]];
        assert page[..i + 1] == page[..i] + [page[i]];
        if IsLast(page[i], lastMsgId) {
          ThroughLastAt(page, i, lastMsgId);
          assert ReachesLast(page, lastMsgId);
          finishedQueue := true;
          return 0;
        }
        i := i + 1;
      }
      assert page[..i] == page;
      assert !ReachesLast(page, lastMsgId);
      match end {
        case Exhausted => waited := 0;
        case Flooded(seconds) => waited, dispatchPc := seconds, Pausing;
        case Failed => waited, dispatchPc := 0, Aborted;
      }
    }

    /** The dispatch task resumes with the page of its fetch. Unless the
        fetch put it to sleep or ended it, it goes straight on to the token
        gate, without testing the queue again. Everything queued is newer
        than the offset of the fetch. */
    method Fetched(page: seq<Message>, end: PageEnd, grants: nat) returns (waited: nat)
      requires Valid() && dispatchPc.Fetching?
      requires |page| <= FetchLimit && RaisableEnd(end) && NewerThan(page, dispatchPc.offset)
      modifies this
      ensures Valid()
      ensures finishedQueue == ReachesLast(page, lastMsgId)
      ensures waited == if end.Flooded? && !finishedQueue then end.seconds else 0
      ensures NewerThan(messagesQueue, old(dispatchPc).offset)
      ensures !finishedQueue && !end.Exhausted? ==>
        messagesQueue == page && lastProcessedMsg == old(lastProcessedMsg) &&
        dispatchPc == (if end.Failed? then Aborted else Pausing)
      ensures finishedQueue || end.Exhausted? ==>
        Settled(dispatchPc, messagesQueue, lastProcessedMsg) ==
        Advance(origin, ThroughLast(page, lastMsgId), finishedQueue, old(lastProcessedMsg), grants, false)
      ensures finishedDequeue == (dispatchPc == Done)
      ensures downloadQueue == old(downloadQueue) && delivered == old(delivered) && uploadPc == old(uploadPc)
    {
      ghost var offset := dispatchPc.offset;
      ThroughLastNewerThan(page, lastMsgId, offset);
      waited := FetchPage(page, end);
      ghost var fetched := messagesQueue;
      if dispatchPc.Fetching? {
        Proceed(grants, false);
        SuffixNewerThan(fetched, messagesQueue, offset);
      } else {
        assert fetched == page;
      }
    }

    /** The dispatch task wakes from a sleep and polls the token bucket
        again. */
    method Woken(grants: nat)
      requires Valid() && dispatchPc == Pausing
      modifies this
      ensures Valid()
      ensures Settled(dispatchPc, messagesQueue, lastProcessedMsg) ==
              Advance(origin, old(messagesQueue), finishedQueue, old(lastProcessedMsg), grants, false)
      ensures finishedQueue == old(finishedQueue) && finishedDequeue == (dispatchPc == Done)
      ensures downloadQueue == old(downloadQueue) && delivered == old(delivered) && uploadPc == old(uploadPc)
    {
      Proceed(grants, false);
    }

    /** The remote call for the message in flight returns. A copy that
        succeeds is delivered; deferred media that downloads is queued with
        its download path; an expired reference flushes both queues; any
        other error ends the dispatch task. Whatever happened, the
        checkpoint becomes the message's id, and unless the task ended it
        goes straight back to the top of its loop. */
    method Replied(outcome: Outcome, extension: string, grants: nat)
      requires Valid() && dispatchPc.Sending? && Raisable(outcome)
      modifies this
      ensures Valid()
      ensures
        var m := old(dispatchPc).msg;
        var d := Classify(origin, m);
        downloadQueue == (if Expires(d, outcome) then []
                          else if d == Defer && outcome.Ok?
                          then old(downloadQueue) + [DownloadItem(m, DownloadPath(m.id, m.fileName, extension))]
                          else old(downloadQueue)) &&
        delivered == (if d == Copy && outcome.Ok? then old(delivered) + [SendCopy(m, None)] else old(delivered)) &&
        if Aborts(d, outcome) then
          dispatchPc == Aborted && messagesQueue == old(messagesQueue) && lastProcessedMsg == m.id
        else
          Settled(dispatchPc, messagesQueue, lastProcessedMsg) ==
          Advance(origin, if Expires(d, outcome) then [] else old(messagesQueue), finishedQueue, m.id, grants, true)
      ensures finishedQueue == old(finishedQueue) && finishedDequeue == (dispatchPc == Done)
      ensures uploadPc == old(uploadPc)
    {
      var m := dispatchPc.msg;
      var d := Classify(origin, m);
      if Expires(d, outcome) {
        Flush();
      } else if outcome.Ok? && d == Copy {
        delivered := delivered + [SendCopy(m, None)];
      } else if outcome.Ok? {
        downloadQueue := downloadQueue + [DownloadItem(m, DownloadPath(m.id, m.fileName, extension))];
      }
      lastProcessedMsg := m.id;
      if Aborts(d, outcome) {
        dispatchPc := Aborted;
      } else {
        Proceed(grants, true);
      }
    }

    /** The upload task, waiting in `get()`, receives the head of the
        download queue and starts its upload. */
    method Take()
      requires Valid() && uploadPc == Waiting && downloadQueue != []
      modifies this`downloadQueue, this`uploadPc
      ensures Valid()
      ensures uploadPc == Uploading(old(downloadQueue)[0])
      ensures downloadQueue == old(downloadQueue)[1..]
    {
      uploadPc := Uploading(downloadQueue[0]);
      downloadQueue := downloadQueue[1..];
    }

    /** The upload in flight returns. Success is delivered with the local
        file and the message's metadata, an expired reference flushes both
        queues, any other error is swallowed and the item dropped; in every
        case the checkpoint becomes the item's message id. The task then
        goes straight back to the top of its loop: it takes the next item
        at once if there is one, leaves the loop if the queue is empty and
        dispatch has finished, and otherwise sleeps and commits to `get()`. */
    method Uploaded(outcome: Outcome)
      requires Valid() && uploadPc.Uploading? && Raisable(outcome)
      modifies this
      ensures Valid()
      ensures
        var item := old(uploadPc).item;
        var rest := if outcome.ReferenceExpired? then [] else old(downloadQueue);
        lastProcessedMsg == item.msg.id &&
        messagesQueue == (if outcome.ReferenceExpired? then [] else old(messagesQueue)) &&
        delivered == (if outcome.Ok? then old(delivered) + [SendCopy(item.msg, Some(item.path))] else old(delivered)) &&
        if rest == [] then
          downloadQueue == [] && uploadPc == (if finishedDequeue then Finished else Waiting)
        else
          downloadQueue == rest[1..] && uploadPc == Uploading(rest[0])
      ensures finishedQueue == old(finishedQueue) && finishedDequeue == old(finishedDequeue)
      ensures dispatchPc == old(dispatchPc)
    {
      var item := uploadPc.item;
      match outcome {
        case Ok => delivered := delivered + [SendCopy(item.msg, Some(item.path))];
        case ReferenceExpired => Flush();
        case _ =>
      }
      lastProcessedMsg := item.msg.id;
      if downloadQueue == [] {
        uploadPc := if finishedDequeue then Finished else Waiting;
      } else {
        uploadPc := Uploading(downloadQueue[0]);
        downloadQueue := downloadQueue[1..];
      }
    }

    /** Whether the scheduler can run `e` now: its task is suspended where
        `e` resumes it, and not waiting on an empty queue. */
    predicate CanRun(e: Event)
      reads this
    {
      match e
      case PageEvent(page, end, _) =>
        dispatchPc.Fetching? && |page| <= FetchLimit && RaisableEnd(end) && NewerThan(page, dispatchPc.offset)
      case WakeEvent(_) => dispatchPc == Pausing
      case ReplyEvent(outcome, _, _) => dispatchPc.Sending? && Raisable(outcome)
      case TakeEvent => uploadPc == Waiting && downloadQueue != []
      case UploadEvent(outcome) => uploadPc.Uploading? && Raisable(outcome)
    }

    /** No message in flight or pending in the dispatch task will be
        downloaded. */
    ghost predicate DispatchDefersNothing()
      reads this
    {
      DefersNothing(origin, messagesQueue) &&
      (dispatchPc.Sending? ==> Classify(origin, dispatchPc.msg) != Defer)
    }

    /** The two tasks interleaved: runs each event of the schedule its task
        can take and passes over the others. Deliveries are only ever added,
        `finished_queue` is never cleared, and when both tasks have ended the
        queues are empty and both flags set. A dispatch task blocked on its
        empty queue stays blocked. An upload task waiting on an empty
        download queue, while no message that is or will be in the dispatch
        task has protected media, waits for ever: in particular a fresh bot
        whose clone defers nothing never finishes; and once dispatch has
        finished, nothing more can run. */
    method Run(schedule: seq<Event>) returns (steps: nat)
      requires Valid()
      modifies this
      ensures Valid()
      ensures steps <= |schedule|
      ensures old(delivered) <= delivered
      ensures old(finishedQueue) ==> finishedQueue
      ensures dispatchPc == Done && uploadPc == Finished ==>
        messagesQueue == [] && downloadQueue == [] && finishedQueue && finishedDequeue
      ensures old(dispatchPc) == Blocked ==> dispatchPc == Blocked
      ensures old(uploadPc) == Waiting && old(downloadQueue) == [] && old(DispatchDefersNothing()) &&
              (forall i :: 0 <= i < |schedule| && schedule[i].PageEvent? ==>
                 DefersNothing(origin, schedule[i].page)) ==>
              uploadPc == Waiting && downloadQueue == []
      ensures old(dispatchPc) == Done && old(uploadPc) == Waiting && old(downloadQueue) == [] ==> steps == 0
    {
      ghost var stuck := uploadPc == Waiting && downloadQueue == [] && DispatchDefersNothing() &&
        (forall i :: 0 <= i < |schedule| && schedule[i].PageEvent? ==>
           DefersNothing(origin, schedule[i].page));
      ghost var hung := dispatchPc == Done && uploadPc == Waiting && downloadQueue == [];
      ghost var blocked := dispatchPc == Blocked;
      steps := 0;
      for i := 0 to |schedule|
        invariant Valid()
        invariant steps <= i
        invariant old(delivered) <= delivered
        invariant old(finishedQueue) ==> finishedQueue
        invariant blocked ==> dispatchPc == Blocked
        invariant stuck ==> uploadPc == Waiting && downloadQueue == [] && DispatchDefersNothing()
        invariant hung ==> steps == 0 && dispatchPc == Done && uploadPc == Waiting && downloadQueue == []
      {
        var e := schedule[i];
        if CanRun(e) {
          match e {
            case PageEvent(page, end, grants) =>
              ghost var checkpoint := lastProcessedMsg;
              assert stuck ==> DefersNothing(origin, page) by {
                if stuck {
                  assert schedule[i].PageEvent?;
                }
              }
              var _ := Fetched(page, end, grants);
              assert stuck ==> DispatchDefersNothing() by {
                if stuck {
                  var fetched := ThroughLast(page, lastMsgId);
                  assert forall k :: 0 <= k < |fetched| ==> fetched[k] == page[k];
                  if ReachesLast(page, lastMsgId) || end.Exhausted? {
                    AdvanceDefersNothing(origin, fetched, finishedQueue, checkpoint, grants, false);
                  }
                }
              }
            case WakeEvent(grants) =>
              ghost var pending, checkpoint := messagesQueue, lastProcessedMsg;
              Woken(grants);
              assert stuck ==> DispatchDefersNothing() by {
                if stuck {
                  AdvanceDefersNothing(origin, pending, finishedQueue, checkpoint, grants, false);
                }
              }
            case ReplyEvent(outcome, extension, grants) =>
              ghost var pending, m := messagesQueue, dispatchPc.msg;
              Replied(outcome, extension, grants);
              assert stuck ==> DispatchDefersNothing() by {
                if stuck && !Aborts(Classify(origin, m), outcome) {
                  var rest := if Expires(Classify(origin, m), outcome) then [] else pending;
                  AdvanceDefersNothing(origin, rest, finishedQueue, m.id, grants, true);
                }
              }
            case TakeEvent =>
              Take();
            case UploadEvent(outcome) =>
              Uploaded(outcome);
          }
          steps := steps + 1;
        }
      }
    }
  }
}
