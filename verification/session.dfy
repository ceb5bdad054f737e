/**
  A whole playback session: the loader, the playback loop and the key
  handler interleave their atomic steps on one player. The invariant below
  holds in every reachable state; from it follow the read-ahead bound and
  the first-in-first-out order of everything that leaves the queue.
 */
module Session {
  import opened PlayerTypes
  import opened Loader
  import opened Control
  import opened Engine

  /** The steps of the player's threads. */
  datatype Event =
    | SkipPhase              // the loader's skip phase
    | FillPass               // one pass of the loader's fill loop
    | BeginPlay(now: int)    // the playback loop sets its wall-clock anchor
    | PlayPass(now: int)     // one pass of the playback loop
    | KeySpace               // the space bar: toggle pause
    | KeyStep(now: int)      // the `s` key: play one message while paused

  /** The effect of one event; an event its thread is not ready for changes nothing. */
  function Next(p: Player, opts: PlayOptions, e: Event): (p': Player)
    requires p.readPos <= |p.bag|
    ensures p'.bag == p.bag && p'.readPos <= |p'.bag|
  {
    match e
    case SkipPhase => if p.loader == NotStarted then LoadStart(p, opts) else p
    case FillPass => if p.loader == Filling then FillIteration(p, opts) else p
    case BeginPlay(now) => if p.engine == Idle then BeginPlayback(p, now) else p
    case PlayPass(now) => Dispatch(p, now)
    case KeySpace => SwitchPauseStatus(p)
    case KeyStep(now) => PlayMessageOneStep(p, now)
  }

  /** Everything that was enqueued, in enqueue order: the recorded messages
      from the anchor up to the reader position, each stamped against the
      anchor's time stamp. */
  ghost predicate Streamed(p: Player, opts: PlayOptions)
    requires p.readPos <= |p.bag|
  {
    if |p.bag| == 0 then p.queue == [] && p.log == []
    else
      var a := AnchorIndex(p.bag, opts.startTimeNs);
      && a < p.readPos
      && p.bagStartTime == p.bag[a].timeStamp
      && p.timeFirstMessage == p.bag[a].timeStamp
      && Items(p.log) + p.queue == StampAll(p.bag[a..p.readPos], p.bag[a].timeStamp)
  }

  /** The time stamp of the last published message, if any was published. */
  function LastPublished(log: seq<Delivery>): Option<int> {
    if log == [] then None
    else if log[|log| - 1].Published? then Some(log[|log| - 1].item.message.timeStamp)
    else LastPublished(log[..|log| - 1])
  }

  ghost predicate Inv(p: Player, opts: PlayOptions) {
    && p.readPos <= |p.bag|
    && p.statusString == StatusString(p.status)
    && |p.queue| <= Max(1, opts.readAheadQueueSize)
    && (p.loader == NotStarted ==> p.readPos == 0 && p.queue == [] && p.log == [])
    && (p.loader != NotStarted ==> Streamed(p, opts))
    && (p.engine == Exited ==> p.loader == Done)
    && (LastPublished(p.log).Some? ==> p.playingTime == LastPublished(p.log).value)
  }

  /** A new player starts PLAYING, shown as "RUNNING", not finished, with
      nothing read, queued or published, and satisfies the invariant. */
  lemma InitialInv(bag: seq<Message>, opts: PlayOptions)
    ensures var p := Initial(bag);
            && Inv(p, opts)
            && p.status == Playing && p.statusString == "RUNNING" && !p.finished
            && p.queue == [] && p.log == [] && !p.HasNext() == (bag == [])
  {
  }

  lemma LastPublishedAppend(log: seq<Delivery>, d: Delivery)
    ensures LastPublished(log + [d]) ==
      if d.Published? then Some(d.item.message.timeStamp) else LastPublished(log)
  {
    assert (log + [d])[..|log|] == log;
  }

  lemma {:induction false} StreamedAfterStart(p: Player, opts: PlayOptions)
    requires Inv(p, opts) && p.loader == NotStarted
    ensures Streamed(LoadStart(p, opts), opts)
  {
    var p' := LoadStart(p, opts);
    if |p.bag| > 0 {
      assert p.bag[p.readPos..] == p.bag;
      var a := AnchorIndex(p.bag, opts.startTimeNs);
      var b := p'.readPos - 1;
      assert IsAnchor(p.bag, Threshold(p.bag, opts.startTimeNs), b);
      AnchorUnique(p.bag, Threshold(p.bag, opts.startTimeNs), a, b);
      assert p'.readPos == a + 1;
      SliceOne(p.bag, a);
      assert p'.queue == [ReplayableMessage(p.bag[a], 0)];
      assert StampAll([p.bag[a]], p.bag[a].timeStamp) == [ReplayableMessage(p.bag[a], 0)];
    }
  }

  lemma SliceOne(s: seq<Message>, i: nat)
    requires i < |s|
    ensures s[i..i + 1] == [s[i]]
  {
  }

  /** Appending freshly read messages, stamped against the anchor, to the
      queue extends the enqueued stream by exactly those messages. */
  lemma StreamExtends(bag: seq<Message>, a: nat, from: nat, to: nat, anchor: int,
                      before: seq<ReplayableMessage>, queue: seq<ReplayableMessage>)
    requires a <= from <= to <= |bag|
    requires before + queue == StampAll(bag[a..from], anchor)
    ensures before + (queue + StampAll(bag[from..to], anchor)) == StampAll(bag[a..to], anchor)
  {
    assert bag[a..to] == bag[a..from] + bag[from..to];
    StampAllAppend(bag[a..from], bag[from..to], anchor);
  }

  lemma {:induction false} StreamedAfterFill(p: Player, opts: PlayOptions)
    requires Inv(p, opts) && p.loader == Filling
    ensures Streamed(FillIteration(p, opts), opts)
  {
    var p' := FillIteration(p, opts);
    if p'.readPos != p.readPos {
      var a := AnchorIndex(p.bag, opts.startTimeNs);
      assert p' == EnqueueUpToBoundary(p, opts.readAheadQueueSize);
      assert p'.queue == p.queue + StampAll(p.bag[p.readPos..p'.readPos], p.timeFirstMessage);
      StreamExtends(p.bag, a, p.readPos, p'.readPos, p.timeFirstMessage, Items(p.log), p.queue);
    }
  }

  lemma {:induction false} InvAfterLoadStart(p: Player, opts: PlayOptions)
    requires Inv(p, opts) && p.loader == NotStarted
    ensures Inv(LoadStart(p, opts), opts)
  {
    StreamedAfterStart(p, opts);
  }

  lemma {:induction false} InvAfterFill(p: Player, opts: PlayOptions)
    requires Inv(p, opts) && p.loader == Filling
    ensures Inv(FillIteration(p, opts), opts)
  {
    StreamedAfterFill(p, opts);
  }

  lemma {:induction false} InvAfterDispatch(p: Player, opts: PlayOptions, now: int)
    requires Inv(p, opts)
    ensures Inv(Dispatch(p, now), opts)
  {
    var p' := Dispatch(p, now);
    if p.engine == Dequeuing && p.queue != [] {
      assert p'.log == p.log + [p'.log[|p.log|]];
      LastPublishedAppend(p.log, p'.log[|p.log|]);
    }
  }

  lemma {:induction false} InvAfterStep(p: Player, opts: PlayOptions, now: int)
    requires Inv(p, opts)
    ensures Inv(PlayMessageOneStep(p, now), opts)
  {
    if p.status == Pause && p.queue != [] {
      LastPublishedAppend(p.log, Published(p.queue[0], now));
    }
  }

  /** Every event keeps the invariant. */
  lemma {:induction false} NextPreservesInv(p: Player, opts: PlayOptions, e: Event)
    requires Inv(p, opts)
    ensures Inv(Next(p, opts, e), opts)
  {
    match e
    case SkipPhase =>
      if p.loader == NotStarted {
        InvAfterLoadStart(p, opts);
      }
    case FillPass =>
      if p.loader == Filling {
        InvAfterFill(p, opts);
      }
    case BeginPlay(now) =>
    case PlayPass(now) =>
      InvAfterDispatch(p, opts, now);
    case KeySpace =>
    case KeyStep(now) =>
      InvAfterStep(p, opts, now);
  }

  /** The player after a sequence of events. */
  function Run(p: Player, opts: PlayOptions, events: seq<Event>): Player
    requires p.readPos <= |p.bag|
    decreases |events|
  {
    if events == [] then p
    else
      Run(Next(p, opts, events[0]), opts, events[1..])
  }

  lemma RunCons(p: Player, opts: PlayOptions, e: Event, rest: seq<Event>)
    requires p.readPos <= |p.bag|
    ensures Run(p, opts, [e] + rest) == Run(Next(p, opts, e), opts, rest)
  {
    assert ([e] + rest)[1..] == rest;
  }

  /** One pass of the playback loop per wall-clock instant in `nows`. */
  function PlayPasses(nows: seq<int>): (es: seq<Event>)
    ensures |es| == |nows|
    ensures forall i :: 0 <= i < |nows| ==> es[i] == PlayPass(nows[i])
  {
    if nows == [] then [] else [PlayPass(nows[0])] + PlayPasses(nows[1..])
  }

  /** While PLAYING with no resume from PAUSE pending, passes of the playback
      loop keep the wall-clock anchor and publish the queued messages in
      order, each at the later of the pass's instant and the anchor plus its
      offset. */
  lemma {:induction false} PlayingPassesKeepAnchor(p: Player, opts: PlayOptions, nows: seq<int>)
    requires p.readPos <= |p.bag|
    requires p.engine == Dequeuing && p.status == Playing && p.lastStatus != Some(Pause)
    requires |nows| <= |p.queue|
    ensures var r := Run(p, opts, PlayPasses(nows));
            && r.startTime == p.startTime
            && r.queue == p.queue[|nows|..]
            && |r.log| == |p.log| + |nows|
            && r.log[..|p.log|] == p.log
            && forall i :: 0 <= i < |nows| ==>
                 r.log[|p.log| + i]
                   == Published(p.queue[i], Max(nows[i], p.startTime + p.queue[i].timeSinceStart))
    decreases |nows|
  {
    if nows != [] {
      var q := Next(p, opts, PlayPass(nows[0]));
      RunCons(p, opts, PlayPass(nows[0]), PlayPasses(nows[1..]));
      PlayingPassesKeepAnchor(q, opts, nows[1..]);
      var r := Run(q, opts, PlayPasses(nows[1..]));
      assert r.log[..|q.log|] == q.log;
      forall i | 0 <= i < |nows|
        ensures r.log[|p.log| + i]
             == Published(p.queue[i], Max(nows[i], p.startTime + p.queue[i].timeSinceStart))
      {
        if i == 0 {
          assert r.log[|p.log|] == q.log[|p.log|];
        } else {
          assert q.queue[i - 1] == p.queue[i] && nows[1..][i - 1] == nows[i];
        }
      }
    }
  }

  /** Entering the playback loop at `t0` anchors the whole run: with the
      status PLAYING and no resume pending, the i-th pass publishes the i-th
      queued message at the later of its own instant and `t0` plus the
      message's offset, for any queue and any pass instants. */
  lemma PlaybackFollowsAnchor(p: Player, opts: PlayOptions, t0: int, nows: seq<int>)
    requires p.readPos <= |p.bag|
    requires p.engine == Idle && p.status == Playing && p.lastStatus != Some(Pause)
    requires |nows| <= |p.queue|
    ensures var r := Run(p, opts, [BeginPlay(t0)] + PlayPasses(nows));
            && |r.log| == |p.log| + |nows|
            && forall i :: 0 <= i < |nows| ==>
                 r.log[|p.log| + i] == Published(p.queue[i], Max(nows[i], t0 + p.queue[i].timeSinceStart))
  {
    RunCons(p, opts, BeginPlay(t0), PlayPasses(nows));
    PlayingPassesKeepAnchor(Next(p, opts, BeginPlay(t0)), opts, nows);
  }

  lemma {:induction false} RunPreservesInv(p: Player, opts: PlayOptions, events: seq<Event>)
    requires Inv(p, opts)
    ensures Inv(Run(p, opts, events), opts)
    decreases |events|
  {
    if events != [] {
      NextPreservesInv(p, opts, events[0]);
      RunPreservesInv(Next(p, opts, events[0]), opts, events[1..]);
    }
  }

  /** Whatever the interleaving of the threads' steps, the queue never holds
      more than the read-ahead size (or its single anchor message when that
      size is 0), and the messages that left it and those still in it are,
      in order, the recorded messages from the anchor on. */
  lemma {:induction false} Reachable(bag: seq<Message>, opts: PlayOptions, events: seq<Event>)
    ensures var p := Run(Initial(bag), opts, events);
            && Inv(p, opts)
            && |p.queue| <= Max(1, opts.readAheadQueueSize)
            && (opts.readAheadQueueSize > 0 ==> |p.queue| <= opts.readAheadQueueSize)
  {
    InitialInv(bag, opts);
    RunPreservesInv(Initial(bag), opts, events);
  }

  /**
    First in, first out: the i-th message that ever left the queue (published
    or dropped) is the recorded message i places after the anchor, and the
    queue holds the ones that follow, so nothing read before the anchor is
    ever enqueued or published, and the log, which is in dequeue order,
    follows read order.
   */
  lemma {:induction false} DeliveriesFollowReadOrder(p: Player, opts: PlayOptions)
    requires Inv(p, opts) && p.loader != NotStarted && |p.bag| > 0
    ensures var a := AnchorIndex(p.bag, opts.startTimeNs);
            && a + |p.log| + |p.queue| == p.readPos
            && (forall i :: 0 <= i < |p.log| ==>
                  p.log[i].item == Stamp(p.bag[a + i], p.bag[a].timeStamp))
            && (forall k :: 0 <= k < |p.queue| ==>
                  p.queue[k] == Stamp(p.bag[a + |p.log| + k], p.bag[a].timeStamp))
  {
    var a := AnchorIndex(p.bag, opts.startTimeNs);
    var all := StampAll(p.bag[a..p.readPos], p.bag[a].timeStamp);
    assert Items(p.log) + p.queue == all;
    forall i | 0 <= i < |p.log|
      ensures p.log[i].item == Stamp(p.bag[a + i], p.bag[a].timeStamp)
    {
      assert Items(p.log)[i] == all[i];
    }
    forall k | 0 <= k < |p.queue|
      ensures p.queue[k] == Stamp(p.bag[a + |p.log| + k], p.bag[a].timeStamp)
    {
      assert (Items(p.log) + p.queue)[|p.log| + k] == all[|p.log| + k];
    }
  }

  ghost predicate Sorted(bag: seq<Message>) {
    forall i, j :: 0 <= i <= j < |bag| ==> bag[i].timeStamp <= bag[j].timeStamp
  }

  /** On a time-ordered recording, queued offsets are never negative and
      never decrease from the head of the queue to its tail. */
  lemma {:induction false} QueuedOffsetsOrdered(p: Player, opts: PlayOptions)
    requires Inv(p, opts) && Sorted(p.bag)
    ensures forall k :: 0 <= k < |p.queue| ==> p.queue[k].timeSinceStart >= 0
    ensures forall k, l :: 0 <= k <= l < |p.queue| ==>
      p.queue[k].timeSinceStart <= p.queue[l].timeSinceStart
  {
    if p.loader != NotStarted && |p.bag| > 0 {
      DeliveriesFollowReadOrder(p, opts);
    }
  }

  /** When no message reaches the first time stamp plus the start offset,
      the skip phase still enqueues the last message, with offset 0, and
      leaves the reader exhausted. */
  lemma ExhaustiveSkipKeepsLast(bag: seq<Message>, opts: PlayOptions)
    requires |bag| > 0
    requires forall j :: 0 <= j < |bag| ==> bag[j].timeStamp < Threshold(bag, opts.startTimeNs)
    ensures var p := LoadStart(Initial(bag), opts);
            p.queue == [ReplayableMessage(bag[|bag| - 1], 0)] && !p.HasNext()
  {
    assert bag[0..] == bag;
  }

  /** The lost tail: the inner playback loop returns on an empty queue
      without looking at the loader. If the loader then reads the rest of
      the recording and returns before the outer loop looks, playback ends
      for good with all of that rest still queued; none of it is published. */
  lemma LoaderReturningDuringSleepStrandsTail(p: Player, opts: PlayOptions, t1: int, t2: int)
    requires p.readPos <= |p.bag| && p.HasNext()
    requires p.engine == Dequeuing && p.queue == [] && p.loader == Filling
    requires 0 < LowerBoundary(opts.readAheadQueueSize)
    requires |p.bag| - p.readPos <= opts.readAheadQueueSize
    ensures var p1 := Next(p, opts, PlayPass(t1));
            var p2 := Next(p1, opts, FillPass);
            var p3 := Next(p2, opts, FillPass);
            var p4 := Next(p3, opts, PlayPass(t2));
            && p1.engine == Returned
            && p4.engine == Exited && p4.loader == Done
            && |p4.queue| == |p.bag| - p.readPos > 0
            && p4.log == p.log
            && forall t :: Next(p4, opts, PlayPass(t)) == p4
  {
  }

  function ThreeMessages(): seq<Message> {
    [Message("t", 0, []), Message("t", 100_000_000, []), Message("t", 250_000_000, [])]
  }

  /** With no start offset, a recording that fits below the low watermark
      is read whole by the skip phase and the first refill, every message
      stamped against the first one. */
  lemma SmallRecordingLoadsWhole(bag: seq<Message>, opts: PlayOptions)
    requires |bag| > 0 && opts.startTimeNs <= 0
    requires 1 < LowerBoundary(opts.readAheadQueueSize) && |bag| <= opts.readAheadQueueSize
    ensures var p := Next(Next(Initial(bag), opts, SkipPhase), opts, FillPass);
            && p.queue == StampAll(bag, bag[0].timeStamp)
            && !p.HasNext()
            && p.engine == Idle && p.status == Playing && p.lastStatus == None && p.log == []
  {
  }

  /** Playing from a fresh anchor, three passes made at the start instant
      each sleep until their message is due. */
  lemma ThreePassesOnSchedule(p: Player, opts: PlayOptions, t0: int)
    requires p.readPos <= |p.bag|
    requires p.engine == Idle && p.status == Playing && p.lastStatus == None && p.log == []
    requires |p.queue| == 3
    requires forall k :: 0 <= k < 3 ==> 0 <= p.queue[k].timeSinceStart
    ensures Run(p, opts, [BeginPlay(t0), PlayPass(t0), PlayPass(t0), PlayPass(t0)]).log
         == [Published(p.queue[0], t0 + p.queue[0].timeSinceStart),
             Published(p.queue[1], t0 + p.queue[1].timeSinceStart),
             Published(p.queue[2], t0 + p.queue[2].timeSinceStart)]
  {
    PlaybackFollowsAnchor(p, opts, t0, [t0, t0, t0]);
    assert PlayPasses([t0, t0, t0]) == [PlayPass(t0), PlayPass(t0), PlayPass(t0)];
    assert [BeginPlay(t0)] + PlayPasses([t0, t0, t0])
        == [BeginPlay(t0), PlayPass(t0), PlayPass(t0), PlayPass(t0)];
  }

  /** A recording of three time-ordered messages, small enough to be loaded
      by one refill, is published with the recorded spacing: each message at
      the start instant plus its distance from the first. */
  lemma LoadAndPlayThree(bag: seq<Message>, opts: PlayOptions, t0: int)
    requires |bag| == 3 && opts.startTimeNs <= 0
    requires 1 < LowerBoundary(opts.readAheadQueueSize) && 3 <= opts.readAheadQueueSize
    requires bag[0].timeStamp <= bag[1].timeStamp <= bag[2].timeStamp
    ensures var d := bag[0].timeStamp;
            var p := Run(Initial(bag), opts,
                         [SkipPhase, FillPass, BeginPlay(t0), PlayPass(t0), PlayPass(t0), PlayPass(t0)]);
            p.log == [Published(Stamp(bag[0], d), t0),
                      Published(Stamp(bag[1], d), t0 + (bag[1].timeStamp - d)),
                      Published(Stamp(bag[2], d), t0 + (bag[2].timeStamp - d))]
  {
    var playing := [BeginPlay(t0), PlayPass(t0), PlayPass(t0), PlayPass(t0)];
    SmallRecordingLoadsWhole(bag, opts);
    var p1 := Next(Initial(bag), opts, SkipPhase);
    var p2 := Next(p1, opts, FillPass);
    ThreePassesOnSchedule(p2, opts, t0);
    RunCons(p1, opts, FillPass, playing);
    RunCons(Initial(bag), opts, SkipPhase, [FillPass] + playing);
    assert [SkipPhase] + ([FillPass] + playing)
        == [SkipPhase, FillPass, BeginPlay(t0), PlayPass(t0), PlayPass(t0), PlayPass(t0)];
  }

  /** Three messages 0, 100 and 250 ms apart with a read-ahead size of 10:
      they are loaded in one refill and published 0, 100 and 250 ms after
      the playback loop starts. */
  lemma ThreeMessagesKeepTheirSpacing(t0: int)
    ensures var bag := ThreeMessages();
            var p := Run(Initial(bag), PlayOptions(10, 0),
                         [SkipPhase, FillPass, BeginPlay(t0), PlayPass(t0), PlayPass(t0), PlayPass(t0)]);
            p.log == [Published(Stamp(bag[0], 0), t0),
                      Published(Stamp(bag[1], 0), t0 + 100_000_000),
                      Published(Stamp(bag[2], 0), t0 + 250_000_000)]
  {
    LoadAndPlayThree(ThreeMessages(), PlayOptions(10, 0), t0);
  }

  /** An empty recording: the loader returns at once, and the playback loop
      returns from its first pass and then ends for good without publishing
      anything. */
  lemma EmptyRecordingFinishes(opts: PlayOptions, t0: int)
    ensures var p := Run(Initial([]), opts,
                         [SkipPhase, FillPass, BeginPlay(t0), PlayPass(t0), PlayPass(t0)]);
            p.engine == Exited && p.finished && p.log == []
  {
    var p1 := Next(Initial([]), opts, SkipPhase);
    var p2 := Next(p1, opts, FillPass);
    assert p2.loader == Done;
    var p3 := Next(p2, opts, BeginPlay(t0));
    var p4 := Next(p3, opts, PlayPass(t0));
    var p5 := Next(p4, opts, PlayPass(t0));
    assert p5.engine == Exited && p5.finished && p5.log == [];
    RunCons(p4, opts, PlayPass(t0), []);
    RunCons(p3, opts, PlayPass(t0), [PlayPass(t0)]);
    RunCons(p2, opts, BeginPlay(t0), [PlayPass(t0), PlayPass(t0)]);
    RunCons(p1, opts, FillPass, [BeginPlay(t0), PlayPass(t0), PlayPass(t0)]);
    RunCons(Initial([]), opts, SkipPhase, [FillPass, BeginPlay(t0), PlayPass(t0), PlayPass(t0)]);
  }
}
