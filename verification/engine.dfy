/**
  The playback loop: `play_messages_from_queue` sets the wall-clock anchor,
  and every pass of `play_messages_until_queue_empty` dequeues one message
  and publishes it on schedule or, while paused, drops it and waits.
  Wall-clock time is the input `now`; sleeping until an instant is modelled
  by publishing at the later of `now` and that instant.
 */
module Engine {
  import opened PlayerTypes

  /** `play_messages_from_queue` entering the loop: the wall-clock anchor is
      the current instant. */
  function BeginPlayback(p: Player, now: int): (p': Player)
    requires p.engine == Idle
    ensures p'.engine == Dequeuing && !p'.finished
    ensures p'.startTime == now
    ensures p' == p.(engine := Dequeuing, finished := false, startTime := now)
  {
    p.(engine := Dequeuing, finished := false, startTime := now)
  }

  /** The wall-clock instant a message is due under the current anchor. */
  function Scheduled(p: Player, item: ReplayableMessage): int {
    p.startTime + item.timeSinceStart
  }

  /**
    One pass of `play_messages_until_queue_empty`, of its pause wait, or of
    the outer loop of `play_messages_from_queue`.
    - Waiting after a paused dequeue: nothing happens until the status is
      PLAYING again; then `lastStatus` becomes PAUSE and dequeuing resumes.
    - Empty queue: the inner loop returns with `finished` set, without
      looking at the loader.
    - Returned: only now does the outer loop look at the loader. If it has
      returned, playback ends for good, whatever the queue holds by then;
      otherwise the inner loop is entered again with `finished` cleared.
    - Otherwise the head leaves the queue. `lastStatus` is first initialised
      to the current status if it never was. While PLAYING the message is
      published, after a resume from PAUSE at once and with the anchor moved
      so that it is due exactly now, else no earlier than its scheduled
      instant; `playingTime` becomes its time stamp. While PAUSE it is
      dropped and the loop waits.
   */
  function Dispatch(p: Player, now: int): (p': Player)
    ensures p.engine in {Idle, Exited} ==> p' == p
    ensures p.engine == AwaitingResume ==>
      if p.status == Pause then p' == p
      else p' == p.(engine := Dequeuing, lastStatus := Some(Pause))
    ensures p.engine == Dequeuing && p.queue == [] ==>
      p' == p.(finished := true, engine := Returned)
    ensures p.engine == Returned ==>
      && (p'.engine == Exited <==> p.loader == Done)
      && p'.finished == (p.finished && p.loader == Done)
      && p'.queue == p.queue && p'.log == p.log
      && p' == p.(finished := p'.finished, engine := p'.engine)
    ensures p.engine == Dequeuing && p.queue != [] ==>
      var item := p.queue[0];
      && p'.queue == p.queue[1..]
      && !p'.finished
      && |p'.log| == |p.log| + 1
      && p'.log[..|p.log|] == p.log
      && p'.log[|p.log|].item == item
      && (p'.log[|p.log|].Published? <==> p.status == Playing)
      && p' == p.(queue := p'.queue, log := p'.log, finished := false,
                  startTime := p'.startTime, playingTime := p'.playingTime,
                  lastStatus := p'.lastStatus, engine := p'.engine)
    ensures p.engine == Dequeuing && p.queue != [] && p.status == Playing ==>
      var item := p.queue[0];
      var at := p'.log[|p.log|].at;
      && at >= now
      && at >= Scheduled(p', item)
      && (at == now || at == Scheduled(p', item))
      && p'.playingTime == item.message.timeStamp
      && p'.lastStatus == Some(Playing)
      && p'.engine == Dequeuing
      && (p.lastStatus == Some(Pause) ==> Scheduled(p', item) == now)
      && (p.lastStatus != Some(Pause) ==> p'.startTime == p.startTime)
    ensures p.engine == Dequeuing && p.queue != [] && p.status == Pause ==>
      && p'.playingTime == p.playingTime
      && p'.startTime == p.startTime
      && p'.lastStatus == Some(p.lastStatus.GetOr(Pause))
      && p'.engine == AwaitingResume
    ensures p'.status == p.status && p'.statusString == p.statusString
    ensures p'.bag == p.bag && p'.readPos == p.readPos && p'.loader == p.loader
    ensures Items(p'.log) + p'.queue == Items(p.log) + p.queue
  {
    match p.engine
    case Idle => p
    case Exited => p
    case AwaitingResume =>
      if p.status == Pause then p
      else p.(engine := Dequeuing, lastStatus := Some(Pause))
    case Returned =>
      if p.loader == Done then p.(engine := Exited)
      else p.(engine := Dequeuing, finished := false)
    case Dequeuing =>
      if p.queue == [] then p.(finished := true, engine := Returned)
      else
        var item := p.queue[0];
        var last := p.lastStatus.GetOr(p.status);
        if p.status == Playing then
          var anchor := if last == Pause then now - item.timeSinceStart else p.startTime;
          var at := Max(now, anchor + item.timeSinceStart);
          PopKeepsOrder(p.log, p.queue, Published(item, at));
          p.(queue := p.queue[1..], finished := false, startTime := anchor,
             log := p.log + [Published(item, at)],
             playingTime := item.message.timeStamp, lastStatus := Some(Playing))
        else
          PopKeepsOrder(p.log, p.queue, Dropped(item));
          p.(queue := p.queue[1..], finished := false,
             log := p.log + [Dropped(item)], lastStatus := Some(last),
             engine := AwaitingResume)
  }

  /**
    Drift correction: the message dispatched on a resume from PAUSE is
    published at the resume instant, and the message after it, dispatched
    while still PLAYING, is due exactly its recorded distance later; it is
    published then, or at once if that instant has already passed.
   */
  lemma ResumeKeepsRelativeTiming(p: Player, resumeAt: int, later: int)
    requires p.engine == Dequeuing && p.status == Playing && p.lastStatus == Some(Pause)
    requires |p.queue| >= 2
    ensures var q := Dispatch(p, resumeAt);
            var r := Dispatch(q, later);
            var gap := p.queue[1].timeSinceStart - p.queue[0].timeSinceStart;
            && q.log[|p.log|] == Published(p.queue[0], resumeAt)
            && r.log[|p.log| + 1] == Published(p.queue[1], Max(later, resumeAt + gap))
  {
  }
}
