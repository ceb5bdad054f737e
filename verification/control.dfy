/**
  The key handler's operations: the space bar toggles pause, `s` plays one
  message while paused.
 */
module Control {
  import opened PlayerTypes

  /** `switch_pause_status`: PAUSE becomes PLAYING shown as "RUNNING", and
      every other status becomes PAUSE shown as "PAUSED". */
  function SwitchPauseStatus(p: Player): (p': Player)
    ensures p.status == Pause ==> p'.status == Playing && p'.statusString == "RUNNING"
    ensures p.status != Pause ==> p'.status == Pause && p'.statusString == "PAUSED"
    ensures p'.status != p.status
    ensures p' == p.(status := p'.status, statusString := p'.statusString)
  {
    if p.status == Pause then p.(status := Playing, statusString := RunningString)
    else p.(status := Pause, statusString := PausedString)
  }

  /** Toggling twice restores the status, and restores the whole player when
      its display string matched its status. */
  lemma SwitchTwice(p: Player)
    ensures SwitchPauseStatus(SwitchPauseStatus(p)).status == p.status
    ensures p.statusString == StatusString(p.status) ==>
      SwitchPauseStatus(SwitchPauseStatus(p)) == p
  {
  }

  /**
    `play_message_one_step`: only while paused, and only if the queue has a
    message, removes exactly the head, publishes it at `now` and advances
    `playingTime` to its time stamp. In every other case nothing changes.
   */
  function PlayMessageOneStep(p: Player, now: int): (p': Player)
    ensures p.status != Pause ==> p' == p
    ensures p.queue == [] ==> p' == p
    ensures p.status == Pause && p.queue != [] ==>
      && p'.queue == p.queue[1..]
      && p'.log == p.log + [Published(p.queue[0], now)]
      && p'.playingTime == p.queue[0].message.timeStamp
      && p' == p.(queue := p'.queue, log := p'.log, playingTime := p'.playingTime)
    ensures Items(p'.log) + p'.queue == Items(p.log) + p.queue
  {
    if p.status != Pause || p.queue == [] then p
    else
      var item := p.queue[0];
      PopKeepsOrder(p.log, p.queue, Published(item, now));
      p.(queue := p.queue[1..],
         log := p.log + [Published(item, now)],
         playingTime := item.message.timeStamp)
  }
}
