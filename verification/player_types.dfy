/**
  The data model of the bag player: recorded messages, the replayable
  messages held in the read-ahead queue, the play options and the state
  record of one `Player`.

  The player's threads are abstracted away: the state record holds
  everything the loader, the playback loop and the key handler share, and
  each of their operations is one atomic step on it (see the other modules).
 */
module PlayerTypes {

  /** The two playback states of the player. */
  datatype PlayingStatus = Playing | Pause

  datatype Option<T> = None | Some(value: T) {
    function GetOr(default: T): T {
      match this
      case Some(v) => v
      case None => default
    }
  }

  /** A message as the storage reader yields it; `timeStamp` is in nanoseconds. */
  datatype Message = Message(topic: string, timeStamp: int, data: seq<bv8>)

  /** A queued message together with its offset from the playback anchor. */
  datatype ReplayableMessage = ReplayableMessage(message: Message, timeSinceStart: int)

  /** `startTimeNs` is the start offset, already converted to integer nanoseconds. */
  datatype PlayOptions = PlayOptions(readAheadQueueSize: nat, startTimeNs: int)

  /** What happened to a message once it left the queue: it was published at
      wall-clock instant `at`, or it was dequeued while paused and dropped. */
  datatype Delivery =
    | Published(item: ReplayableMessage, at: int)
    | Dropped(item: ReplayableMessage)

  /** Progress of `load_storage_content`: not yet launched, in its fill loop, returned. */
  datatype LoaderPhase = NotStarted | Filling | Done

  /** Progress of the playback loop: not yet entered, dequeuing, blocked in the
      pause wait after dropping a message, returned from the inner loop on an
      empty queue (and sleeping before the outer loop looks at the loader),
      or returned for good. */
  datatype EngineStage = Idle | Dequeuing | AwaitingResume | Returned | Exited

  /**
    The shared state of one player.
    - `bag` is everything the storage reader will ever yield and `readPos`
      how much of it has been read: the reader has a next message iff
      `readPos < |bag|`.
    - `startTime` is the wall-clock anchor, `bagStartTime` and
      `timeFirstMessage` the recorded-time anchor.
    - `lastStatus` is the playback loop's function-local static: `None`
      until its first initialisation. The source shares it between all
      players of a process; one player per process is assumed.
    - `log` records every message that left the queue, in order; publishing
      is an append to it.
   */
  datatype Player = Player(
    bag: seq<Message>,
    readPos: nat,
    queue: seq<ReplayableMessage>,
    status: PlayingStatus,
    statusString: string,
    finished: bool,
    bagStartTime: int,
    timeFirstMessage: int,
    startTime: int,
    playingTime: int,
    lastStatus: Option<PlayingStatus>,
    loader: LoaderPhase,
    engine: EngineStage,
    log: seq<Delivery>)
  {
    predicate HasNext() {
      readPos < |bag|
    }
  }

  const RunningString: string := "RUNNING"
  const PausedString: string := "PAUSED"

  /** The display string that goes with each status. */
  function StatusString(s: PlayingStatus): string {
    if s == Pause then PausedString else RunningString
  }

  /** A freshly constructed player over the given storage contents. The
      source leaves the time fields uninitialised; they start at 0 here and
      every one of them is written before the core reads it. */
  function Initial(bag: seq<Message>): Player {
    Player(bag, 0, [], Playing, RunningString, false, 0, 0, 0, 0,
           None, NotStarted, Idle, [])
  }

  function Min(a: int, b: int): int {
    if a <= b then a else b
  }

  function Max(a: int, b: int): int {
    if a <= b then b else a
  }

  /** A message stamped with its offset from the recorded-time anchor. */
  function Stamp(m: Message, anchor: int): ReplayableMessage {
    ReplayableMessage(m, m.timeStamp - anchor)
  }

  function StampAll(ms: seq<Message>, anchor: int): (r: seq<ReplayableMessage>)
    ensures |r| == |ms|
  {
    seq(|ms|, i requires 0 <= i < |ms| => Stamp(ms[i], anchor))
  }

  /** The messages of a delivery log, in order. */
  function Items(log: seq<Delivery>): (r: seq<ReplayableMessage>)
    ensures |r| == |log|
  {
    seq(|log|, i requires 0 <= i < |log| => log[i].item)
  }

  lemma StampAllAppend(a: seq<Message>, b: seq<Message>, anchor: int)
    ensures StampAll(a + b, anchor) == StampAll(a, anchor) + StampAll(b, anchor)
  {
  }

  lemma ItemsAppend(log: seq<Delivery>, d: Delivery)
    ensures Items(log + [d]) == Items(log) + [d.item]
  {
  }

  /** Moving the head of the queue to the end of the log keeps their
      concatenation, the order in which messages were enqueued. */
  lemma PopKeepsOrder(log: seq<Delivery>, queue: seq<ReplayableMessage>, d: Delivery)
    requires queue != [] && d.item == queue[0]
    ensures Items(log + [d]) + queue[1..] == Items(log) + queue
  {
    ItemsAppend(log, d);
    assert queue == [queue[0]] + queue[1..];
  }
}
