# Bag player core, modelled in Dafny

This project models the sequential kernel of the rosbag2 `Player`. The player
replays recorded, time-stamped messages and keeps their original spacing. A
loader fills a read-ahead queue from the storage reader. A playback loop
dequeues messages and publishes them at wall-clock instants derived from each
message's offset to an anchor. A key handler toggles pause and plays single
messages while paused.

The threads are abstracted away. One immutable record, `PlayerTypes.Player`,
holds the shared state:

- the reader, as the whole recording plus a read position;
- the queue;
- the status and its display string;
- the recorded-time and wall-clock anchors and `playingTime`;
- the playback loop's function-local `last_status`, as an explicit `Option`
  that stays `None` until its first initialisation. In the source it is a
  `static` local of a member function (player.cpp:305), so it is initialised
  once per process and shared by every `Player`. The model assumes one player
  per process, and each new player starts with it uninitialised;
- the phase of the loader and the stage of the playback loop;
- a log of every message that left the queue. Publishing is an append to it.

The status is a two-valued datatype, PLAYING or PAUSE, as in the source's
`PlayingStatus` enum. Each operation of a thread is one atomic step: a pure
function from player to player. `Session.Next` interleaves the steps. `Session.Inv` holds after any
sequence of them.

Modules:

- `PlayerTypes` (player.hpp): the data model, the initial player and the
  stamping of messages with their offset.
- `Loader`: the skip phase, `enqueue_up_to_boundary` and the low-watermark
  fill loop.
- `Control`: `switch_pause_status` and `play_message_one_step`.
- `Engine`: the anchor and dispatch logic of the playback loop.
- `Session`: the events, the invariant, first-in-first-out delivery and
  concrete scenarios.

Wall-clock time is an integer input `now`. Sleeping until an instant `t` is
modelled as publishing at `Max(now, t)`. The start offset is given in integer
nanoseconds. The low watermark is `read_ahead_queue_size * 9 / 10`.

Behaviours of the source that the model keeps as written:

- If no message reaches the start threshold, the skip phase still enqueues
  the last message read. It does not enqueue nothing (`Session.ExhaustiveSkipKeepsLast`).
- A message dequeued by the playback loop while paused is dropped, not held
  for later publication.
- A read-ahead size of 0 is not rejected. The queue then holds at most the
  single anchor message, so the proved bound is `Max(1, read_ahead_queue_size)`.
- With a read-ahead size of 0 or 1 the low watermark is 0. The fill loop then
  never refills and never returns while the reader has messages, so only the
  anchor message is ever played (`Loader.TinyReadAheadStalls`).
- The inner playback loop returns on an empty queue without looking at the
  loader. The outer loop looks only after a sleep. If the loader reads the rest
  of the recording and returns in between, playback ends for good with those
  messages still queued (`Session.LoaderReturningDuringSleepStrandsTail`).

## Model

| member | source | states |
|---|---|---|
| Loader.ScanFrom | rosbag2_transport/src/rosbag2_transport/player.cpp:234-241 | The skip loop stops at the first message at or above the threshold, or at the last message when none reaches it. Every message before the stopping point is below the threshold. |
| Loader.AnchorIndex | rosbag2_transport/src/rosbag2_transport/player.cpp:230-242 | For a non-empty reader, the anchor is the first message whose time stamp reaches the first time stamp plus the start offset. If no message reaches it, the anchor is the last message. |
| Loader.ReadToAnchor | rosbag2_transport/src/rosbag2_transport/player.cpp:230-244 | The source's read loop finds no anchor exactly when the reader is empty. Otherwise it stops at the anchor characterised above, the same index the recursive definition gives. |
| Loader.LoadStart | rosbag2_transport/src/rosbag2_transport/player.cpp:225-245 | On a non-empty reader, exactly one message is enqueued: the anchor, with offset 0. Both `bag_start_time_` and the anchor time become its time stamp, and the reader is left just past it. An exhausted reader enqueues nothing. Either way the loader enters its fill loop. |
| Loader.EnqueueFrom | rosbag2_transport/src/rosbag2_transport/player.cpp:263-273 | Running the counter from `i` up to the boundary reads `min(boundary - i, remaining)` messages (none once `i` reaches the boundary). It appends them in read order, each stamped with time stamp minus anchor. |
| Loader.EnqueueUpToBoundary | rosbag2_transport/src/rosbag2_transport/player.cpp:260-274 | Below the boundary, it enqueues in read order exactly `min(boundary - size, remaining)` messages. Each gets `time_since_start = timestamp - anchor`. At or above the boundary it changes nothing. The queue never grows beyond `max(size, boundary)`, and nothing else changes. |
| Loader.LowerBoundary | rosbag2_transport/src/rosbag2_transport/player.hpp:68 | The low watermark is 0.9 times the read-ahead size, rounded down. It never exceeds that size, and it is strictly below it when the size is positive. |
| Loader.TinyReadAheadStalls | rosbag2_transport/src/rosbag2_transport/player.cpp:247-257 | With a read-ahead size of 0 or 1 the low watermark is 0, so while the reader has messages every pass of the fill loop changes nothing: no refill and no return. |
| Loader.FillIteration | rosbag2_transport/src/rosbag2_transport/player.cpp:247-257 | The fill loop returns once the reader is exhausted. It reads or enqueues only when the reader has more messages and the queue is below the low watermark. A refill makes progress and fills the queue to `min(read-ahead size, size + remaining)`. At or above the watermark with messages left, the pass changes nothing. |
| Control.SwitchPauseStatus | rosbag2_transport/src/rosbag2_transport/player.cpp:73-87 | PAUSE becomes PLAYING with "RUNNING". Any other status becomes PAUSE with "PAUSED". Nothing else changes. |
| Control.SwitchTwice | rosbag2_transport/src/rosbag2_transport/player.cpp:73-87 | Toggling twice restores the status. It restores the whole player whenever the display string matched the status. |
| Control.PlayMessageOneStep | rosbag2_transport/src/rosbag2_transport/player.cpp:288-298 | Unless PAUSE, or when the queue is empty, nothing changes. When paused with a message queued, it removes exactly the head, publishes it and sets `playing_time_` to its time stamp. The queue's order of delivery is kept. |
| Engine.BeginPlayback | rosbag2_transport/src/rosbag2_transport/player.cpp:276-280 | Entering the playback loop makes the wall-clock anchor the current instant, clears `finished_` and changes nothing else. What the anchor means for later passes is stated by `Session.PlaybackFollowsAnchor`. |
| Engine.Dispatch | rosbag2_transport/src/rosbag2_transport/player.cpp:276-332 | A pass takes exactly the head of the queue. On an empty queue the inner loop returns with `finished_` set, without looking at the loader. Only the next step, after the sleep, looks: playback ends for good iff the loader has returned, whatever is queued by then, and otherwise the inner loop is entered again with `finished_` cleared. The head is published iff the status is PLAYING, no earlier than `start_time_ + time_since_start`, with `playing_time_` set to its time stamp. After a resume from PAUSE, the anchor is first reset so that the message is due exactly now. A dequeue changes only the queue, the log, `finished_`, the anchor, `playing_time_`, `last_status` and the loop's stage; the recording, the reader and the recorded-time anchors stay as they were. A message dequeued while paused is dropped. `playing_time_` and the anchor are then unchanged, and the loop waits until the status leaves PAUSE, when `last_status` becomes PAUSE. |
| Engine.ResumeKeepsRelativeTiming | rosbag2_transport/src/rosbag2_transport/player.cpp:306-317 | After a resume, the first message is published at the resume instant. The next one is published its recorded distance later, or at once if that instant has passed. |
| Session.InitialInv | rosbag2_transport/src/rosbag2_transport/player.hpp:78-80 | A new player is PLAYING with status string "RUNNING", not finished, with nothing queued or published. It satisfies the session invariant. |
| Session.NextPreservesInv | rosbag2_transport/src/rosbag2_transport/player.cpp:225-332 | Every step of the loader, the playback loop and the key handler keeps the invariant. The invariant covers the queue bound, the enqueued stream as the anchored suffix of the recording in order, the status string matching the status, `playing_time_` equal to the last published time stamp, and playback ending for good only after the loader has returned. |
| Session.RunPreservesInv | rosbag2_transport/src/rosbag2_transport/player.cpp:55-71 | Any interleaving of the threads' steps keeps the invariant. |
| Session.PlayingPassesKeepAnchor | rosbag2_transport/src/rosbag2_transport/player.cpp:300-317 | While PLAYING with no resume from PAUSE pending, any number of passes (up to the queue's length) keep `start_time_`, remove that many messages from the head and publish them in order, the i-th at the later of its pass's instant and `start_time_` plus its offset. |
| Session.PlaybackFollowsAnchor | rosbag2_transport/src/rosbag2_transport/player.cpp:276-317 | For any queue and any pass instants: after entering the playback loop at `t0` while PLAYING with no resume pending, the i-th pass publishes the i-th queued message at the later of its own instant and `t0` plus the message's offset. |
| Session.Reachable | rosbag2_transport/src/rosbag2_transport/player.cpp:247-257 | In every reachable state the queue holds at most the read-ahead size of messages, or its one anchor message when that size is 0. |
| Session.DeliveriesFollowReadOrder | rosbag2_transport/src/rosbag2_transport/player.hpp:72 | The queue is first in, first out. The i-th message to leave it is the recorded message i places after the anchor, and the queue holds the ones that follow. So no message read before the anchor is ever enqueued or published. |
| Session.QueuedOffsetsOrdered | rosbag2_transport/src/rosbag2_transport/player.cpp:263-271 | On a time-ordered recording, queued offsets are non-negative and non-decreasing from head to tail. |
| Session.ExhaustiveSkipKeepsLast | rosbag2_transport/src/rosbag2_transport/player.cpp:230-244 | For every non-empty recording in which no message reaches the first time stamp plus the start offset, the skip phase enqueues exactly the last message, with offset 0, and leaves the reader exhausted. |
| Session.LoaderReturningDuringSleepStrandsTail | rosbag2_transport/src/rosbag2_transport/player.cpp:276-286 | When the queue runs dry while the loader is still filling, and the loader then reads the rest of the recording and returns before the outer loop looks, playback ends for good. All of that rest stays queued, none of it is published, and further passes change nothing. |
| Session.SmallRecordingLoadsWhole | rosbag2_transport/src/rosbag2_transport/player.cpp:225-257 | With no start offset, a recording no longer than the read-ahead size whose low watermark exceeds 1 is read whole by the skip phase and the first refill. Every message is stamped against the first one. |
| Session.ThreePassesOnSchedule | rosbag2_transport/src/rosbag2_transport/player.cpp:276-317 | Starting from a fresh anchor with `last_status` not yet initialised, three passes while PLAYING, all at the start instant, each sleep until their message is due: with non-negative offsets, each message is published at the start instant plus its offset. |
| Session.LoadAndPlayThree | rosbag2_transport/src/rosbag2_transport/player.cpp:225-317 | Three time-ordered messages that one refill loads are published at the start instant plus each one's distance from the first. |
| Session.ThreeMessagesKeepTheirSpacing | rosbag2_transport/src/rosbag2_transport/player.cpp:300-317 | Three messages 0, 100 and 250 ms apart are published 0, 100 and 250 ms after playback starts. |
| Session.EmptyRecordingFinishes | rosbag2_transport/src/rosbag2_transport/player.cpp:225-332 | With an empty recording, the loader returns at once. The playback loop returns from its first pass and then ends for good without publishing. |

## Left out

- Terminal raw mode and keyboard capture (`tty_set`, `tty_reset`, `kbhit`, `getch`, `tc_flush_in`, the key thread's polling loop `get_key_control`): operating-system input plumbing. Its two effects are the `KeySpace` and `KeyStep` events.
- The status printer `print_playing_status`: console output with floating-point formatting.
- Threads, futures, `is_storage_completely_loaded`, `wait_for_filled_queue` and the polling sleeps: their timing depends on other threads. Each operation is one atomic step, and the loader having returned stands for the future being ready.
- Threads racing to dequeue (the key handler's step and the playback loop both dequeue): each dequeue is atomic here.
- The sleep inside a playback pass: a pass dequeues (player.cpp:304), sleeps until the message is due (312), then publishes and sets `playing_time_` (314-316) as one step here. In the source the key thread can pause and step during that sleep. It then publishes the next message first, and the sleeping pass afterwards publishes its own and moves `playing_time_` back to the earlier time stamp. The model cannot reach that state.
- The key thread stopping: `get_key_control` leaves its loop once it sees `finished_` (player.cpp:192). Every return of the inner playback loop on an empty queue sets `finished_` for 200 ms (329-330), so the space and `s` keys normally stop working after the first starvation. Here `KeySpace` and `KeyStep` act in every state, even after playback has ended. No event reads `finished`.
- Reader failures: an exception from `read_next` is rethrown into the playback thread by `is_storage_completely_loaded`, which collects the loading future (player.cpp:45-53). The model's reader cannot fail.
- Publication instants: `now` is a free input of each pass, so the instants along the log need not increase. What is proved is that the log, in dequeue order, follows read order.
- `rclcpp::ok()`: taken as always true. Shutdown is not modelled.
- The starvation warning of the outer playback loop: a log line.
- `prepare_publishers` and the ROS `publish` call: foreign calls. A publication is an entry in the delivery log.
- Floating point in the skip threshold: the source computes `time_stamp + options.start_time * 1e9` as a double sum and truncates it into the integer `bag_start_time_` (player.cpp:232). For present-day stamps (about 1.7e18 ns) doubles are 256 ns apart, so the threshold is the first stamp rounded to a multiple of 256 ns. Even with a start offset of 0, whenever the first stamp rounds up, the source skips the first message and anchors at a later one. `Loader.AnchorIndex`, `Loader.LoadStart` and `Session.ExhaustiveSkipKeepsLast` use the exact integer threshold instead (first stamp plus the offset in integer nanoseconds), so with offset 0 the model always anchors at the first message (`Loader.ZeroOffsetAnchorsFirst`).
- Floating point in the low watermark: `read_ahead_queue_size * 0.9` is computed exactly as `read_ahead_queue_size * 9 / 10`. The double product can round differently for very large sizes.
- Fixed-width integers: time stamps and sizes are unbounded integers. Overflow of the 64-bit nanosecond arithmetic is not modelled.
- The uninitialised time fields of the player start at 0. Every one of them is written before the core reads it.
