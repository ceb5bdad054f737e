/**
  The storage loader: the skip phase that picks the anchor message, the
  refill that tops the queue up to a boundary, and the low-watermark test
  that decides when a refill happens.
 */
module Loader {
  import opened PlayerTypes

  /** The read-ahead low watermark is this fraction of the queue size. */
  const LowerBoundNumerator: nat := 9
  const LowerBoundDenominator: nat := 10

  /** `a` is where the skip phase stops in `msgs`: every earlier message is
      below `threshold`, and `msgs[a]` reaches it or is the last message. */
  ghost predicate IsAnchor(msgs: seq<Message>, threshold: int, a: nat) {
    && a < |msgs|
    && (forall j :: 0 <= j < a ==> msgs[j].timeStamp < threshold)
    && (msgs[a].timeStamp >= threshold || a == |msgs| - 1)
  }

  lemma AnchorUnique(msgs: seq<Message>, threshold: int, a: nat, b: nat)
    requires IsAnchor(msgs, threshold, a) && IsAnchor(msgs, threshold, b)
    ensures a == b
  {
  }

  /** The skip threshold: the first message's time stamp plus the start offset. */
  function Threshold(msgs: seq<Message>, startNs: int): int
    requires |msgs| > 0
  {
    msgs[0].timeStamp + startNs
  }

  /** The skip loop, from the message at index `i` onwards. */
  function ScanFrom(msgs: seq<Message>, threshold: int, i: nat): (a: nat)
    requires i < |msgs|
    requires forall j :: 0 <= j < i ==> msgs[j].timeStamp < threshold
    ensures i <= a && IsAnchor(msgs, threshold, a)
    decreases |msgs| - i
  {
    if msgs[i].timeStamp >= threshold || i == |msgs| - 1 then i
    else ScanFrom(msgs, threshold, i + 1)
  }

  /** Index of the anchor message of a non-empty reader. The threshold is
      exact here; the source's double-precision sum rounds it. */
  function AnchorIndex(msgs: seq<Message>, startNs: int): (a: nat)
    requires |msgs| > 0
    ensures IsAnchor(msgs, Threshold(msgs, startNs), a)
  {
    ScanFrom(msgs, Threshold(msgs, startNs), 0)
  }

  /** The skip loop as the source writes it: keep the last message read and
      read on while the reader has more and the kept one is below the
      threshold. An empty reader has no anchor. */
  method ReadToAnchor(reader: seq<Message>, startNs: int) returns (anchor: Option<nat>)
    ensures anchor.None? <==> |reader| == 0
    ensures anchor.Some? ==> IsAnchor(reader, Threshold(reader, startNs), anchor.value)
    ensures anchor.Some? ==> anchor.value == AnchorIndex(reader, startNs)
  {
    if |reader| == 0 {
      return None;
    }
    var threshold := reader[0].timeStamp + startNs;
    var current := 0;
    while current + 1 < |reader|
      invariant current < |reader|
      invariant forall j :: 0 <= j < current ==> reader[j].timeStamp < threshold
    {
      if reader[current].timeStamp >= threshold {
        break;
      }
      current := current + 1;
    }
    AnchorUnique(reader, threshold, current, AnchorIndex(reader, startNs));
    return Some(current);
  }

  /**
    The skip phase of `load_storage_content`. On a reader with messages left
    it reads up to the anchor, enqueues that one message with offset 0 and
    makes its time stamp both recorded-time anchors; on an exhausted reader
    it enqueues nothing. Either way the loader then enters its fill loop.
   */
  function LoadStart(p: Player, opts: PlayOptions): (p': Player)
    requires p.readPos <= |p.bag|
    ensures p'.loader == Filling
    ensures !p.HasNext() ==> p' == p.(loader := Filling)
    ensures p.HasNext() ==>
      var rest := p.bag[p.readPos..];
      var a := p'.readPos - 1;
      && p.readPos <= a < |p.bag|
      && IsAnchor(rest, Threshold(rest, opts.startTimeNs), a - p.readPos)
      && p'.queue == p.queue + [ReplayableMessage(p.bag[a], 0)]
      && p'.bagStartTime == p.bag[a].timeStamp
      && p'.timeFirstMessage == p.bag[a].timeStamp
      && p' == p.(readPos := a + 1, queue := p'.queue, loader := Filling,
                  bagStartTime := p'.bagStartTime, timeFirstMessage := p'.timeFirstMessage)
  {
    if !p.HasNext() then p.(loader := Filling)
    else
      var a := p.readPos + AnchorIndex(p.bag[p.readPos..], opts.startTimeNs);
      var anchorMessage := ReplayableMessage(p.bag[a], 0);
      p.(readPos := a + 1,
         queue := p.queue + [anchorMessage],
         bagStartTime := p.bag[a].timeStamp,
         timeFirstMessage := p.bag[a].timeStamp,
         loader := Filling)
  }

  /**
    The counting loop of `enqueue_up_to_boundary`: the counter `i` runs from
    the queue size at entry up to `boundary`, and every pass reads one
    message, stamps it against `anchor` and enqueues it, stopping early when
    the reader is exhausted. Returns the queue and the reader position.
   */
  function EnqueueFrom(queue: seq<ReplayableMessage>, reader: seq<Message>, pos: nat,
                       i: nat, anchor: int, boundary: nat): (r: (seq<ReplayableMessage>, nat))
    requires pos <= |reader|
    ensures var n := if i < boundary then Min(boundary - i, |reader| - pos) else 0;
            && r.1 == pos + n
            && r.0 == queue + StampAll(reader[pos..pos + n], anchor)
    decreases boundary - i
  {
    if i >= boundary || pos == |reader| then (queue, pos)
    else
      var r := EnqueueFrom(queue + [Stamp(reader[pos], anchor)], reader, pos + 1, i + 1, anchor, boundary);
      var n := Min(boundary - i, |reader| - pos);
      assert StampAll(reader[pos..pos + n], anchor)
          == [Stamp(reader[pos], anchor)] + StampAll(reader[pos + 1..pos + n], anchor);
      r
  }

  /**
    `enqueue_up_to_boundary` on the player: below the boundary it reads and
    enqueues, in read order, as many messages as fit below the boundary or
    as remain, each stamped with its offset from `timeFirstMessage`; at or
    above the boundary it changes nothing.
   */
  function EnqueueUpToBoundary(p: Player, boundary: nat): (p': Player)
    requires p.readPos <= |p.bag|
    ensures |p.queue| >= boundary ==> p' == p
    ensures |p.queue| < boundary ==>
      p'.readPos - p.readPos == Min(boundary - |p.queue|, |p.bag| - p.readPos)
    ensures p.readPos <= p'.readPos <= |p.bag|
    ensures |p'.queue| == |p.queue| + (p'.readPos - p.readPos)
    ensures p'.queue[..|p.queue|] == p.queue
    ensures forall k :: |p.queue| <= k < |p'.queue| ==>
      && p'.queue[k].message == p.bag[p.readPos + (k - |p.queue|)]
      && p'.queue[k].timeSinceStart == p'.queue[k].message.timeStamp - p.timeFirstMessage
    ensures |p'.queue| <= Max(|p.queue|, boundary)
    ensures p' == p.(queue := p'.queue, readPos := p'.readPos)
  {
    var r := EnqueueFrom(p.queue, p.bag, p.readPos, |p.queue|, p.timeFirstMessage, boundary);
    p.(queue := r.0, readPos := r.1)
  }

  /** `read_ahead_queue_size * 0.9` truncated to an integer, computed exactly. */
  function LowerBoundary(readAheadQueueSize: nat): (r: nat)
    ensures LowerBoundDenominator * r <= LowerBoundNumerator * readAheadQueueSize
    ensures LowerBoundNumerator * readAheadQueueSize < LowerBoundDenominator * (r + 1)
    ensures r <= readAheadQueueSize
    ensures readAheadQueueSize > 0 ==> r < readAheadQueueSize
  {
    readAheadQueueSize * LowerBoundNumerator / LowerBoundDenominator
  }

  /**
    One pass of the fill loop of `load_storage_content`. With the reader
    exhausted the loader returns. Otherwise it refills up to the read-ahead
    size only when the queue is below the low watermark, and else idles.
   */
  function FillIteration(p: Player, opts: PlayOptions): (p': Player)
    requires p.readPos <= |p.bag|
    ensures !p.HasNext() ==> p' == p.(loader := Done)
    ensures p.HasNext() ==> p'.loader == p.loader
    ensures p.HasNext() && |p.queue| >= LowerBoundary(opts.readAheadQueueSize) ==> p' == p
    ensures p'.queue != p.queue || p'.readPos != p.readPos ==>
      p.HasNext() && |p.queue| < LowerBoundary(opts.readAheadQueueSize)
    ensures p.HasNext() && |p.queue| < LowerBoundary(opts.readAheadQueueSize) ==>
      && p'.readPos > p.readPos
      && |p'.queue| == Min(opts.readAheadQueueSize, |p.queue| + (|p.bag| - p.readPos))
      && p' == EnqueueUpToBoundary(p, opts.readAheadQueueSize)
  {
    if !p.HasNext() then p.(loader := Done)
    else if |p.queue| < LowerBoundary(opts.readAheadQueueSize) then
      EnqueueUpToBoundary(p, opts.readAheadQueueSize)
    else p
  }

  /** With a read-ahead size of 0 or 1 the low watermark is 0, so no queue is
      ever below it: while the reader has messages, every pass of the fill
      loop idles. Nothing past the anchor is read and the loader never
      returns. */
  lemma TinyReadAheadStalls(p: Player, opts: PlayOptions)
    requires p.readPos <= |p.bag| && p.HasNext()
    requires opts.readAheadQueueSize <= 1
    ensures LowerBoundary(opts.readAheadQueueSize) == 0
    ensures FillIteration(p, opts) == p
  {
  }

  /** With the exact threshold and a start offset of 0, the first message
      is always the anchor. */
  lemma ZeroOffsetAnchorsFirst(msgs: seq<Message>)
    requires |msgs| > 0
    ensures AnchorIndex(msgs, 0) == 0
  {
  }
}
