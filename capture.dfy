/** The capture side of hindi_voice_assistant.py: the audio callback's
    decimation by three and the bounded queue `q` it fills, which the control
    loop drains with `clear_audio_queue`. */
module Capture {
  import opened Text

  /** A signed 16-bit PCM sample (`np.int16`). */
  type Sample = x: int | -32768 <= x < 32768

  /** One decimated block as it sits in the queue. */
  type Chunk = seq<Sample>

  /** `queue.Queue(maxsize=30)`. */
  const Capacity := 30

  /** `MIC_RATE`, `VOSK_RATE` and `FRAME_SIZE`. */
  const MicRate := 48000
  const RecogniserRate := 16000
  const FrameSize := 4000

  /** `audio_data[::3]`: every third sample, starting with the first. */
  function Decimate(s: seq<Sample>): (r: seq<Sample>)
    ensures |r| == (|s| + 2) / 3
    ensures forall i :: 0 <= i < |r| ==> r[i] == s[3 * i]
  {
    if |s| == 0 then []
    else
      var k := if |s| < 3 then |s| else 3;
      [s[0]] + Decimate(s[k..])
  }

  /** The output length is the ceiling of a third of the input length. */
  lemma DecimatedLength(s: seq<Sample>)
    ensures 3 * |Decimate(s)| >= |s| && 3 * (|Decimate(s)| - 1) < |s|
  {
  }

  /** A block of `FRAME_SIZE` samples is not a multiple of three, so each block
      yields 1334 samples and one second of capture (twelve blocks) yields 16008
      samples rather than `VOSK_RATE`. */
  lemma BlockDecimation(s: seq<Sample>)
    requires |s| == FrameSize
    ensures |Decimate(s)| == 1334
    ensures (MicRate / FrameSize) * |Decimate(s)| == RecogniserRate + 8
  {
  }

  /** The bounded queue between the capture callback and the control loop. */
  class AudioQueue {
    var items: seq<Chunk>

    ghost predicate Valid()
      reads this
    {
      |items| <= Capacity
    }

    constructor ()
      ensures Valid() && items == []
    {
      items := [];
    }

    /** `q.empty()`. */
    method IsEmpty() returns (e: bool)
      ensures e <==> items == []
    {
      e := items == [];
    }

    /** `q.put(chunk)`: on a queue with room the chunk goes to the back. On a
        full queue `put` blocks: `stored` is false, which stands for a put that
        has not returned yet. Nothing is stored now and nothing is dropped or
        evicted; the producer still holds the chunk and offers the same chunk
        again once the queue has room. */
    method Put(c: Chunk) returns (stored: bool)
      requires Valid()
      modifies this
      ensures Valid()
      ensures stored <==> |old(items)| < Capacity
      ensures items == if stored then old(items) + [c] else old(items)
    {
      stored := |items| < Capacity;
      if stored {
        items := items + [c];
      }
    }

    /** `q.get()`: the oldest chunk leaves the queue. On an empty queue `get`
        blocks: `None`, and nothing changes. */
    method Get() returns (c: Option<Chunk>)
      requires Valid()
      modifies this
      ensures Valid()
      ensures old(items) == [] ==> c == None && items == []
      ensures old(items) != [] ==> c == Some(old(items)[0]) && items == old(items)[1..]
    {
      if items == [] {
        c := None;
      } else {
        c := Some(items[0]);
        items := items[1..];
      }
    }

    /** `clear_audio_queue`: take chunks until the queue is empty. Every chunk
        queued before the call is discarded, oldest first; on an empty queue
        nothing happens. */
    method Clear() returns (ghost dropped: seq<Chunk>)
      requires Valid()
      modifies this
      ensures Valid() && items == []
      ensures dropped == old(items)
      ensures old(items) == [] ==> dropped == []
    {
      dropped := [];
      var empty := IsEmpty();
      while !empty
        invariant Valid()
        invariant dropped + items == old(items)
        invariant empty <==> items == []
        decreases |items|
      {
        var c := Get();
        dropped := dropped + [c.value];
        empty := IsEmpty();
      }
    }

    /** `callback`: decimate the block and put it on the queue. `stored` false
        means the callback is still blocked inside `put`: the block is not lost,
        and the same decimated block is offered again once the queue has room. */
    method Callback(block: seq<Sample>) returns (stored: bool)
      requires Valid()
      modifies this
      ensures Valid()
      ensures stored <==> |old(items)| < Capacity
      ensures items == if stored then old(items) + [Decimate(block)] else old(items)
    {
      stored := Put(Decimate(block));
    }
  }
}
