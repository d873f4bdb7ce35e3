/** The voice-activity segmenter of hindi_asr_vosk.py: frames judged to be speech
    go to the recogniser and into a ten-frame ring buffer; the first non-speech
    frame after speech closes the utterance, takes the recogniser's result and
    reports its text when it is not empty.

    The voice-activity detector and the recogniser are outside the model: the
    first is a predicate on frames, the second a function from the audio fed
    since the last result to the text of that result. */
module Segmenter {

  newtype Byte = x: int | 0 <= x < 256

  /** One 30 ms block of 16-bit mono PCM, as bytes. */
  type Frame = seq<Byte>

  /** `collections.deque(maxlen=10)`. */
  const RingCapacity := 10

  /** `ring_buffer.append(frame)` on a deque with `maxlen`: the frame goes to the
      right end and, when the deque would grow past its bound, the oldest frames
      leave from the left. */
  function RingAppend(ring: seq<Frame>, f: Frame): (r: seq<Frame>)
    ensures |r| == if |ring| < RingCapacity then |ring| + 1 else RingCapacity
    ensures r == (ring + [f])[|ring| + 1 - |r|..]
  {
    var s := ring + [f];
    if |s| <= RingCapacity then s else s[|s| - RingCapacity..]
  }

  /** The last (at most ten) frames of an utterance. */
  function Latest(s: seq<Frame>): seq<Frame> {
    if |s| <= RingCapacity then s else s[|s| - RingCapacity..]
  }

  /** Appending to a ring that holds the latest frames of an utterance gives the
      latest frames of the longer utterance: the deque never loses a recent frame
      and never keeps an old one. */
  lemma RingHoldsLatest(s: seq<Frame>, f: Frame)
    ensures RingAppend(Latest(s), f) == Latest(s + [f])
  {
    var t := s + [f];
    if |s| >= RingCapacity {
      assert Latest(s) + [f] == t[|t| - RingCapacity - 1..];
      assert (Latest(s) + [f])[1..] == t[|t| - RingCapacity..];
    }
  }

  /** What the loop owns: the `voiced` flag and the ring buffer, plus the
      recogniser's state: the frames fed since its last result, every frame it
      was ever fed, how many results were taken, and the texts reported. */
  datatype Snapshot = Snapshot(voiced: bool, ring: seq<Frame>, utterance: seq<Frame>,
                               fed: seq<Frame>, extractions: nat, reported: seq<string>)

  /** A text is reported only when it is not empty. */
  function Report(text: string): (r: seq<string>)
    ensures r == [] <==> text == ""
    ensures r != [] ==> r == [text]
  {
    if text != "" then [text] else []
  }

  /** One iteration of the `while True` loop on a frame. */
  function StepSpec(st: Snapshot, frame: Frame, isSpeech: Frame -> bool,
                    transcribe: seq<Frame> -> string): Snapshot
  {
    if isSpeech(frame) then
      st.(ring := RingAppend(st.ring, frame), voiced := true,
          utterance := st.utterance + [frame], fed := st.fed + [frame])
    else if st.voiced then
      st.(reported := st.reported + Report(transcribe(st.utterance)), extractions := st.extractions + 1,
          utterance := [], voiced := false, ring := [])
    else st
  }

  /** The loop over a sequence of frames, in arrival order. */
  function RunSpec(st: Snapshot, frames: seq<Frame>, isSpeech: Frame -> bool,
                   transcribe: seq<Frame> -> string): Snapshot
    decreases |frames|
  {
    if frames == [] then st
    else RunSpec(StepSpec(st, frames[0], isSpeech, transcribe), frames[1..], isSpeech, transcribe)
  }

  /** The frames the detector calls speech, in order. */
  function Speech(frames: seq<Frame>, isSpeech: Frame -> bool): seq<Frame> {
    if frames == [] then []
    else (if isSpeech(frames[0]) then [frames[0]] else []) + Speech(frames[1..], isSpeech)
  }

  /** The detector's verdict on each frame. */
  function Flags(frames: seq<Frame>, isSpeech: Frame -> bool): (r: seq<bool>)
    ensures |r| == |frames| && forall i :: 0 <= i < |r| ==> r[i] == isSpeech(frames[i])
  {
    seq(|frames|, i requires 0 <= i < |frames| => isSpeech(frames[i]))
  }

  /** Falling edges of a speech signal: positions where speech is followed by
      non-speech, that is, maximal speech runs that a non-speech frame ends. */
  function Falls(flags: seq<bool>): nat
    decreases |flags|
  {
    if |flags| < 2 then 0
    else (if flags[0] && !flags[1] then 1 else 0) + Falls(flags[1..])
  }

  /** The loop's invariant: the ring is bounded and holds the latest frames of
      the current utterance; outside speech there is no utterance; every
      reported text is non-empty. */
  predicate Consistent(st: Snapshot) {
    |st.ring| <= RingCapacity && st.ring == Latest(st.utterance)
    && (!st.voiced ==> st.utterance == [])
    && forall i :: 0 <= i < |st.reported| ==> st.reported[i] != ""
  }

  lemma StepConsistent(st: Snapshot, frame: Frame, isSpeech: Frame -> bool,
                       transcribe: seq<Frame> -> string)
    requires Consistent(st)
    ensures Consistent(StepSpec(st, frame, isSpeech, transcribe))
    ensures StepSpec(st, frame, isSpeech, transcribe).voiced == isSpeech(frame)
  {
    if isSpeech(frame) {
      RingHoldsLatest(st.utterance, frame);
    }
  }

  /** What one iteration adds to the recogniser's input and to the number of
      results taken. */
  lemma StepCounts(st: Snapshot, frame: Frame, isSpeech: Frame -> bool,
                   transcribe: seq<Frame> -> string)
    ensures var next := StepSpec(st, frame, isSpeech, transcribe);
      next.voiced == isSpeech(frame)
      && next.fed == st.fed + (if isSpeech(frame) then [frame] else [])
      && next.extractions == st.extractions + (if st.voiced && !isSpeech(frame) then 1 else 0)
  {
  }

  /** Over any frame sequence the loop keeps its invariant. */
  lemma {:induction false} RunConsistent(st: Snapshot, frames: seq<Frame>, isSpeech: Frame -> bool,
                                         transcribe: seq<Frame> -> string)
    requires Consistent(st)
    ensures Consistent(RunSpec(st, frames, isSpeech, transcribe))
    decreases |frames|
  {
    if frames != [] {
      StepConsistent(st, frames[0], isSpeech, transcribe);
      RunConsistent(StepSpec(st, frames[0], isSpeech, transcribe), frames[1..], isSpeech, transcribe);
    }
  }

  /** Over any frame sequence the recogniser is fed exactly the speech frames,
      in order. */
  lemma {:induction false} RunFeeds(st: Snapshot, frames: seq<Frame>, isSpeech: Frame -> bool,
                                    transcribe: seq<Frame> -> string)
    ensures RunSpec(st, frames, isSpeech, transcribe).fed == st.fed + Speech(frames, isSpeech)
    decreases |frames|
  {
    if frames != [] {
      var f := frames[0];
      var next := StepSpec(st, f, isSpeech, transcribe);
      StepCounts(st, f, isSpeech, transcribe);
      RunFeeds(next, frames[1..], isSpeech, transcribe);
      var head := if isSpeech(f) then [f] else [];
      SpeechStep(frames, isSpeech);
      ConcatAssoc(st.fed, head, Speech(frames[1..], isSpeech));
      assert RunSpec(st, frames, isSpeech, transcribe) == RunSpec(next, frames[1..], isSpeech, transcribe);
    }
  }

  lemma SpeechStep(frames: seq<Frame>, isSpeech: Frame -> bool)
    requires frames != []
    ensures Speech(frames, isSpeech)
         == (if isSpeech(frames[0]) then [frames[0]] else []) + Speech(frames[1..], isSpeech)
  {
  }

  lemma ConcatAssoc(a: seq<Frame>, b: seq<Frame>, c: seq<Frame>)
    ensures (a + b) + c == a + (b + c)
  {
  }

  /** Over any frame sequence one result is taken per falling edge of the speech
      signal, the flag before the first frame included. */
  lemma {:induction false} RunExtracts(st: Snapshot, frames: seq<Frame>, isSpeech: Frame -> bool,
                                       transcribe: seq<Frame> -> string)
    ensures RunSpec(st, frames, isSpeech, transcribe).extractions
         == st.extractions + Falls([st.voiced] + Flags(frames, isSpeech))
    decreases |frames|
  {
    if frames != [] {
      var f := frames[0];
      var next := StepSpec(st, f, isSpeech, transcribe);
      StepCounts(st, f, isSpeech, transcribe);
      RunExtracts(next, frames[1..], isSpeech, transcribe);
      var flags := [st.voiced] + Flags(frames, isSpeech);
      assert flags[1..] == [next.voiced] + Flags(frames[1..], isSpeech);
      assert Falls(flags) == (if st.voiced && !isSpeech(f) then 1 else 0) + Falls(flags[1..]);
    }
  }

  /** The loop's state, with the detector and the recogniser it consults. */
  class Segmenter {
    var voiced: bool
    var ring: seq<Frame>
    var utterance: seq<Frame>
    var fed: seq<Frame>
    var extractions: nat
    var reported: seq<string>
    const isSpeech: Frame -> bool
    const transcribe: seq<Frame> -> string

    function Snap(): Snapshot
      reads this
    {
      Snapshot(voiced, ring, utterance, fed, extractions, reported)
    }

    ghost predicate Valid()
      reads this
    {
      Consistent(Snap())
    }

    constructor (isSpeech: Frame -> bool, transcribe: seq<Frame> -> string)
      ensures Valid() && Snap() == Snapshot(false, [], [], [], 0, [])
      ensures this.isSpeech == isSpeech && this.transcribe == transcribe
    {
      voiced := false;
      ring := [];
      utterance := [];
      fed := [];
      extractions := 0;
      reported := [];
      this.isSpeech := isSpeech;
      this.transcribe := transcribe;
    }

    /** `rec.AcceptWaveform(frame)`. */
    method AcceptWaveform(frame: Frame)
      modifies this
      ensures utterance == old(utterance) + [frame] && fed == old(fed) + [frame]
      ensures voiced == old(voiced) && ring == old(ring)
      ensures extractions == old(extractions) && reported == old(reported)
    {
      utterance := utterance + [frame];
      fed := fed + [frame];
    }

    /** `rec.Result()` and its "text" field: the text of the audio fed since the
        last result, which starts a new utterance. */
    method Result() returns (text: string)
      modifies this
      ensures text == transcribe(old(utterance)) && utterance == []
      ensures extractions == old(extractions) + 1
      ensures voiced == old(voiced) && ring == old(ring) && fed == old(fed) && reported == old(reported)
    {
      text := transcribe(utterance);
      utterance := [];
      extractions := extractions + 1;
    }

    /** One iteration of the loop on the frame taken from the queue. */
    method Step(frame: Frame)
      requires Valid()
      modifies this
      ensures Valid() && voiced == isSpeech(frame)
      ensures Snap() == StepSpec(old(Snap()), frame, isSpeech, transcribe)
      ensures isSpeech(frame) ==>
        ring == RingAppend(old(ring), frame) && fed == old(fed) + [frame]
        && extractions == old(extractions) && reported == old(reported)
      ensures !isSpeech(frame) && old(voiced) ==>
        extractions == old(extractions) + 1 && ring == [] && fed == old(fed)
        && reported == old(reported) + Report(transcribe(old(utterance)))
      ensures !isSpeech(frame) && !old(voiced) ==> Snap() == old(Snap())
    {
      StepConsistent(Snap(), frame, isSpeech, transcribe);
      if isSpeech(frame) {
        ring := RingAppend(ring, frame);
        voiced := true;
        AcceptWaveform(frame);
      } else if voiced {
        var text := Result();
        if text != "" {
          reported := reported + [text];
        }
        voiced := false;
        ring := [];
      }
    }

    /** The loop over the frames the queue delivers, in order: the recogniser is
        fed exactly the speech frames and gives one result per speech run that a
        non-speech frame ends. */
    method Run(frames: seq<Frame>)
      requires Valid()
      modifies this
      ensures Valid()
      ensures Snap() == RunSpec(old(Snap()), frames, isSpeech, transcribe)
      ensures fed == old(fed) + Speech(frames, isSpeech)
      ensures extractions == old(extractions) + Falls([old(voiced)] + Flags(frames, isSpeech))
    {
      RunConsistent(Snap(), frames, isSpeech, transcribe);
      RunFeeds(Snap(), frames, isSpeech, transcribe);
      RunExtracts(Snap(), frames, isSpeech, transcribe);
      var i := 0;
      while i < |frames|
        invariant 0 <= i <= |frames| && Valid()
        invariant RunSpec(old(Snap()), frames, isSpeech, transcribe)
               == RunSpec(Snap(), frames[i..], isSpeech, transcribe)
      {
        assert frames[i..][1..] == frames[i + 1..];
        Step(frames[i]);
        i := i + 1;
      }
    }
  }
}
