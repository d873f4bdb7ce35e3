/** The control loop of hindi_voice_assistant.py: `speak`, `clear_audio_queue`,
    `process_command`'s side effect, `listen_with_timeout` and the main loop with
    its wake step, reprompt path and continuous-conversation mode.

    The recogniser and the clock are outside the model. The loop's environment is
    two finite streams taken in program order: the clock readings (`time.time()`,
    in milliseconds) and the recogniser's verdict on each chunk the loop takes
    from the queue. A run ends when a stream runs out. Each operation is a pure
    function over these streams, and the `Assistant` methods are proved to do
    exactly what those functions say. */
module Conversation {
  import opened Text
  import opened Commands
  import opened Capture

  /** What the recogniser says about one chunk: `AcceptWaveform`'s result and
      the "text" field of `Result()`. */
  datatype Verdict = Verdict(accepted: bool, text: string)

  /** An accepted waveform with non-empty text: the only verdict the loops act on. */
  predicate Final(v: Verdict) {
    v.accepted && v.text != ""
  }

  /** The part of the environment not yet consumed. */
  datatype Input = Input(clock: seq<int>, heard: seq<Verdict>)

  /** What the loop does that can be observed, in order. */
  datatype Event =
    | Recognised(text: string)                      // a final transcript in the wake loop
    | Woke                                          // it contained a wake word
    | Said(text: string)                            // espeak playback
    | Tone(hz: nat)                                 // play_tone
    | Flushed                                       // clear_audio_queue
    | Window(seconds: nat, result: Option<string>)  // listen_with_timeout returned
    | Dispatched(text: string)                      // process_command called

  /** The start-up announcement, and the two tones played before it. */
  const Ready := "मॉडल तैयार है"
  const StartTones: seq<nat> := [700, 900]
  const Acknowledge := "हाँ, बताइए।"
  const Reprompt := "जी बताइए"
  /** `play_listen_end_sound` and `play_done_sound`. */
  const ListenEndTone := 600
  const DoneTone := 400
  /** `WAIT_AFTER_WAKE`, the reprompt window and the follow-up window, in seconds. */
  const WaitAfterWake := 5
  const RepromptWait := 5
  const FollowUpWait := 10

  /** What `speak(text)` does: play the text, the done tone, then flush. */
  function SpeakEvents(text: string): seq<Event> {
    [Said(text), Tone(DoneTone), Flushed]
  }

  /** What `process_command(text)` does: choose one reply and speak it. */
  function CommandEvents(text: string, answer: string -> string): seq<Event> {
    [Dispatched(text)] + SpeakEvents(answer(text))
  }

  /** The outcome of a listening window: its result and the input left, or
      `Exhausted` when the input ran out first. */
  datatype Listened = Listened(result: Option<string>, rest: Input) | Exhausted

  /** The polling loop of `listen_with_timeout` after the start time was read:
      at the top of each iteration read the clock and give up once more than
      `seconds` have elapsed; otherwise take a chunk and return its text if the
      recogniser accepted it with non-empty text. */
  function Poll(seconds: nat, start: int, inp: Input): (w: Listened)
    decreases |inp.clock|
    ensures w.Listened? ==> |w.rest.clock| < |inp.clock| && |w.rest.heard| <= |inp.heard|
    ensures w.Listened? && w.result.Some? ==> w.result.value != ""
  {
    if |inp.clock| == 0 then Exhausted
    else if inp.clock[0] - start > seconds * 1000 then
      Listened(None, Input(inp.clock[1..], inp.heard))
    else if |inp.heard| == 0 then Exhausted
    else
      var v := inp.heard[0];
      var rest := Input(inp.clock[1..], inp.heard[1..]);
      if Final(v) then Listened(Some(v.text), rest) else Poll(seconds, start, rest)
  }

  /** What a window that ended consumed: `n` verdicts, one clock reading per
      verdict, all within the deadline, plus the reading that ended it when it
      timed out. A result is the text of the n-th verdict, the first final one;
      a timeout means no verdict taken was final. */
  predicate WindowOutcome(seconds: nat, start: int, inp: Input, w: Listened)
    requires w.Listened?
  {
    var n := |inp.heard| - |w.rest.heard|;
    0 <= n <= |inp.heard| && w.rest.heard == inp.heard[n..]
    && (forall k :: 0 <= k < n ==> k < |inp.clock| && inp.clock[k] - start <= seconds * 1000)
    && (w.result.Some? ==>
          0 < n <= |inp.clock| && w.rest.clock == inp.clock[n..]
          && Final(inp.heard[n - 1]) && w.result.value == inp.heard[n - 1].text
          && forall k :: 0 <= k < n - 1 ==> !Final(inp.heard[k]))
    && (w.result.None? ==>
          n < |inp.clock| && w.rest.clock == inp.clock[n + 1..]
          && inp.clock[n] - start > seconds * 1000
          && forall k :: 0 <= k < n ==> !Final(inp.heard[k]))
  }

  lemma {:induction false} PollOutcome(seconds: nat, start: int, inp: Input)
    ensures Poll(seconds, start, inp).Listened? ==>
      WindowOutcome(seconds, start, inp, Poll(seconds, start, inp))
    decreases |inp.clock|
  {
    if |inp.clock| > 0 && |inp.heard| > 0 && inp.clock[0] - start <= seconds * 1000 {
      var rest := Input(inp.clock[1..], inp.heard[1..]);
      if Final(inp.heard[0]) {
        FinalAtOnce(seconds, start, inp);
      } else {
        assert Poll(seconds, start, inp) == Poll(seconds, start, rest);
        PollOutcome(seconds, start, rest);
        if Poll(seconds, start, rest).Listened? {
          OutcomeShift(seconds, start, inp, Poll(seconds, start, rest));
        }
      }
    } else if |inp.clock| > 0 && inp.clock[0] - start > seconds * 1000 {
      TimeoutAtOnce(seconds, start, inp);
    }
  }

  /** A clock reading past the deadline ends a window with no result. */
  lemma TimeoutAtOnce(seconds: nat, start: int, inp: Input)
    requires |inp.clock| > 0 && inp.clock[0] - start > seconds * 1000
    ensures WindowOutcome(seconds, start, inp, Listened(None, Input(inp.clock[1..], inp.heard)))
  {
    var w := Listened(None, Input(inp.clock[1..], inp.heard));
    assert |inp.heard| - |w.rest.heard| == 0;
    assert w.rest.heard == inp.heard[0..];
    assert w.rest.clock == inp.clock[0 + 1..];
  }

  /** A final verdict taken within the deadline ends a window with its text. */
  lemma FinalAtOnce(seconds: nat, start: int, inp: Input)
    requires |inp.clock| > 0 && |inp.heard| > 0 && inp.clock[0] - start <= seconds * 1000
    requires Final(inp.heard[0])
    ensures WindowOutcome(seconds, start, inp,
                          Listened(Some(inp.heard[0].text), Input(inp.clock[1..], inp.heard[1..])))
  {
  }

  /** One non-final verdict taken within the deadline in front of a window's
      outcome is still that window's outcome. */
  lemma OutcomeShift(seconds: nat, start: int, inp: Input, w: Listened)
    requires w.Listened? && |inp.clock| > 0 && |inp.heard| > 0
    requires inp.clock[0] - start <= seconds * 1000 && !Final(inp.heard[0])
    requires WindowOutcome(seconds, start, Input(inp.clock[1..], inp.heard[1..]), w)
    ensures WindowOutcome(seconds, start, inp, w)
  {
    var rest := Input(inp.clock[1..], inp.heard[1..]);
    var m := |rest.heard| - |w.rest.heard|;
    assert w.rest.heard == inp.heard[m + 1..];
    forall k | 0 <= k < m + 1
      ensures k < |inp.clock| && inp.clock[k] - start <= seconds * 1000
    {
      if k > 0 {
        assert inp.clock[k] == rest.clock[k - 1];
      }
    }
    if w.result.Some? {
      forall k | 0 <= k < m ensures !Final(inp.heard[k]) {
        if k > 0 {
          assert inp.heard[k] == rest.heard[k - 1];
        }
      }
      assert inp.heard[m] == rest.heard[m - 1];
      assert w.rest.clock == inp.clock[m + 1..];
    } else {
      forall k | 0 <= k < m + 1 ensures !Final(inp.heard[k]) {
        if k > 0 {
          assert inp.heard[k] == rest.heard[k - 1];
        }
      }
      assert inp.clock[m + 1] == rest.clock[m];
      assert w.rest.clock == inp.clock[m + 2..];
    }
  }

  /** `listen_with_timeout(seconds)`: read the start time, then poll. */
  function Listen(seconds: nat, inp: Input): (w: Listened)
    ensures w.Listened? ==> |w.rest.clock| < |inp.clock| && |w.rest.heard| <= |inp.heard|
    ensures w.Listened? && w.result.Some? ==> w.result.value != ""
  {
    if |inp.clock| == 0 then Exhausted
    else Poll(seconds, inp.clock[0], Input(inp.clock[1..], inp.heard))
  }

  /** A window measured from the first clock reading: its result is the first
      final verdict taken before the deadline, or `None` once a reading past the
      deadline was taken with no final verdict before it. */
  lemma ListenOutcome(seconds: nat, inp: Input)
    requires Listen(seconds, inp).Listened?
    ensures WindowOutcome(seconds, inp.clock[0], Input(inp.clock[1..], inp.heard), Listen(seconds, inp))
  {
    PollOutcome(seconds, inp.clock[0], Input(inp.clock[1..], inp.heard));
  }

  /** The events of a run and the input it leaves, `None` when it ran out. */
  datatype Trace = Trace(events: seq<Event>, rest: Option<Input>)

  /** The acknowledgement after a wake word (`speak`), then `clear_audio_queue`. */
  const Opening: seq<Event> := [Said(Acknowledge), Tone(DoneTone), Flushed, Flushed]

  /** A silent first window, then the reprompt (`speak`) and `clear_audio_queue`. */
  const Reprompting: seq<Event> := [Window(WaitAfterWake, None), Said(Reprompt), Tone(DoneTone), Flushed, Flushed]

  /** A window that heard `text`, the listen-end tone, and `process_command(text)`. */
  function Turn(seconds: nat, text: string, answer: string -> string): seq<Event> {
    [Window(seconds, Some(text)), Tone(ListenEndTone), Dispatched(text), Said(answer(text)), Tone(DoneTone), Flushed]
  }

  /** The continuous-conversation loop: flush, listen for ten seconds; a result
      is processed and the loop goes on, the first silent window ends it with the
      done tone. */
  function Continuous(inp: Input, answer: string -> string): (t: Trace)
    decreases |inp.clock|
    ensures t.rest.Some? ==> |t.rest.value.heard| <= |inp.heard|
  {
    match Listen(FollowUpWait, inp)
    case Exhausted => Trace([Flushed], None)
    case Listened(None, r) => Trace([Flushed, Window(FollowUpWait, None), Tone(DoneTone)], Some(r))
    case Listened(Some(text), r) =>
      var more := Continuous(r, answer);
      Trace([Flushed] + Turn(FollowUpWait, text, answer) + more.events, more.rest)
  }

  /** Everything after a wake word: acknowledge, flush, listen five seconds; on a
      result process it and enter continuous mode; on silence reprompt once,
      listen five seconds more, process at most one command and go back to
      waiting for the wake word. */
  function AfterWake(inp: Input, answer: string -> string): (t: Trace)
    ensures t.rest.Some? ==> |t.rest.value.heard| <= |inp.heard|
  {
    match Listen(WaitAfterWake, inp)
    case Exhausted => Trace(Opening, None)
    case Listened(Some(text), r) =>
      var more := Continuous(r, answer);
      Trace(Opening + Turn(WaitAfterWake, text, answer) + more.events, more.rest)
    case Listened(None, r) =>
      match Listen(RepromptWait, r)
      case Exhausted => Trace(Opening + Reprompting, None)
      case Listened(Some(text), r2) =>
        Trace(Opening + Reprompting + Turn(RepromptWait, text, answer), Some(r2))
      case Listened(None, r2) =>
        Trace(Opening + Reprompting + [Window(RepromptWait, None), Tone(ListenEndTone)], Some(r2))
  }

  /** The main loop: take a chunk; a final transcript is reported, and when it
      contains a wake word a session follows. */
  function MainLoop(inp: Input, answer: string -> string): seq<Event>
    decreases |inp.heard|
  {
    if |inp.heard| == 0 then []
    else
      var v := inp.heard[0];
      var rest := Input(inp.clock, inp.heard[1..]);
      if !Final(v) then MainLoop(rest, answer)
      else if !IsWake(v.text) then [Recognised(v.text)] + MainLoop(rest, answer)
      else
        var s := AfterWake(rest, answer);
        [Recognised(v.text), Woke] + s.events
        + match s.rest case None => [] case Some(r) => MainLoop(r, answer)
  }

  // ---------------------------------------------------------------------------
  // Properties of the session traces

  /** The results of the listening windows in a trace, in order. */
  function Results(es: seq<Event>): seq<Option<string>> {
    if es == [] then []
    else (if es[0].Window? then [es[0].result] else []) + Results(es[1..])
  }

  /** The lengths of the listening windows in a trace, in order. */
  function Waits(es: seq<Event>): seq<nat> {
    if es == [] then []
    else (if es[0].Window? then [es[0].seconds] else []) + Waits(es[1..])
  }

  /** The texts handed to `process_command`, in order. */
  function Dispatches(es: seq<Event>): seq<string> {
    if es == [] then []
    else (if es[0].Dispatched? then [es[0].text] else []) + Dispatches(es[1..])
  }

  /** The texts of the windows that heard something, in order. */
  function Heard(rs: seq<Option<string>>): seq<string> {
    if rs == [] then []
    else (if rs[0].Some? then [rs[0].value] else []) + Heard(rs[1..])
  }

  lemma {:induction false} ResultsConcat(a: seq<Event>, b: seq<Event>)
    ensures Results(a + b) == Results(a) + Results(b)
    ensures Waits(a + b) == Waits(a) + Waits(b)
    ensures Dispatches(a + b) == Dispatches(a) + Dispatches(b)
    decreases |a|
  {
    if a != [] {
      assert (a + b)[1..] == a[1..] + b;
      ResultsConcat(a[1..], b);
    } else {
      assert a + b == b;
    }
  }

  lemma {:induction false} HeardConcat(a: seq<Option<string>>, b: seq<Option<string>>)
    ensures Heard(a + b) == Heard(a) + Heard(b)
    decreases |a|
  {
    if a != [] {
      assert (a + b)[1..] == a[1..] + b;
      HeardConcat(a[1..], b);
    } else {
      assert a + b == b;
    }
  }

  /** Events other than windows and dispatches. */
  predicate Quiet(es: seq<Event>) {
    forall i :: 0 <= i < |es| ==> !es[i].Window? && !es[i].Dispatched?
  }

  lemma {:induction false} QuietShape(es: seq<Event>)
    requires Quiet(es)
    ensures Results(es) == [] && Waits(es) == [] && Dispatches(es) == []
    decreases |es|
  {
    if es != [] {
      QuietShape(es[1..]);
    }
  }

  /** The windows and dispatches of one event in front of quiet events. */
  lemma HeadShape(e: Event, tail: seq<Event>)
    requires Quiet(tail)
    ensures Results([e] + tail) == (if e.Window? then [e.result] else [])
    ensures Waits([e] + tail) == (if e.Window? then [e.seconds] else [])
    ensures Dispatches([e] + tail) == (if e.Dispatched? then [e.text] else [])
  {
    QuietShape(tail);
    ResultsConcat([e], tail);
  }

  lemma OpeningShape()
    ensures Results(Opening) == [] && Waits(Opening) == [] && Dispatches(Opening) == []
  {
    QuietShape(Opening);
  }

  lemma RepromptingShape()
    ensures Results(Reprompting) == [None] && Waits(Reprompting) == [WaitAfterWake]
      && Dispatches(Reprompting) == []
  {
    HeadShape(Window(WaitAfterWake, None), Reprompting[1..]);
    assert Reprompting == [Window(WaitAfterWake, None)] + Reprompting[1..];
  }

  lemma TurnShape(seconds: nat, text: string, answer: string -> string)
    ensures var t := Turn(seconds, text, answer);
      Results(t) == [Some(text)] && Waits(t) == [seconds] && Dispatches(t) == [text]
  {
    var t := Turn(seconds, text, answer);
    HeadShape(Dispatched(text), t[3..]);
    assert t[2..] == [Dispatched(text)] + t[3..];
    ResultsConcat(t[..2], t[2..]);
    HeadShape(Window(seconds, Some(text)), [Tone(ListenEndTone)]);
    assert t == t[..2] + t[2..];
  }

  /** The shape of continuous mode: every window lasts ten seconds, only the
      last window can be silent, and the texts processed are exactly the texts
      heard, one `process_command` per window that heard something. */
  predicate FollowUps(es: seq<Event>) {
    (forall k :: 0 <= k < |Waits(es)| ==> Waits(es)[k] == FollowUpWait)
    && (forall k :: 0 <= k < |Results(es)| - 1 ==> Results(es)[k].Some?)
    && Dispatches(es) == Heard(Results(es))
  }

  lemma FollowUpsStep(text: string, answer: string -> string, more: seq<Event>)
    requires FollowUps(more)
    ensures FollowUps([Flushed] + Turn(FollowUpWait, text, answer) + more)
  {
    var turn := Turn(FollowUpWait, text, answer);
    TurnShape(FollowUpWait, text, answer);
    FlushedShape(turn);
    FollowUpsFront([Flushed] + turn, more, text);
  }

  /** A flush adds no window and no dispatch. */
  lemma FlushedShape(t: seq<Event>)
    ensures Results([Flushed] + t) == Results(t) && Waits([Flushed] + t) == Waits(t)
      && Dispatches([Flushed] + t) == Dispatches(t)
  {
    HeadShape(Flushed, []);
    ResultsConcat([Flushed], t);
  }

  /** Events holding one ten-second window that heard `text` and its dispatch,
      in front of continuous-mode events, keep the continuous-mode shape. */
  lemma FollowUpsFront(head: seq<Event>, more: seq<Event>, text: string)
    requires FollowUps(more)
    requires Results(head) == [Some(text)] && Waits(head) == [FollowUpWait] && Dispatches(head) == [text]
    ensures FollowUps(head + more)
  {
    ResultsConcat(head, more);
    FollowUpsCons(head + more, more, text);
  }

  /** A window that heard `text` and its dispatch, in front of continuous-mode
      events, keep the continuous-mode shape. */
  lemma FollowUpsCons(es: seq<Event>, more: seq<Event>, text: string)
    requires FollowUps(more)
    requires Results(es) == [Some(text)] + Results(more)
    requires Waits(es) == [FollowUpWait] + Waits(more)
    requires Dispatches(es) == [text] + Dispatches(more)
    ensures FollowUps(es)
  {
    HeardConcat([Some(text)], Results(more));
  }

  lemma FollowUpsEnd()
    ensures FollowUps([Flushed]) && FollowUps([Flushed, Window(FollowUpWait, None), Tone(DoneTone)])
  {
    HeadShape(Flushed, []);
    HeadShape(Window(FollowUpWait, None), [Tone(DoneTone)]);
    ResultsConcat([Flushed], [Window(FollowUpWait, None), Tone(DoneTone)]);
    assert [Flushed, Window(FollowUpWait, None), Tone(DoneTone)]
        == [Flushed] + [Window(FollowUpWait, None), Tone(DoneTone)];
  }

  lemma {:induction false} ContinuousTurns(inp: Input, answer: string -> string)
    ensures FollowUps(Continuous(inp, answer).events)
    decreases |inp.clock|
  {
    FollowUpsEnd();
    match Listen(FollowUpWait, inp)
    case Exhausted =>
    case Listened(None, r) =>
    case Listened(Some(text), r) =>
      ContinuousTurns(r, answer);
      FollowUpsStep(text, answer, Continuous(r, answer).events);
  }

  /** After a wake word, no command is processed before the acknowledgement has
      been spoken, the queue flushed and a five-second window opened. */
  lemma AcknowledgeFirst(inp: Input, answer: string -> string)
    ensures var es := AfterWake(inp, answer).events;
      |es| >= 4 && es[..4] == [Said(Acknowledge), Tone(DoneTone), Flushed, Flushed]
      && (|es| > 4 ==> es[4].Window? && es[4].seconds == WaitAfterWake)
  {
  }

  /** A session whose first window heard `text`: it is processed first, and
      every later window is a ten-second follow-up. */
  predicate HeardFirst(es: seq<Event>, text: string) {
    |Results(es)| >= 1 && Results(es)[0] == Some(text)
    && (forall k :: 1 <= k < |Waits(es)| ==> Waits(es)[k] == FollowUpWait)
    && Dispatches(es) == Heard(Results(es))
  }

  /** A session whose first window was silent: at most one more window, every
      window five seconds long, and at most the one command it heard. */
  predicate SilentFirst(es: seq<Event>) {
    1 <= |Results(es)| <= 2 && Results(es)[0] == None
    && (forall k :: 0 <= k < |Waits(es)| ==> Waits(es)[k] == WaitAfterWake)
    && Dispatches(es) == Heard(Results(es)) && |Dispatches(es)| <= 1
  }

  lemma HeardFirstStep(text: string, answer: string -> string, more: seq<Event>)
    requires FollowUps(more)
    ensures HeardFirst(Opening + Turn(WaitAfterWake, text, answer) + more, text)
  {
    var turn := Turn(WaitAfterWake, text, answer);
    var es := Opening + turn + more;
    OpeningShape();
    TurnShape(WaitAfterWake, text, answer);
    ResultsConcat(Opening, turn);
    ResultsConcat(Opening + turn, more);
    HeardConcat([Some(text)], Results(more));
    assert Results(es) == [Some(text)] + Results(more);
    assert Waits(es) == [WaitAfterWake] + Waits(more);
  }

  lemma SilentFirstPaths(text: string, answer: string -> string)
    ensures SilentFirst(Opening + Reprompting)
    ensures SilentFirst(Opening + Reprompting + Turn(RepromptWait, text, answer))
    ensures SilentFirst(Opening + Reprompting + [Window(RepromptWait, None), Tone(ListenEndTone)])
  {
    OpeningShape();
    RepromptingShape();
    ResultsConcat(Opening, Reprompting);
    SilentThenHeard(Opening + Reprompting, text, answer);
    SilentThenSilent(Opening + Reprompting);
  }

  /** After a silent first window, a second window that heard `text`. */
  lemma SilentThenHeard(first: seq<Event>, text: string, answer: string -> string)
    requires Results(first) == [None] && Waits(first) == [WaitAfterWake] && Dispatches(first) == []
    ensures SilentFirst(first + Turn(RepromptWait, text, answer))
  {
    var es := first + Turn(RepromptWait, text, answer);
    TurnShape(RepromptWait, text, answer);
    ResultsConcat(first, Turn(RepromptWait, text, answer));
    assert Results(es) == [None, Some(text)];
    assert Waits(es) == [WaitAfterWake, RepromptWait];
    assert Dispatches(es) == [text];
    assert Heard([None, Some(text)]) == [text] by {
      HeardConcat([None], [Some(text)]);
    }
  }

  /** After a silent first window, a second silent window. */
  lemma SilentThenSilent(first: seq<Event>)
    requires Results(first) == [None] && Waits(first) == [WaitAfterWake] && Dispatches(first) == []
    ensures SilentFirst(first + [Window(RepromptWait, None), Tone(ListenEndTone)])
  {
    var last := [Window(RepromptWait, None), Tone(ListenEndTone)];
    assert last == [Window(RepromptWait, None)] + [Tone(ListenEndTone)];
    HeadShape(Window(RepromptWait, None), [Tone(ListenEndTone)]);
    ResultsConcat(first, last);
    var es := first + last;
    assert Results(es) == [None, None];
    assert Waits(es) == [WaitAfterWake, RepromptWait];
    assert Dispatches(es) == [];
    assert Heard([None, None]) == [] by {
      HeardConcat([None], [None]);
    }
  }

  /** The path through a session: a heard first window is processed and leads
      into continuous mode; a silent one leads to the reprompt and at most one
      more five-second window and one command. Either way the texts processed
      are exactly the texts the windows heard, in order. */
  lemma AfterWakeTurns(inp: Input, answer: string -> string)
    ensures var w := Listen(WaitAfterWake, inp);
      w.Listened? && w.result.Some? ==> HeardFirst(AfterWake(inp, answer).events, w.result.value)
    ensures var w := Listen(WaitAfterWake, inp);
      w.Listened? && w.result.None? ==> SilentFirst(AfterWake(inp, answer).events)
    ensures Dispatches(AfterWake(inp, answer).events) == Heard(Results(AfterWake(inp, answer).events))
  {
    OpeningShape();
    match Listen(WaitAfterWake, inp)
    case Exhausted =>
    case Listened(Some(text), r) =>
      ContinuousTurns(r, answer);
      HeardFirstStep(text, answer, Continuous(r, answer).events);
    case Listened(None, r) =>
      match Listen(RepromptWait, r)
      case Exhausted =>
        SilentFirstPaths("", answer);
      case Listened(Some(text), r2) =>
        SilentFirstPaths(text, answer);
      case Listened(None, r2) =>
        SilentFirstPaths("", answer);
  }

  /** In a trace, every `process_command` call comes right after a window that
      heard exactly that text and the listen-end tone. */
  predicate DispatchesFollowWindows(es: seq<Event>) {
    forall i :: 0 <= i < |es| && es[i].Dispatched? ==>
      i >= 2 && es[i - 2].Window? && es[i - 2].result == Some(es[i].text)
      && es[i - 1] == Tone(ListenEndTone)
  }

  /** In a trace, every session opens right after a non-empty final transcript
      that holds a wake word, and begins with the acknowledgement. */
  predicate WakesFollowWakeWords(es: seq<Event>) {
    forall i :: 0 <= i < |es| && es[i] == Woke ==>
      i >= 1 && es[i - 1].Recognised? && es[i - 1].text != "" && IsWake(es[i - 1].text)
      && i + 1 < |es| && es[i + 1] == Said(Acknowledge)
  }

  predicate NoWoke(es: seq<Event>) {
    forall i :: 0 <= i < |es| ==> es[i] != Woke
  }

  /** Inside a session: dispatches follow their windows and there is no `Woke`. */
  predicate SessionOrdered(es: seq<Event>) {
    DispatchesFollowWindows(es) && NoWoke(es)
  }

  lemma DispatchesFollowWindowsConcat(a: seq<Event>, b: seq<Event>)
    requires DispatchesFollowWindows(a) && DispatchesFollowWindows(b)
    ensures DispatchesFollowWindows(a + b)
  {
    forall i | 0 <= i < |a + b| && (a + b)[i].Dispatched?
      ensures i >= 2 && (a + b)[i - 2].Window? && (a + b)[i - 2].result == Some((a + b)[i].text)
      && (a + b)[i - 1] == Tone(ListenEndTone)
    {
      if i >= |a| {
        assert b[i - |a|] == (a + b)[i];
      } else {
        assert a[i] == (a + b)[i];
      }
    }
  }

  lemma SessionOrderedConcat(a: seq<Event>, b: seq<Event>)
    requires SessionOrdered(a) && SessionOrdered(b)
    ensures SessionOrdered(a + b)
  {
    DispatchesFollowWindowsConcat(a, b);
    forall i | 0 <= i < |a + b| ensures (a + b)[i] != Woke {
      if i >= |a| {
        assert b[i - |a|] == (a + b)[i];
      } else {
        assert a[i] == (a + b)[i];
      }
    }
  }

  lemma WakesFollowWakeWordsConcat(a: seq<Event>, b: seq<Event>)
    requires WakesFollowWakeWords(a) && WakesFollowWakeWords(b)
    requires a != [] ==> a[|a| - 1] != Woke
    ensures WakesFollowWakeWords(a + b)
  {
    forall i | 0 <= i < |a + b| && (a + b)[i] == Woke
      ensures i >= 1 && (a + b)[i - 1].Recognised? && (a + b)[i - 1].text != ""
      && IsWake((a + b)[i - 1].text) && i + 1 < |a + b| && (a + b)[i + 1] == Said(Acknowledge)
    {
      if i >= |a| {
        assert b[i - |a|] == (a + b)[i];
      } else {
        assert a[i] == Woke;
      }
    }
  }

  lemma SegmentsOrdered()
    ensures SessionOrdered(Opening) && SessionOrdered(Reprompting)
    ensures SessionOrdered([Flushed]) && SessionOrdered([Flushed, Window(FollowUpWait, None), Tone(DoneTone)])
    ensures SessionOrdered([Window(RepromptWait, None), Tone(ListenEndTone)])
  {
  }

  lemma TurnOrdered(seconds: nat, text: string, answer: string -> string)
    ensures SessionOrdered(Turn(seconds, text, answer))
  {
  }

  lemma {:induction false} ContinuousOrdered(inp: Input, answer: string -> string)
    ensures SessionOrdered(Continuous(inp, answer).events)
    decreases |inp.clock|
  {
    match Listen(FollowUpWait, inp)
    case Exhausted =>
      SegmentsOrdered();
    case Listened(None, r) =>
      SegmentsOrdered();
    case Listened(Some(text), r) =>
      ContinuousOrdered(r, answer);
      TurnOrdered(FollowUpWait, text, answer);
      SessionOrderedConcat([Flushed], Turn(FollowUpWait, text, answer));
      SessionOrderedConcat([Flushed] + Turn(FollowUpWait, text, answer), Continuous(r, answer).events);
  }

  lemma AfterWakeOrdered(inp: Input, answer: string -> string)
    ensures SessionOrdered(AfterWake(inp, answer).events)
  {
    SegmentsOrdered();
    match Listen(WaitAfterWake, inp)
    case Exhausted =>
    case Listened(Some(text), r) =>
      ContinuousOrdered(r, answer);
      TurnOrdered(WaitAfterWake, text, answer);
      SessionOrderedConcat(Opening, Turn(WaitAfterWake, text, answer));
      SessionOrderedConcat(Opening + Turn(WaitAfterWake, text, answer), Continuous(r, answer).events);
    case Listened(None, r) =>
      SessionOrderedConcat(Opening, Reprompting);
      match Listen(RepromptWait, r)
      case Exhausted =>
      case Listened(Some(text), r2) =>
        TurnOrdered(RepromptWait, text, answer);
        SessionOrderedConcat(Opening + Reprompting, Turn(RepromptWait, text, answer));
      case Listened(None, r2) =>
        SessionOrderedConcat(Opening + Reprompting, [Window(RepromptWait, None), Tone(ListenEndTone)]);
  }

  /** A wake transcript followed by a session that opens with the acknowledgement
      and is itself ordered. */
  lemma WakeHeadOrdered(text: string, es: seq<Event>)
    requires text != "" && IsWake(text)
    requires SessionOrdered(es) && |es| >= 1 && es[0] == Said(Acknowledge)
    ensures var head := [Recognised(text), Woke] + es;
      WakesFollowWakeWords(head) && DispatchesFollowWindows(head) && head[|head| - 1] != Woke
  {
    var head := [Recognised(text), Woke] + es;
    forall i | 2 <= i < |head| ensures head[i] != Woke {
      assert head[i] == es[i - 2];
    }
    assert head[2] == Said(Acknowledge);
    DispatchesFollowWindowsConcat([Recognised(text), Woke], es);
  }

  /** Over a whole run: a session starts only right after a non-empty final
      transcript that contains a wake word, and opens with the acknowledgement;
      `process_command` is called only right after a window heard that very text. */
  lemma {:induction false} MainLoopWellOrdered(inp: Input, answer: string -> string)
    ensures WakesFollowWakeWords(MainLoop(inp, answer))
    ensures DispatchesFollowWindows(MainLoop(inp, answer))
    decreases |inp.heard|, 1
  {
    if |inp.heard| > 0 {
      var v := inp.heard[0];
      var rest := Input(inp.clock, inp.heard[1..]);
      if !Final(v) {
        MainLoopWellOrdered(rest, answer);
      } else if !IsWake(v.text) {
        MainLoopWellOrdered(rest, answer);
        WakesFollowWakeWordsConcat([Recognised(v.text)], MainLoop(rest, answer));
        DispatchesFollowWindowsConcat([Recognised(v.text)], MainLoop(rest, answer));
      } else {
        WakeWellOrdered(inp, answer);
      }
    }
  }

  /** The same for a run whose first transcript holds a wake word. */
  lemma {:induction false} WakeWellOrdered(inp: Input, answer: string -> string)
    requires |inp.heard| > 0 && Final(inp.heard[0]) && IsWake(inp.heard[0].text)
    ensures WakesFollowWakeWords(MainLoop(inp, answer))
    ensures DispatchesFollowWindows(MainLoop(inp, answer))
    decreases |inp.heard|, 0
  {
    var v := inp.heard[0];
    var rest := Input(inp.clock, inp.heard[1..]);
    var s := AfterWake(rest, answer);
    AfterWakeOrdered(rest, answer);
    AcknowledgeFirst(rest, answer);
    var tail := match s.rest case None => [] case Some(r) => MainLoop(r, answer);
    if s.rest.Some? {
      MainLoopWellOrdered(s.rest.value, answer);
    }
    var head := [Recognised(v.text), Woke] + s.events;
    WakeHeadOrdered(v.text, s.events);
    WakesFollowWakeWordsConcat(head, tail);
    DispatchesFollowWindowsConcat(head, tail);
    assert MainLoop(inp, answer) == head + tail;
  }

  /** One iteration of continuous mode, as the loop in `Assistant` takes it. */
  lemma ContinuousStep(inp: Input, answer: string -> string)
    ensures var w := Listen(FollowUpWait, inp);
      var t := Continuous(inp, answer);
      (w.Exhausted? ==> t == Trace([Flushed], None))
      && (w.Listened? && w.result.None? ==>
            t == Trace([Flushed, Window(FollowUpWait, None), Tone(DoneTone)], Some(w.rest)))
      && (w.Listened? && w.result.Some? ==>
            t.events == [Flushed] + Turn(FollowUpWait, w.result.value, answer) + Continuous(w.rest, answer).events
            && t.rest == Continuous(w.rest, answer).rest)
  {
  }

  /** The paths through a session, as `Assistant.Session` takes them: the input
      runs out in the first window, ... */
  lemma AfterWakeExhausted(inp: Input, answer: string -> string)
    requires Listen(WaitAfterWake, inp).Exhausted?
    ensures AfterWake(inp, answer) == Trace(Opening, None)
  {
  }

  /** ... the first window hears a command, ... */
  lemma AfterWakeHeard(inp: Input, answer: string -> string)
    requires Listen(WaitAfterWake, inp).Listened? && Listen(WaitAfterWake, inp).result.Some?
    ensures var w := Listen(WaitAfterWake, inp);
      var t := AfterWake(inp, answer);
      t.events == Opening + Turn(WaitAfterWake, w.result.value, answer) + Continuous(w.rest, answer).events
      && t.rest == Continuous(w.rest, answer).rest
  {
  }

  /** ... or the first window is silent and the reprompt follows. */
  lemma AfterWakeSilent(inp: Input, answer: string -> string)
    requires Listen(WaitAfterWake, inp).Listened? && Listen(WaitAfterWake, inp).result.None?
    ensures var w2 := Listen(RepromptWait, Listen(WaitAfterWake, inp).rest);
      var t := AfterWake(inp, answer);
      (w2.Exhausted? ==> t == Trace(Opening + Reprompting, None))
      && (w2.Listened? && w2.result.Some? ==>
            t == Trace(Opening + Reprompting + Turn(RepromptWait, w2.result.value, answer), Some(w2.rest)))
      && (w2.Listened? && w2.result.None? ==>
            t == Trace(Opening + Reprompting + [Window(RepromptWait, None), Tone(ListenEndTone)], Some(w2.rest)))
  {
  }

  /** What one iteration of the main loop does to the log and the input: `more`
      is false when the input ran out during a session. */
  predicate RoundOutcome(inp: Input, answer: string -> string, log0: seq<Event>,
                         log1: seq<Event>, after: Input, more: bool)
    requires |inp.heard| > 0
  {
    var v := inp.heard[0];
    var rest := Input(inp.clock, inp.heard[1..]);
    var s := AfterWake(rest, answer);
    (!Final(v) ==> more && log1 == log0 && after == rest)
    && (Final(v) && !IsWake(v.text) ==> more && log1 == log0 + [Recognised(v.text)] && after == rest)
    && (Final(v) && IsWake(v.text) ==>
          log1 == log0 + [Recognised(v.text), Woke] + s.events && more == s.rest.Some?
          && (more ==> after == s.rest.value))
  }

  /** An iteration advances the main loop by exactly its own events. */
  lemma RoundAdvances(inp: Input, answer: string -> string, log0: seq<Event>,
                      log1: seq<Event>, after: Input, more: bool)
    requires |inp.heard| > 0 && RoundOutcome(inp, answer, log0, log1, after, more)
    ensures more ==> log0 + MainLoop(inp, answer) == log1 + MainLoop(after, answer)
    ensures !more ==> log0 + MainLoop(inp, answer) == log1
  {
    var v := inp.heard[0];
    if Final(v) && IsWake(v.text) {
      WakeRoundAdvances(inp, answer, log0, log1, after, more);
    } else if Final(v) {
      assert MainLoop(inp, answer) == [Recognised(v.text)] + MainLoop(after, answer);
      ConcatAssoc(log0, [Recognised(v.text)], MainLoop(after, answer));
    }
  }

  lemma ConcatAssoc(log: seq<Event>, head: seq<Event>, tail: seq<Event>)
    ensures log + (head + tail) == (log + head) + tail
  {
  }

  /** Regrouping a log extended by a segment taken apart at its first event. */
  lemma Glue(log: seq<Event>, opening: seq<Event>, segment: seq<Event>, more: seq<Event>)
    requires |segment| > 0
    ensures log + opening + [segment[0]] + segment[1..] + more == log + (opening + segment + more)
  {
    assert [segment[0]] + segment[1..] == segment;
  }

  /** The same for an iteration that heard a wake word. */
  lemma WakeRoundAdvances(inp: Input, answer: string -> string, log0: seq<Event>,
                          log1: seq<Event>, after: Input, more: bool)
    requires |inp.heard| > 0 && Final(inp.heard[0]) && IsWake(inp.heard[0].text)
    requires RoundOutcome(inp, answer, log0, log1, after, more)
    ensures more ==> log0 + MainLoop(inp, answer) == log1 + MainLoop(after, answer)
    ensures !more ==> log0 + MainLoop(inp, answer) == log1
  {
    var v := inp.heard[0];
    var s := AfterWake(Input(inp.clock, inp.heard[1..]), answer);
    var head := [Recognised(v.text), Woke] + s.events;
    assert log1 == log0 + head;
    if more {
      assert MainLoop(inp, answer) == head + MainLoop(after, answer);
      ConcatAssoc(log0, head, MainLoop(after, answer));
    } else {
      assert MainLoop(inp, answer) == head + [];
    }
  }

  // ---------------------------------------------------------------------------
  // The control loop as a program

  /** The state the main loop owns: the audio queue, the self-speech flag, the
      observable log, the reply `process_command` chooses for each text (fixed at
      construction to `Commands.Reply` at the run's calendar), and the input not
      yet consumed. */
  class Assistant {
    const q: AudioQueue
    const answer: string -> string
    var isSpeaking: bool
    var log: seq<Event>
    var clock: seq<int>
    var heard: seq<Verdict>

    ghost predicate Valid()
      reads this, q
    {
      q.Valid()
    }

    function Pending(): Input
      reads this
    {
      Input(clock, heard)
    }

    constructor (c: Calendar, clock: seq<int>, heard: seq<Verdict>)
      requires ValidCalendar(c)
      ensures Valid() && fresh(q) && q.items == []
      ensures (forall text :: answer(text) == Reply(text, c)) && !isSpeaking && log == []
      ensures this.clock == clock && this.heard == heard
    {
      q := new AudioQueue();
      answer := text => Reply(text, c);
      isSpeaking := false;
      log := [];
      this.clock := clock;
      this.heard := heard;
    }

    /** `time.time()`. */
    method ReadClock() returns (now: int)
      requires |clock| > 0
      modifies this
      ensures now == old(clock)[0] && clock == old(clock)[1..]
      ensures heard == old(heard) && log == old(log) && isSpeaking == old(isSpeaking)
    {
      now := clock[0];
      clock := clock[1..];
    }

    /** `q.get()` followed by the recogniser: the oldest queued chunk leaves the
        queue (on an empty queue, the chunk the capture side delivers next) and
        the recogniser's verdict on it is taken. */
    method TakeChunk() returns (v: Verdict)
      requires Valid() && |heard| > 0
      modifies this, q
      ensures Valid()
      ensures v == old(heard)[0] && heard == old(heard)[1..]
      ensures clock == old(clock) && log == old(log) && isSpeaking == old(isSpeaking)
      ensures q.items == if old(q.items) == [] then [] else old(q.items)[1..]
    {
      var _ := q.Get();
      v := heard[0];
      heard := heard[1..];
    }

    /** `clear_audio_queue()`. */
    method ClearAudioQueue()
      requires Valid()
      modifies this, q
      ensures Valid() && q.items == []
      ensures log == old(log) + [Flushed]
      ensures Pending() == old(Pending()) && isSpeaking == old(isSpeaking)
    {
      var _ := q.Clear();
      log := log + [Flushed];
    }

    /** `play_tone(hz)`. */
    method PlayTone(hz: nat)
      modifies this
      ensures log == old(log) + [Tone(hz)]
      ensures Pending() == old(Pending()) && isSpeaking == old(isSpeaking)
    {
      log := log + [Tone(hz)];
    }

    /** The espeak call: playback happens only while the flag is set. */
    method Play(text: string)
      requires isSpeaking
      modifies this
      ensures log == old(log) + [Said(text)]
      ensures Pending() == old(Pending()) && isSpeaking
    {
      log := log + [Said(text)];
    }

    /** `speak(text)`: raise the flag, play the text and the done tone, flush
        the queue, lower the flag. The text is played through `Play`, whose
        `requires isSpeaking` is what proves the flag is up during playback. */
    method Speak(text: string)
      requires Valid()
      modifies this, q
      ensures Valid() && !isSpeaking && q.items == []
      ensures log == old(log) + SpeakEvents(text)
      ensures Pending() == old(Pending())
    {
      isSpeaking := true;
      Play(text);
      PlayTone(DoneTone);
      ClearAudioQueue();
      isSpeaking := false;
    }

    /** `process_command(text)`: exactly one reply is spoken. */
    method ProcessCommand(text: string)
      requires Valid()
      modifies this, q
      ensures Valid() && !isSpeaking && q.items == []
      ensures log == old(log) + CommandEvents(text, answer)
      ensures Pending() == old(Pending())
    {
      log := log + [Dispatched(text)];
      Speak(answer(text));
    }

    /** `listen_with_timeout(seconds)`; `exhausted` reports that the input ran
        out before the window ended. */
    method ListenWithTimeout(seconds: nat) returns (result: Option<string>, exhausted: bool)
      requires Valid()
      modifies this, q
      ensures Valid() && isSpeaking == old(isSpeaking)
      ensures var w := Listen(seconds, old(Pending()));
        exhausted == w.Exhausted?
        && (exhausted ==> log == old(log))
        && (!exhausted ==>
              result == w.result && Pending() == w.rest && log == old(log) + [Window(seconds, result)])
    {
      if |clock| == 0 {
        return None, true;
      }
      var start := ReadClock();
      while true
        invariant Valid() && log == old(log) && isSpeaking == old(isSpeaking)
        invariant Listen(seconds, old(Pending())) == Poll(seconds, start, Pending())
        decreases |clock|
      {
        if |clock| == 0 {
          return None, true;
        }
        var now := ReadClock();
        if now - start > seconds * 1000 {
          log := log + [Window(seconds, None)];
          return None, false;
        }
        if |heard| == 0 {
          return None, true;
        }
        var v := TakeChunk();
        if v.accepted && v.text != "" {
          log := log + [Window(seconds, Some(v.text))];
          return Some(v.text), false;
        }
      }
    }

    /** One round of continuous mode: flush, listen ten seconds, then either
        process what was heard or play the done tone. */
    method FollowUpRound() returns (heardText: Option<string>, exhausted: bool)
      requires Valid() && !isSpeaking
      modifies this, q
      ensures Valid() && !isSpeaking
      ensures var w := Listen(FollowUpWait, old(Pending()));
        exhausted == w.Exhausted?
        && (exhausted ==> log == old(log) + [Flushed])
        && (!exhausted ==> heardText == w.result && Pending() == w.rest)
        && (!exhausted && heardText.Some? ==>
              log == old(log) + ([Flushed] + Turn(FollowUpWait, heardText.value, answer)))
        && (!exhausted && heardText.None? ==>
              log == old(log) + [Flushed, Window(FollowUpWait, None), Tone(DoneTone)])
    {
      ClearAudioQueue();
      heardText, exhausted := ListenWithTimeout(FollowUpWait);
      if exhausted {
        return;
      }
      if heardText.Some? {
        PlayTone(ListenEndTone);
        ProcessCommand(heardText.value);
      } else {
        PlayTone(DoneTone);
      }
    }

    /** The continuous-conversation loop; `more` is false when the input ran out. */
    method ContinuousConversation() returns (more: bool)
      requires Valid() && !isSpeaking
      modifies this, q
      ensures Valid() && !isSpeaking
      ensures var t := Continuous(old(Pending()), answer);
        log == old(log) + t.events && more == t.rest.Some?
        && (more ==> Pending() == t.rest.value)
    {
      ghost var t0 := Continuous(Pending(), answer);
      while true
        invariant Valid() && !isSpeaking
        invariant old(log) + t0.events == log + Continuous(Pending(), answer).events
        invariant t0.rest == Continuous(Pending(), answer).rest
        decreases |clock|
      {
        ghost var before := Pending();
        ghost var logBefore := log;
        ContinuousStep(before, answer);
        var next, exhausted := FollowUpRound();
        if exhausted {
          return false;
        }
        if next.None? {
          return true;
        }
        ghost var turn := [Flushed] + Turn(FollowUpWait, next.value, answer);
        ConcatAssoc(logBefore, turn, Continuous(Pending(), answer).events);
      }
    }

    /** The reprompt path: say the reprompt, flush, listen five seconds, play the
        listen-end tone, and process what was heard, if anything. */
    method RepromptRound() returns (exhausted: bool)
      requires Valid() && !isSpeaking
      modifies this, q
      ensures Valid() && !isSpeaking
      ensures var w := Listen(RepromptWait, old(Pending()));
        var again := old(log) + Reprompting[1..];
        exhausted == w.Exhausted?
        && (exhausted ==> log == again)
        && (!exhausted ==> Pending() == w.rest)
        && (!exhausted && w.result.Some? ==> log == again + Turn(RepromptWait, w.result.value, answer))
        && (!exhausted && w.result.None? ==> log == again + [Window(RepromptWait, None), Tone(ListenEndTone)])
    {
      Speak(Reprompt);
      ClearAudioQueue();
      var second;
      second, exhausted := ListenWithTimeout(RepromptWait);
      if exhausted {
        return;
      }
      PlayTone(ListenEndTone);
      if second.Some? {
        ProcessCommand(second.value);
      }
    }

    /** A first window that heard `command`: the listen-end tone, the command,
        then continuous mode. */
    method HeardFirstRound(command: string) returns (more: bool)
      requires Valid() && !isSpeaking
      modifies this, q
      ensures Valid() && !isSpeaking
      ensures var t := Continuous(old(Pending()), answer);
        log == old(log) + Turn(WaitAfterWake, command, answer)[1..] + t.events && more == t.rest.Some?
        && (more ==> Pending() == t.rest.value)
    {
      PlayTone(ListenEndTone);
      ProcessCommand(command);
      ghost var mid := log;
      more := ContinuousConversation();
      assert mid == old(log) + Turn(WaitAfterWake, command, answer)[1..];
    }

    /** The acknowledgement after a wake word, then `clear_audio_queue()`. */
    method Greet()
      requires Valid()
      modifies this, q
      ensures Valid() && !isSpeaking && q.items == []
      ensures log == old(log) + Opening
      ensures Pending() == old(Pending())
    {
      Speak(Acknowledge);
      ClearAudioQueue();
    }

    /** The session after a wake word (the body of `if any(word in text ...)`);
        `more` is false when the input ran out. */
    method Session() returns (more: bool)
      requires Valid() && !isSpeaking
      modifies this, q
      ensures Valid() && !isSpeaking
      ensures var t := AfterWake(old(Pending()), answer);
        log == old(log) + t.events && more == t.rest.Some?
        && (more ==> Pending() == t.rest.value)
    {
      ghost var start := Pending();
      Greet();
      ghost var greeted := log;
      var command, exhausted := ListenWithTimeout(WaitAfterWake);
      if exhausted {
        AfterWakeExhausted(start, answer);
        return false;
      }
      if command.Some? {
        AfterWakeHeard(start, answer);
        ghost var t := Continuous(Pending(), answer);
        more := HeardFirstRound(command.value);
        ghost var turn := Turn(WaitAfterWake, command.value, answer);
        Glue(old(log), Opening, turn, t.events);
      } else {
        AfterWakeSilent(start, answer);
        var exhausted2 := RepromptRound();
        more := !exhausted2;
        Glue(old(log), Opening, Reprompting, []);
      }
    }

    /** One iteration of the main loop: take a chunk; report a final transcript
        and, when it holds a wake word, run a session. `more` is false when the
        input ran out during the session. */
    method MainRound() returns (more: bool)
      requires Valid() && !isSpeaking && |heard| > 0
      modifies this, q
      ensures Valid() && !isSpeaking
      ensures RoundOutcome(old(Pending()), answer, old(log), log, Pending(), more)
    {
      more := true;
      var v := TakeChunk();
      if v.accepted && v.text != "" {
        log := log + [Recognised(v.text)];
        if IsWake(v.text) {
          log := log + [Woke];
          more := Session();
        }
      }
    }

    /** Start-up, before the input stream opens: two tones, then the
        announcement. */
    method Start()
      requires Valid()
      modifies this, q
      ensures Valid() && !isSpeaking && q.items == []
      ensures log == old(log) + [Tone(StartTones[0]), Tone(StartTones[1])] + SpeakEvents(Ready)
      ensures Pending() == old(Pending())
    {
      PlayTone(StartTones[0]);
      PlayTone(StartTones[1]);
      Speak(Ready);
    }

    /** The main `while True` loop, run until the input runs out. The flag is
        always down at the top of an iteration, so its busy-wait never fires. */
    method Run()
      requires Valid() && !isSpeaking
      modifies this, q
      ensures Valid() && !isSpeaking
      ensures log == old(log) + MainLoop(old(Pending()), answer)
    {
      while |heard| > 0
        invariant Valid() && !isSpeaking
        invariant old(log) + MainLoop(old(Pending()), answer) == log + MainLoop(Pending(), answer)
        decreases |heard|
      {
        ghost var before := Pending();
        ghost var logBefore := log;
        var more := MainRound();
        RoundAdvances(before, answer, logBefore, log, Pending(), more);
        if !more {
          return;
        }
      }
    }
  }
}
