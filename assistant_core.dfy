/** The intent classifier and reply generator of assistant_core.py: a prioritised
    keyword classifier into four labels and a total label-to-reply map. */
module AssistantCore {
  import opened Text

  const TimeWords: seq<string> := ["समय", "टाइम", "घड़ी"]
  const WeatherWords: seq<string> := ["मौसम", "तापमान"]
  const GreetingWords: seq<string> := ["नमस्ते", "हैलो"]

  /** The four labels `detect_intent` returns. */
  const TimeQuery := "TIME_QUERY"
  const WeatherQuery := "WEATHER_QUERY"
  const Greeting := "GREETING"
  const Unknown := "UNKNOWN"

  const WeatherReply := "आज का मौसम साफ और सुहावना है"
  const GreetingReply := "नमस्ते, मैं आपकी कैसे सहायता कर सकती हूँ"
  const FallbackReply := "माफ कीजिए, मैं समझ नहीं पाई"
  /** The fixed parts of the time reply around the hour and the minute. */
  const TimeLead := "अभी समय है "
  const TimeMiddle := " बजकर "
  const TimeTail := " मिनट"

  predicate IsLabel(s: string) {
    s == TimeQuery || s == WeatherQuery || s == Greeting || s == Unknown
  }

  /** The keyword tests of `detect_intent` in priority order (time, weather,
      greeting), applied to an already stripped text; no keyword gives UNKNOWN. */
  function Classify(t: string): (r: string)
    ensures IsLabel(r)
  {
    if ContainsAny(t, TimeWords) then TimeQuery
    else if ContainsAny(t, WeatherWords) then WeatherQuery
    else if ContainsAny(t, GreetingWords) then Greeting
    else Unknown
  }

  /** `detect_intent`: strip the text, then classify it. */
  function DetectIntent(text: string): (r: string)
    ensures IsLabel(r)
  {
    Classify(Strip(text))
  }

  /** A keyword list whose entries are non-empty and have no whitespace at either
      end, so that stripping the text cannot change whether they occur. */
  predicate SpaceFreeEnds(words: seq<string>) {
    forall i :: 0 <= i < |words| ==>
      |words[i]| > 0 && !IsSpace(words[i][0]) && !IsSpace(words[i][|words[i]| - 1])
  }

  lemma StripKeepsWords(text: string, words: seq<string>)
    requires SpaceFreeEnds(words)
    ensures ContainsAny(Strip(text), words) <==> ContainsAny(text, words)
  {
    forall i | 0 <= i < |words|
      ensures Contains(Strip(text), words[i]) <==> Contains(text, words[i])
    {
      ContainsStrip(text, words[i]);
    }
  }

  lemma KeywordsHaveSpaceFreeEnds()
    ensures SpaceFreeEnds(TimeWords) && SpaceFreeEnds(WeatherWords) && SpaceFreeEnds(GreetingWords)
  {
  }

  /** The classification, stated on the text as given: a time keyword anywhere
      wins; weather needs no time keyword; greeting needs neither; UNKNOWN is
      exactly the absence of all seven keywords. */
  lemma DetectIntentPriority(text: string)
    ensures DetectIntent(text) == TimeQuery <==> ContainsAny(text, TimeWords)
    ensures DetectIntent(text) == WeatherQuery <==>
      !ContainsAny(text, TimeWords) && ContainsAny(text, WeatherWords)
    ensures DetectIntent(text) == Greeting <==>
      !ContainsAny(text, TimeWords) && !ContainsAny(text, WeatherWords)
      && ContainsAny(text, GreetingWords)
    ensures DetectIntent(text) == Unknown <==>
      !ContainsAny(text, TimeWords + WeatherWords + GreetingWords)
  {
    KeywordsHaveSpaceFreeEnds();
    StripKeepsWords(text, TimeWords);
    StripKeepsWords(text, WeatherWords);
    StripKeepsWords(text, GreetingWords);
    ContainsAnyConcat(text, TimeWords, WeatherWords);
    ContainsAnyConcat(text, TimeWords + WeatherWords, GreetingWords);
  }

  /** The label depends only on the stripped text. */
  lemma DetectIntentIgnoresStrip(text: string)
    ensures DetectIntent(Strip(text)) == DetectIntent(text)
  {
    StripIdempotent(text);
  }

  /** `generate_response`: total over every string; WEATHER_QUERY and GREETING
      get fixed replies, TIME_QUERY the hour and minute of the supplied clock
      reading, and every other string, UNKNOWN included, the apology. */
  function GenerateResponse(intent: string, hour: nat, minute: nat): (r: string)
    ensures intent == TimeQuery ==> TimeReplyFields(r) == Some((hour, minute))
    ensures intent == WeatherQuery ==> r == WeatherReply
    ensures intent == Greeting ==> r == GreetingReply
    ensures !(intent in {TimeQuery, WeatherQuery, Greeting}) ==> r == FallbackReply
  {
    if intent == TimeQuery then
      var r := TimeLead + Decimal(hour) + TimeMiddle + Decimal(minute) + TimeTail;
      TimeReplyRoundTrip(hour, minute);
      r
    else if intent == WeatherQuery then WeatherReply
    else if intent == Greeting then GreetingReply
    else FallbackReply
  }

  /** Length of the run of decimal digits at the start of `s`. */
  function DigitRun(s: string): (n: nat)
    ensures n <= |s| && forall i :: 0 <= i < n ==> IsDigit(s[i])
    ensures n < |s| ==> !IsDigit(s[n])
  {
    if |s| > 0 && IsDigit(s[0]) then 1 + DigitRun(s[1..]) else 0
  }

  /** Reads two numbers back out of `lead`, numeral, `middle`, numeral, `tail`,
      or `None` when the string is not shaped like that. Numerals are read only
      in the form `str(n)` writes them, so a zero-padded field is refused. */
  function TwoFields(r: string, lead: string, middle: string, tail: string): Option<(nat, nat)> {
    if !IsPrefix(lead, r) then None else DigitsThen(r[|lead|..], middle, tail)
  }

  /** A numeral, `middle`, a numeral, `tail`. */
  function DigitsThen(s: string, middle: string, tail: string): Option<(nat, nat)> {
    var h := DigitRun(s);
    if !Numeral(s[..h]) || !IsPrefix(middle, s[h..]) then None
    else match LastDigits(s[h..][|middle|..], tail)
      case None => None
      case Some(m) => Some((DigitsValue(s[..h]), m))
  }

  /** A numeral, then exactly `tail`. */
  function LastDigits(u: string, tail: string): Option<nat> {
    var m := DigitRun(u);
    if !Numeral(u[..m]) || u[m..] != tail then None else Some(DigitsValue(u[..m]))
  }

  /** Reads the hour and minute back out of a time reply. */
  function TimeReplyFields(r: string): Option<(nat, nat)> {
    TwoFields(r, TimeLead, TimeMiddle, TimeTail)
  }

  lemma {:induction false} DigitRunOfDecimal(n: nat, rest: string)
    requires rest == [] || !IsDigit(rest[0])
    ensures DigitRun(Decimal(n) + rest) == |Decimal(n)|
  {
    var d := Decimal(n);
    DigitRunPrefix(d, rest);
  }

  lemma {:induction false} DigitRunPrefix(d: string, rest: string)
    requires forall i :: 0 <= i < |d| ==> IsDigit(d[i])
    requires rest == [] || !IsDigit(rest[0])
    ensures DigitRun(d + rest) == |d|
    decreases |d|
  {
    if |d| > 0 {
      assert (d + rest)[1..] == d[1..] + rest;
      DigitRunPrefix(d[1..], rest);
    } else {
      assert d + rest == rest;
    }
  }

  lemma SliceConcat(a: string, b: string)
    ensures (a + b)[..|a|] == a && (a + b)[|a|..] == b
  {
  }

  lemma LastDigitsOf(y: nat, tail: string)
    requires tail == [] || !IsDigit(tail[0])
    ensures LastDigits(Decimal(y) + tail, tail) == Some(y)
  {
    SliceConcat(Decimal(y), tail);
    DigitRunOfDecimal(y, tail);
    DecimalRoundTrip(y);
  }

  lemma DigitsThenOf(x: nat, y: nat, middle: string, tail: string)
    requires middle != [] && !IsDigit(middle[0])
    requires tail == [] || !IsDigit(tail[0])
    ensures DigitsThen(Decimal(x) + (middle + (Decimal(y) + tail)), middle, tail) == Some((x, y))
  {
    var dx := Decimal(x);
    var after := middle + (Decimal(y) + tail);
    SliceConcat(dx, after);
    DigitRunOfDecimal(x, after);
    SliceConcat(middle, Decimal(y) + tail);
    LastDigitsOf(y, tail);
    DecimalRoundTrip(x);
  }

  /** Two numbers written in decimal between separators that do not start with a
      digit are read back by `TwoFields`. */
  lemma TwoFieldsRoundTrip(x: nat, y: nat, lead: string, middle: string, tail: string)
    requires middle != [] && !IsDigit(middle[0])
    requires tail == [] || !IsDigit(tail[0])
    ensures TwoFields(lead + Decimal(x) + middle + Decimal(y) + tail, lead, middle, tail) == Some((x, y))
  {
    var body := Decimal(x) + (middle + (Decimal(y) + tail));
    ConcatAssoc(lead, Decimal(x), middle, Decimal(y), tail);
    AfterLead(lead, body, middle, tail);
    DigitsThenOf(x, y, middle, tail);
  }

  lemma ConcatAssoc(a: string, b: string, c: string, d: string, e: string)
    ensures a + b + c + d + e == a + (b + (c + (d + e)))
  {
  }

  lemma AfterLead(lead: string, body: string, middle: string, tail: string)
    ensures TwoFields(lead + body, lead, middle, tail) == DigitsThen(body, middle, tail)
  {
    SliceConcat(lead, body);
  }

  lemma LastDigitsExact(u: string, tail: string, y: nat)
    requires LastDigits(u, tail) == Some(y)
    ensures u == Decimal(y) + tail
  {
    var m := DigitRun(u);
    DecimalOfNumeral(u[..m]);
    assert u == u[..m] + u[m..];
  }

  lemma DigitsThenExact(s: string, middle: string, tail: string, x: nat, y: nat)
    requires DigitsThen(s, middle, tail) == Some((x, y))
    ensures s == Decimal(x) + (middle + (Decimal(y) + tail))
  {
    var h := DigitRun(s);
    var after := s[h..];
    var u := after[|middle|..];
    LastDigitsExact(u, tail, y);
    DecimalOfNumeral(s[..h]);
    assert after == middle + u;
    assert s == s[..h] + after;
  }

  /** The converse of `TwoFieldsRoundTrip`: a string `TwoFields` reads as
      `(x, y)` is the one built from `x` and `y`, so the layout and the two
      numbers determine the text. */
  lemma TwoFieldsExact(r: string, lead: string, middle: string, tail: string, x: nat, y: nat)
    requires TwoFields(r, lead, middle, tail) == Some((x, y))
    ensures r == lead + Decimal(x) + middle + Decimal(y) + tail
  {
    DigitsThenExact(r[|lead|..], middle, tail, x, y);
    assert r == lead + r[|lead|..];
    ConcatAssoc(lead, Decimal(x), middle, Decimal(y), tail);
  }

  /** A string read as a time reply for `hour` and `minute` is exactly the reply
      `generate_response` writes for them, with `str(hour)` and `str(minute)`. */
  lemma TimeReplyExact(r: string, hour: nat, minute: nat)
    requires TimeReplyFields(r) == Some((hour, minute))
    ensures r == TimeLead + Decimal(hour) + TimeMiddle + Decimal(minute) + TimeTail
  {
    TwoFieldsExact(r, TimeLead, TimeMiddle, TimeTail, hour, minute);
  }

  /** The time reply carries the hour and the minute it was built from. */
  lemma TimeReplyRoundTrip(hour: nat, minute: nat)
    ensures TimeReplyFields(TimeLead + Decimal(hour) + TimeMiddle + Decimal(minute) + TimeTail)
         == Some((hour, minute))
  {
    assert TimeMiddle[0] == ' ' && TimeTail[0] == ' ';
    TwoFieldsRoundTrip(hour, minute, TimeLead, TimeMiddle, TimeTail);
  }
}
