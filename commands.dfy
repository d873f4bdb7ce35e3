/** Wake-word test and reply selection of hindi_voice_assistant.py: the
    `WAKE_WORDS` list, `process_command`'s ordered keyword table, its if/elif
    chain of substring tests and its fallback, and the date helpers it uses.
    The wall clock is a `Calendar` value supplied by the caller. */
module Commands {
  import opened Text

  /** `WAKE_WORDS` in source order; the first and third entries are the same
      string and the fourth contains the first. */
  const WakeWords: seq<string> := ["निरंजन", "निरञ्जन", "निरंजन", "हे निरंजन", "निरंतर"]

  /** `any(word in text for word in WAKE_WORDS)`. */
  predicate IsWake(text: string) {
    ContainsAny(text, WakeWords)
  }

  /** The list's duplicate and its "हे ..." entry add nothing: three words decide
      the wake test. */
  lemma WakeWordsReduce(text: string)
    ensures IsWake(text) <==>
      Contains(text, "निरंजन") || Contains(text, "निरञ्जन") || Contains(text, "निरंतर")
  {
    ContainsAt("हे निरंजन", "निरंजन", 3);
    if Contains(text, "हे निरंजन") {
      ContainsTransitive(text, "हे निरंजन", "निरंजन");
    }
    if Contains(text, "निरंजन") {
      assert Contains(text, WakeWords[0]);
    }
    if Contains(text, "निरञ्जन") {
      assert Contains(text, WakeWords[1]);
    }
    if Contains(text, "निरंतर") {
      assert Contains(text, WakeWords[4]);
    }
  }

  /** `COMMANDS`: keyword/reply pairs in the dictionary's insertion order. */
  const CommandTable: seq<(string, string)> := [
    ("ताजमहल", "ताजमहल आगरा में स्थित है"),
    ("प्रधानमंत्री", "भारत के प्रधानमंत्री नरेंद्र मोदी हैं"),
    ("राजधानी", "भारत की राजधानी नई दिल्ली है"),
    ("राष्ट्रीय खेल", "भारत का कोई आधिकारिक राष्ट्रीय खेल नहीं है"),
    ("सबसे लंबी नदी", "दुनिया की सबसे लंबी नदी नील नदी है"),
    ("आज़ादी", "भारत को आज़ादी पंद्रह अगस्त उन्नीस सौ सैंतालीस को मिली थी"),
    ("जनसंख्या", "भारत की जनसंख्या लगभग एक सौ चालीस करोड़ है"),
    ("मौसम", "माफ़ कीजिए, लाइव मौसम जानकारी के लिए इंटरनेट कनेक्शन आवश्यक है"),
    ("होटल", "पास के होटल की जानकारी के लिए इंटरनेट कनेक्शन आवश्यक है"),
    ("सोने का रेट", "सोने का आज का रेट जानने के लिए इंटरनेट आवश्यक है"),
    ("डीजल", "डीजल का वर्तमान दाम जानने के लिए इंटरनेट आवश्यक है"),
    ("सरकारी योजना", "भारत सरकार की कई योजनाएँ हैं जैसे उज्ज्वला योजना, जन धन योजना और आयुष्मान भारत"),
    ("किसान योजना", "प्रधानमंत्री किसान सम्मान निधि योजना के तहत किसानों को आर्थिक सहायता दी जाती है"),
    ("मोटिवेशन", "सफलता उन्हीं को मिलती है जो मेहनत करने से नहीं डरते")
  ]

  /** The test of one branch of the if/elif chain: every word occurs, or (for
      the last branch) some word occurs. */
  datatype Guard = AllOf(words: seq<string>) | AnyOf(words: seq<string>)

  predicate Holds(g: Guard, text: string) {
    match g
    case AllOf(ws) => forall i :: 0 <= i < |ws| ==> Contains(text, ws[i])
    case AnyOf(ws) => ContainsAny(text, ws)
  }

  /** What a branch speaks: a fixed sentence, or a sentence built from the clock. */
  datatype Answer = Fixed(sentence: string) | ClockTime | TodayDate | TodayName | NextSunday

  datatype Branch = Branch(guard: Guard, answer: Answer)

  /** The if/elif chain of `process_command`, branch by branch in source order. */
  const Chain: seq<Branch> := [
    Branch(AllOf(["चाँद", "पहला"]), Fixed("चाँद पर पहला इंसान नील आर्मस्ट्रांग थे")),
    Branch(AllOf(["कौन हो"]), Fixed("मैं निरंजन हूँ, मैं आपकी सहायता के लिए बना हूँ")),
    Branch(AllOf(["एक दिन", "घंटे"]), Fixed("एक दिन में चौबीस घंटे होते हैं")),
    Branch(AllOf(["एक मिनट", "सेकंड"]), Fixed("एक मिनट में साठ सेकंड होते हैं")),
    Branch(AllOf(["किलोमीटर", "मीटर"]), Fixed("एक किलोमीटर में एक हज़ार मीटर होते हैं")),
    Branch(AllOf(["किलो", "ग्राम"]), Fixed("एक किलो में एक हज़ार ग्राम होते हैं")),
    Branch(AllOf(["लीटर", "मिलीलीटर"]), Fixed("एक लीटर में एक हज़ार मिलीलीटर होते हैं")),
    Branch(AllOf(["समय"]), ClockTime),
    Branch(AllOf(["तारीख"]), TodayDate),
    Branch(AllOf(["कौन सा दिन"]), TodayName),
    Branch(AllOf(["अगला रविवार"]), NextSunday),
    Branch(AnyOf(["100 डॉलर", "डॉलर"]), Fixed("सौ डॉलर लगभग आठ हज़ार तीन सौ रुपये होते हैं"))
  ]

  /** The `else` reply of the chain. */
  const Apology := "माफ़ कीजिए, क्या आप फिर से कह सकते हैं?"

  /** The wall-clock readings `process_command` takes through the `time` module. */
  datatype Calendar = Calendar(
    hour: nat,                 // %H
    minute: nat,               // %M
    weekday: nat,              // tm_wday: Monday is 0, Sunday is 6
    dayName: string,           // %A
    day: string,               // %d
    month: string,             // %B, the English month name in the C locale
    year: string,              // %Y
    now: int,                  // time.time(), in whole seconds
    dateAt: int -> string      // strftime("%d %B %Y", localtime(t))
  )

  predicate ValidCalendar(c: Calendar) {
    c.hour < 24 && c.minute < 60 && c.weekday < 7
  }

  /** The `months` dictionary of `get_hindi_date`. */
  const Months: map<string, string> := map[
    "January" := "जनवरी", "February" := "फ़रवरी", "March" := "मार्च",
    "April" := "अप्रैल", "May" := "मई", "June" := "जून",
    "July" := "जुलाई", "August" := "अगस्त", "September" := "सितंबर",
    "October" := "अक्टूबर", "November" := "नवंबर", "December" := "दिसंबर"
  ]

  /** `months.get(month_en, month_en)`: the Hindi name, or the name itself when
      the dictionary does not know it. */
  function HindiMonth(month: string): (r: string)
    ensures month in Months ==> r == Months[month] && r != month
    ensures month !in Months ==> r == month
  {
    if month in Months then Months[month] else month
  }

  /** No two English months share a Hindi name, so the Hindi month in a spoken
      date identifies the English one. */
  lemma MonthNamesDistinct(a: string, b: string)
    requires a in Months && b in Months && HindiMonth(a) == HindiMonth(b)
    ensures a == b
  {
  }

  /** `get_hindi_date`: day, Hindi month and year separated by single spaces. */
  function HindiDate(c: Calendar): (r: string)
    ensures |r| == |c.day| + |HindiMonth(c.month)| + |c.year| + 2
    ensures r[..|c.day| + 1] == c.day + " "
    ensures r[|r| - |c.year| - 1..] == " " + c.year
    ensures r[|c.day| + 1..|r| - |c.year| - 1] == HindiMonth(c.month)
  {
    var m := HindiMonth(c.month);
    SpacedFields(c.day, m, c.year);
    c.day + " " + m + " " + c.year
  }

  /** Where the three fields sit in `a + " " + m + " " + b`. */
  lemma SpacedFields(a: string, m: string, b: string)
    ensures var r := a + " " + m + " " + b;
      |r| == |a| + |m| + |b| + 2 && r[..|a| + 1] == a + " "
      && r[|r| - |b| - 1..] == " " + b && r[|a| + 1..|r| - |b| - 1] == m
  {
    var r := a + " " + m + " " + b;
    assert r[|a| + 1..|r| - |b| - 1] == m;
  }

  /** The `tm_wday` number of the day `k` days after one numbered `weekday`. */
  function WeekdayAfter(weekday: nat, k: nat): nat {
    (weekday + k) % 7
  }

  /** Days from `tm_wday` to the next Sunday: `6 - tm_wday`, plus a week when
      that is not positive. The result is the nearest strictly later Sunday. */
  function DaysToNextSunday(weekday: nat): (d: nat)
    requires weekday < 7
    ensures 1 <= d <= 7
    ensures WeekdayAfter(weekday, d) == 6
    ensures forall k :: 1 <= k < d ==> WeekdayAfter(weekday, k) != 6
  {
    var ahead := 6 - weekday;
    if ahead <= 0 then ahead + 7 else ahead
  }

  const SecondsPerDay := 86400

  /** The sentence a branch speaks, given the calendar. */
  function Render(a: Answer, c: Calendar): string
    requires ValidCalendar(c)
  {
    match a
    case Fixed(s) => s
    case ClockTime => "अभी समय है " + TwoDigits(c.hour) + ":" + TwoDigits(c.minute)
    case TodayDate => "आज की तारीख है " + HindiDate(c)
    case TodayName => "आज " + c.dayName + " है"
    case NextSunday =>
      "अगला रविवार " + c.dateAt(c.now + DaysToNextSunday(c.weekday) * SecondsPerDay) + " को है"
  }

  /** First-match selection over a keyword table and a branch chain: the first
      key that occurs in the text, else the first branch whose test holds, else
      the apology. */
  function Select(text: string, table: seq<(string, string)>, chain: seq<Branch>, c: Calendar): string
    requires ValidCalendar(c)
  {
    match FirstWhere(table, (e: (string, string)) => Contains(text, e.0))
    case Some(i) => table[i].1
    case None =>
      match FirstWhere(chain, (b: Branch) => Holds(b.guard, text))
      case Some(j) => Render(chain[j].answer, c)
      case None => Apology
  }

  /** The reply `process_command` speaks for `text`. */
  function Reply(text: string, c: Calendar): string
    requires ValidCalendar(c)
  {
    Select(text, CommandTable, Chain, c)
  }

  /** Key `i` occurs in the text and no earlier key does. */
  predicate KeyIsFirst(text: string, table: seq<(string, string)>, i: int) {
    0 <= i < |table| && Contains(text, table[i].0)
    && forall k :: 0 <= k < i ==> !Contains(text, table[k].0)
  }

  predicate NoKey(text: string, table: seq<(string, string)>) {
    forall k :: 0 <= k < |table| ==> !Contains(text, table[k].0)
  }

  /** Branch `j`'s test holds and no earlier branch's does. */
  predicate BranchIsFirst(text: string, chain: seq<Branch>, j: int) {
    0 <= j < |chain| && Holds(chain[j].guard, text)
    && forall k :: 0 <= k < j ==> !Holds(chain[k].guard, text)
  }

  predicate NoBranch(text: string, chain: seq<Branch>) {
    forall k :: 0 <= k < |chain| ==> !Holds(chain[k].guard, text)
  }

  /** First match wins, for any table and chain. */
  lemma SelectFirstMatch(text: string, table: seq<(string, string)>, chain: seq<Branch>, c: Calendar)
    requires ValidCalendar(c)
    ensures forall i :: KeyIsFirst(text, table, i) ==> Select(text, table, chain, c) == table[i].1
    ensures NoKey(text, table) ==>
      forall j :: BranchIsFirst(text, chain, j) ==> Select(text, table, chain, c) == Render(chain[j].answer, c)
    ensures NoKey(text, table) && NoBranch(text, chain) ==> Select(text, table, chain, c) == Apology
  {
    var key := (e: (string, string)) => Contains(text, e.0);
    var branch := (b: Branch) => Holds(b.guard, text);
    forall i | KeyIsFirst(text, table, i)
      ensures Select(text, table, chain, c) == table[i].1
    {
      FirstWhereAt(table, key, i);
    }
    if NoKey(text, table) {
      FirstWhereNone(table, key);
      forall j | BranchIsFirst(text, chain, j)
        ensures Select(text, table, chain, c) == Render(chain[j].answer, c)
      {
        FirstWhereAt(chain, branch, j);
      }
      if NoBranch(text, chain) {
        FirstWhereNone(chain, branch);
      }
    }
  }

  /** `process_command`'s reply: the earliest key of `COMMANDS` that occurs
      decides it; with no key, the earliest branch of the chain whose test
      holds; with neither, the apology. */
  lemma ReplyFirstMatch(text: string, c: Calendar)
    requires ValidCalendar(c)
    ensures forall i :: KeyIsFirst(text, CommandTable, i) ==> Reply(text, c) == CommandTable[i].1
    ensures NoKey(text, CommandTable) ==>
      forall j :: BranchIsFirst(text, Chain, j) ==> Reply(text, c) == Render(Chain[j].answer, c)
    ensures NoKey(text, CommandTable) && NoBranch(text, Chain) ==> Reply(text, c) == Apology
  {
    SelectFirstMatch(text, CommandTable, Chain, c);
  }

  /** The dollar branch's first alternative is implied by its second: the test is
      simply whether "डॉलर" occurs. */
  lemma DollarTestIsOneWord(text: string)
    ensures Holds(Chain[11].guard, text) <==> Contains(text, "डॉलर")
  {
    var g := Chain[11].guard;
    assert g.words == ["100 डॉलर", "डॉलर"];
    ContainsAt("100 डॉलर", "डॉलर", 4);
    if Contains(text, "100 डॉलर") {
      ContainsTransitive(text, "100 डॉलर", "डॉलर");
    }
    if Contains(text, "डॉलर") {
      assert Contains(text, g.words[1]);
    }
  }

  /** The litre branch's first word is implied by its second: the test is simply
      whether "मिलीलीटर" occurs. */
  lemma LitreTestIsOneWord(text: string)
    ensures Holds(Chain[6].guard, text) <==> Contains(text, "मिलीलीटर")
  {
    var g := Chain[6].guard;
    assert g.words == ["लीटर", "मिलीलीटर"];
    ContainsAt("मिलीलीटर", "लीटर", 4);
    if Contains(text, "मिलीलीटर") {
      ContainsTransitive(text, "मिलीलीटर", "लीटर");
      assert Contains(text, g.words[0]) && Contains(text, g.words[1]);
    }
    if Holds(g, text) {
      assert Contains(text, g.words[1]);
    }
  }

  /** Insertion order shadows later keys: a request that mentions the prime
      minister gets the prime-minister reply even when it names the farmers'
      scheme ("किसान योजना"), as long as "ताजमहल" does not occur. */
  lemma PrimeMinisterShadowsKisanScheme(text: string, c: Calendar)
    requires ValidCalendar(c)
    requires Contains(text, "प्रधानमंत्री") && !Contains(text, "ताजमहल")
    ensures Reply(text, c) == "भारत के प्रधानमंत्री नरेंद्र मोदी हैं"
  {
    var table := CommandTable;
    assert table[0].0 == "ताजमहल" && table[1] == ("प्रधानमंत्री", "भारत के प्रधानमंत्री नरेंद्र मोदी हैं");
    SecondKeyWins(text, table, Chain, c);
  }

  /** With the first key absent and the second present, the second key's reply
      is chosen. */
  lemma SecondKeyWins(text: string, table: seq<(string, string)>, chain: seq<Branch>, c: Calendar)
    requires ValidCalendar(c) && |table| >= 2
    requires !Contains(text, table[0].0) && Contains(text, table[1].0)
    ensures Select(text, table, chain, c) == table[1].1
  {
    assert KeyIsFirst(text, table, 1);
    SelectFirstMatch(text, table, chain, c);
  }
}
