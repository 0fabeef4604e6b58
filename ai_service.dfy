/**
 * The backend's AI service: the chronological transcript handed to the model,
 * and the guard, date-phrase, token-budget and prompt-assembly rules of
 * `generateSummary` and `answerQuestion`.
 *
 * The chat-completion call is a function from the request to its outcome; the
 * two long default system prompts are functions of what they embed.
 */
module AiService {
  import opened Wrappers
  import opened JsText
  import opened WhatsAppService

  // ---------------------------------------------------------------------------
  // Chronological order: `[...messages].sort((a, b) => a.timestamp - b.timestamp)`

  predicate SortedByTime(s: seq<WaMessage>) {
    forall i, j :: 0 <= i < j < |s| ==> s[i].timestamp <= s[j].timestamp
  }

  lemma ConsSorted(m: WaMessage, s: seq<WaMessage>)
    requires SortedByTime(s) && (s != [] ==> m.timestamp <= s[0].timestamp)
    ensures SortedByTime([m] + s)
  {
    var r := [m] + s;
    forall i, j | 0 <= i < j < |r|
      ensures r[i].timestamp <= r[j].timestamp
    {
      assert r[j] == s[j - 1];
      if i > 0 {
        assert r[i] == s[i - 1];
      } else {
        assert s[0].timestamp <= s[j - 1].timestamp;
      }
    }
  }

  /** Places `x` before the first message of `s` that is later than it. */
  function Insert(x: WaMessage, s: seq<WaMessage>): (r: seq<WaMessage>)
    ensures |r| == |s| + 1
  {
    if s == [] then [x]
    else if x.timestamp < s[0].timestamp then [x] + s
    else [s[0]] + Insert(x, s[1..])
  }

  /** Inserting into a sorted sequence keeps it sorted, and adds exactly `x`. */
  lemma {:induction false} InsertSpec(x: WaMessage, s: seq<WaMessage>)
    requires SortedByTime(s)
    ensures var r := Insert(x, s);
            SortedByTime(r) && (r[0] == x || (s != [] && r[0] == s[0]))
            && multiset(r) == multiset(s) + multiset{x}
  {
    if s != [] && x.timestamp >= s[0].timestamp {
      var rest := Insert(x, s[1..]);
      assert SortedByTime(s[1..]) by {
        forall i, j | 0 <= i < j < |s| - 1 ensures s[1..][i].timestamp <= s[1..][j].timestamp {
          assert s[1..][i] == s[i + 1] && s[1..][j] == s[j + 1];
        }
      }
      InsertSpec(x, s[1..]);
      if |s| > 1 {
        assert s[0].timestamp <= s[1].timestamp;
      }
      ConsSorted(s[0], rest);
      assert s == [s[0]] + s[1..];
    } else if s != [] {
      ConsSorted(x, s);
    }
  }

  /** A stable sort by timestamp (`Array.prototype.sort` is stable). */
  function SortByTime(s: seq<WaMessage>): (r: seq<WaMessage>)
    ensures |r| == |s|
  {
    if s == [] then [] else Insert(s[|s| - 1], SortByTime(s[..|s| - 1]))
  }

  /** The sort returns its input in chronological order: sorted, and a
      permutation of it. */
  lemma {:induction false} SortByTimeSpec(s: seq<WaMessage>)
    ensures SortedByTime(SortByTime(s))
    ensures multiset(SortByTime(s)) == multiset(s)
  {
    if s != [] {
      var init, last := s[..|s| - 1], s[|s| - 1];
      var sortedInit := SortByTime(init);
      SortByTimeSpec(init);
      InsertSpec(last, sortedInit);
      assert SortByTime(s) == Insert(last, sortedInit);
      assert s == init + [last];
      assert multiset(s) == multiset(init) + multiset{last};
    }
  }

  /** The messages of `s` sent at second `t`, in their order in `s`. */
  function AtTime(s: seq<WaMessage>, t: int): seq<WaMessage> {
    if s == [] then []
    else (if s[0].timestamp == t then [s[0]] else []) + AtTime(s[1..], t)
  }

  lemma {:induction false} AtTimeAppend(a: seq<WaMessage>, b: seq<WaMessage>, t: int)
    ensures AtTime(a + b, t) == AtTime(a, t) + AtTime(b, t)
  {
    if a == [] {
      assert a + b == b;
    } else {
      var head := if a[0].timestamp == t then [a[0]] else [];
      assert (a + b)[0] == a[0] && (a + b)[1..] == a[1..] + b;
      assert AtTime(a + b, t) == head + AtTime(a[1..] + b, t);
      AtTimeAppend(a[1..], b, t);
      Associative(head, AtTime(a[1..], t), AtTime(b, t));
    }
  }

  lemma {:induction false} AtTimeOfLater(s: seq<WaMessage>, t: int)
    requires forall i :: 0 <= i < |s| ==> s[i].timestamp > t
    ensures AtTime(s, t) == []
  {
    if s != [] {
      AtTimeOfLater(s[1..], t);
    }
  }

  /** Inserting `x` puts it after every message sent at the same second. */
  lemma {:induction false} AtTimeInsert(x: WaMessage, s: seq<WaMessage>, t: int)
    requires SortedByTime(s)
    ensures AtTime(Insert(x, s), t) == AtTime(s, t) + AtTime([x], t)
  {
    if s == [] {
    } else if x.timestamp < s[0].timestamp {
      if x.timestamp == t {
        AtTimeOfLater(s, t);
      }
    } else {
      AtTimeInsert(x, s[1..], t);
    }
  }

  /** Stability: messages sent at the same second keep their relative order. */
  lemma {:induction false} SortByTimeStable(s: seq<WaMessage>, t: int)
    ensures AtTime(SortByTime(s), t) == AtTime(s, t)
  {
    if s != [] {
      var init, last := s[..|s| - 1], s[|s| - 1];
      SortByTimeStable(init, t);
      SortByTimeSpec(init);
      AtTimeInsert(last, SortByTime(init), t);
      assert s == init + [last];
      AtTimeAppend(init, [last], t);
    }
  }

  // ---------------------------------------------------------------------------
  // formatMessagesForAI

  const TranscriptHeader := "Conversation History:\n"

  /** `msg.fromMe ? 'You' : (msg.author || msg.from)`. */
  function Sender(m: WaMessage): (who: string)
    ensures m.fromMe ==> who == "You"
    ensures !m.fromMe && Truthy(m.author) ==> who == m.author.value
    ensures !m.fromMe && !Truthy(m.author) ==> who == m.from
  {
    if m.fromMe then "You" else Or(m.author, Some(m.from)).GetOr(m.from)
  }

  function Line(m: WaMessage): string {
    Sender(m) + ": " + m.body + "\n"
  }

  /** One line per message, in the order given. */
  function Lines(s: seq<WaMessage>): string {
    if s == [] then "" else Lines(s[..|s| - 1]) + Line(s[|s| - 1])
  }

  /** The transcript of `messages`: the header, then one line per message in
      chronological order. */
  function Transcript(messages: seq<WaMessage>): string {
    TranscriptHeader + Lines(SortByTime(messages))
  }

  lemma {:induction false} LinesAppend(a: seq<WaMessage>, b: seq<WaMessage>)
    ensures Lines(a + b) == Lines(a) + Lines(b)
    decreases |b|
  {
    if b == [] {
      assert a + b == a;
    } else {
      var init := b[..|b| - 1];
      var last := b[|b| - 1];
      assert (a + b)[..|a + b| - 1] == a + init;
      assert (a + b)[|a + b| - 1] == last;
      assert Lines(a + b) == Lines(a + init) + Line(last);
      LinesAppend(a, init);
      assert Lines(b) == Lines(init) + Line(last);
      Associative(Lines(a), Lines(init), Line(last));
    }
  }

  lemma LinesSnoc(s: seq<WaMessage>, i: nat)
    requires i < |s|
    ensures Lines(s[..i + 1]) == Lines(s[..i]) + Line(s[i])
  {
    assert s[..i + 1][..i] == s[..i];
  }

  /** The lines of a transcript follow the messages one by one: the line of a
      message comes right after the lines of everything sorted before it. */
  lemma {:induction false} TranscriptLines(messages: seq<WaMessage>, i: nat)
    requires i < |messages|
    ensures var sorted := SortByTime(messages);
            Transcript(messages) == TranscriptHeader + Lines(sorted[..i]) + Line(sorted[i]) + Lines(sorted[i + 1..])
  {
    var sorted := SortByTime(messages);
    var before, line, after := Lines(sorted[..i]), Line(sorted[i]), Lines(sorted[i + 1..]);
    LinesAround(sorted, i);
    PrefixOfThree(TranscriptHeader, Lines(sorted), before, line, after);
  }

  lemma Associative<T>(x: seq<T>, y: seq<T>, z: seq<T>)
    ensures (x + y) + z == x + (y + z)
  {
  }

  /** Putting one string in front of a concatenation of three. */
  lemma PrefixOfThree(h: string, x: string, a: string, b: string, c: string)
    requires x == a + b + c
    ensures h + x == h + a + b + c
  {
  }

  lemma {:induction false} LinesAround(s: seq<WaMessage>, i: nat)
    requires i < |s|
    ensures Lines(s) == Lines(s[..i]) + Line(s[i]) + Lines(s[i + 1..])
  {
    var before, x, after := s[..i], s[i], s[i + 1..];
    assert s == before + [x] + after;
    LinesAppend(before + [x], after);
    LinesAppend(before, [x]);
    assert Lines([x]) == Line(x) by {
      assert [x][..0] == [];
    }
  }

  /** `formatMessagesForAI(messages)`: sorts a copy (the caller's sequence is a
      value and stays as it was) and appends one line per message. */
  method FormatMessagesForAI(messages: seq<WaMessage>) returns (text: string)
    ensures text == Transcript(messages)
  {
    var sorted := SortByTime(messages);
    text := TranscriptHeader;
    for i := 0 to |sorted|
      invariant text == TranscriptHeader + Lines(sorted[..i])
    {
      LinesSnoc(sorted, i);
      Associative(TranscriptHeader, Lines(sorted[..i]), Line(sorted[i]));
      text := text + Line(sorted[i]);
    }
    assert sorted[..|sorted|] == sorted;
  }

  // ---------------------------------------------------------------------------
  // generateSummary: date phrase, token budget, prompt augmentation

  /** `dateRangeInfo`. */
  function DateRangePhrase(startDate: Option<string>, endDate: Option<string>): (phrase: string)
    ensures Truthy(startDate) && Truthy(endDate) ==> phrase == " for the period " + startDate.value + " to " + endDate.value
    ensures Truthy(startDate) && !Truthy(endDate) ==> phrase == " starting from " + startDate.value
    ensures !Truthy(startDate) && Truthy(endDate) ==> phrase == " up to " + endDate.value
    ensures phrase == "" <==> !Truthy(startDate) && !Truthy(endDate)
  {
    if Truthy(startDate) && Truthy(endDate) then " for the period " + startDate.value + " to " + endDate.value
    else if Truthy(startDate) then " starting from " + startDate.value
    else if Truthy(endDate) then " up to " + endDate.value
    else ""
  }

  /** Every date that is given appears in the phrase. */
  lemma {:induction false} DateRangePhraseMentions(startDate: Option<string>, endDate: Option<string>)
    ensures Truthy(startDate) ==> Contains(DateRangePhrase(startDate, endDate), startDate.value)
    ensures Truthy(endDate) ==> Contains(DateRangePhrase(startDate, endDate), endDate.value)
  {
    var p := DateRangePhrase(startDate, endDate);
    if Truthy(startDate) {
      var pre := if Truthy(endDate) then " for the period " else " starting from ";
      assert p[|pre|..|pre| + |startDate.value|] == startDate.value;
      assert OccursAt(p, startDate.value, |pre|);
      ContainsIff(p, startDate.value);
    }
    if Truthy(endDate) {
      var pre := if Truthy(startDate) then " for the period " + startDate.value + " to " else " up to ";
      assert p == pre + endDate.value;
      assert p[|pre|..] == endDate.value;
      assert OccursAt(p, endDate.value, |pre|);
      ContainsIff(p, endDate.value);
    }
  }

  /** The detail level named in the default summary prompt. */
  function DetailLevel(n: int): string {
    if n > 1500 then "very detailed and comprehensive, covering as many distinct discussion threads and nuances as possible"
    else if n > 500 then "detailed, covering major topics and important sub-points thoroughly"
    else if n < 100 && n > 0 then "concise but informative, highlighting the absolute key takeaways"
    else "standard"
  }

  function Min(a: int, b: int): int {
    if a <= b then a else b
  }

  /** `maxTokensForSummary` for `n` messages. */
  function MaxTokens(n: int): (tokens: int)
    ensures n > 1500 ==> tokens == 3500
    ensures 500 < n <= 1500 ==> tokens == 3000
    ensures 0 < n < 100 ==> tokens == 1500
    ensures (100 <= n <= 500 || n <= 0) ==> tokens == 2500
    ensures 1500 <= tokens <= 4000
  {
    var tier := if n > 1500 then 3500 else if n > 500 then 3000 else if n < 100 && n > 0 then 1500 else 2500;
    Min(tier, 4000)
  }

  /** More messages never get a smaller budget (for the non-empty lists the
      service sends to the model). */
  lemma MaxTokensMonotone(n1: int, n2: int)
    requires 1 <= n1 <= n2
    ensures MaxTokens(n1) <= MaxTokens(n2)
  {
  }

  const PromptSeparator := "\n\nIMPORTANT: The following is the primary set of instructions you must adhere to:\n\n"

  /** `customPromptText` is used when it is present and not blank. */
  predicate UsesCustom(custom: Option<string>) {
    Truthy(custom) && Trim(custom.value) != ""
  }

  /** `systemPromptToUse`: the trimmed custom text, the fixed separator, then the
      default prompt; or the default prompt alone. */
  function AugmentPrompt(custom: Option<string>, defaultPrompt: string): (prompt: string)
    ensures UsesCustom(custom) ==> prompt == Trim(custom.value) + PromptSeparator + defaultPrompt
    ensures !UsesCustom(custom) ==> prompt == defaultPrompt
  {
    if UsesCustom(custom) then Trim(custom.value) + PromptSeparator + defaultPrompt else defaultPrompt
  }

  /** The default prompt is used unchanged exactly when the custom text is absent
      or all white space; otherwise it is kept whole at the end. */
  lemma {:induction false} AugmentPromptDefaultIff(custom: Option<string>, defaultPrompt: string)
    ensures AugmentPrompt(custom, defaultPrompt) == defaultPrompt <==> custom.None? || IsBlank(custom.value)
    ensures var p := AugmentPrompt(custom, defaultPrompt);
            |defaultPrompt| <= |p| && p[|p| - |defaultPrompt|..] == defaultPrompt
  {
    if custom.Some? {
      TrimEmptyIffBlank(custom.value);
    }
    var p := AugmentPrompt(custom, defaultPrompt);
    if UsesCustom(custom) {
      assert p[|p| - |defaultPrompt|..] == defaultPrompt;
    } else {
      assert p[|p| - |defaultPrompt|..] == p;
    }
  }

  /** Custom text that is already trimmed gives the same prompt. */
  lemma {:induction false} AugmentPromptTrimmed(custom: string, defaultPrompt: string)
    requires custom != ""
    ensures Trim(custom) != "" ==> AugmentPrompt(Some(Trim(custom)), defaultPrompt) == AugmentPrompt(Some(custom), defaultPrompt)
  {
    var t := Trim(custom);
    TrimIdempotent(custom);
    if t != "" {
      assert UsesCustom(Some(t)) && UsesCustom(Some(custom));
    }
  }

  // ---------------------------------------------------------------------------
  // generateSummary and answerQuestion

  /** The request sent to the chat-completion API. */
  datatype ChatRequest = ChatRequest(system: string, user: string, maxTokens: int, temperature: real)

  /** What the API call gave: the first choice's content (`None` for null), an
      error carrying `response.data.error` with its message, or any other error. */
  datatype Completion = Content(content: Option<string>) | ApiError(message: string) | OtherError

  const NotConfigured := "AI service is not configured (OpenAI API key missing)."

  /** `openai.apiKey`: the environment variable, trimmed. */
  function ApiKey(env: Option<string>): (key: Option<string>)
    ensures key.Some? <==> env.Some?
    ensures env.Some? ==> key.value == Trim(env.value)
  {
    if env.Some? then Some(Trim(env.value)) else None
  }

  /** The reply for a completion: its content when non-empty, else the fixed
      apology; the API's own message on an API error, else the fixed failure text. */
  function Reply(c: Completion, apology: string, failure: string): (r: string)
    ensures c.Content? && Truthy(c.content) ==> r == c.content.value
    ensures c.Content? && !Truthy(c.content) ==> r == apology
    ensures c.ApiError? ==> r == "AI API Error: " + c.message
    ensures c.OtherError? ==> r == failure
  {
    match c
    case Content(text) => if Truthy(text) then text.value else apology
    case ApiError(message) => "AI API Error: " + message
    case OtherError => failure
  }

  function SummaryQuery(transcript: string, n: nat, phrase: string): string {
    transcript + "\n\nTask: Summarize the above conversation (which includes " + NatToString(n) + " messages" + phrase
    + ") according to the detailed system instructions. Prioritize comprehensiveness and detail appropriate for the volume of messages, ensuring the summary is not too short. Pay close attention to the language instruction."
  }

  /** The summary request for a non-empty list: `summaryPrompt(detail, n, phrase)`
      stands for the default summary prompt, which embeds those three values. */
  function SummaryRequest(messages: seq<WaMessage>, startDate: Option<string>, endDate: Option<string>,
                          custom: Option<string>, summaryPrompt: (string, nat, string) -> string): (req: ChatRequest)
    ensures req.maxTokens == MaxTokens(|messages|) && req.temperature == 0.5
  {
    var n := |messages|;
    var phrase := DateRangePhrase(startDate, endDate);
    ChatRequest(AugmentPrompt(custom, summaryPrompt(DetailLevel(n), n, phrase)),
                SummaryQuery(Transcript(messages), n, phrase), MaxTokens(n), 0.5)
  }

  /** `generateSummary(messages, startDate, endDate, customPromptText)`; `apiKey`
      is `openai.apiKey` and `complete` the chat-completion call. */
  function GenerateSummary(apiKey: Option<string>, messages: seq<WaMessage>, startDate: Option<string>,
                           endDate: Option<string>, custom: Option<string>,
                           summaryPrompt: (string, nat, string) -> string,
                           complete: ChatRequest -> Completion): (r: string)
    ensures !Truthy(apiKey) ==> r == NotConfigured
    ensures Truthy(apiKey) && messages == [] ==> r == "No messages provided for summarization."
    ensures Truthy(apiKey) && messages != [] ==>
            r == Reply(complete(SummaryRequest(messages, startDate, endDate, custom, summaryPrompt)),
                       "Sorry, I could not generate a summary.",
                       "An error occurred while generating the summary. Please try again later.")
  {
    if !Truthy(apiKey) then NotConfigured
    else if messages == [] then "No messages provided for summarization."
    else Reply(complete(SummaryRequest(messages, startDate, endDate, custom, summaryPrompt)),
               "Sorry, I could not generate a summary.",
               "An error occurred while generating the summary. Please try again later.")
  }

  function QuestionQuery(transcript: string, question: string): string {
    transcript + "\n\nUser's Question: " + question
    + "\n\nTask: Answer the user's question based ONLY on the conversation history provided above, paying close attention to the language instruction."
  }

  /** `!question || question.trim() === ""`. */
  predicate BlankQuestion(question: Option<string>) {
    !Truthy(question) || Trim(question.value) == ""
  }

  function QuestionRequest(messages: seq<WaMessage>, question: string, custom: Option<string>, qaPrompt: string): (req: ChatRequest)
    ensures req.maxTokens == 250 && req.temperature == 0.3
  {
    ChatRequest(AugmentPrompt(custom, qaPrompt), QuestionQuery(Transcript(messages), question), 250, 0.3)
  }

  /** `answerQuestion(messages, question, customPromptText)`; `qaPrompt` is the
      default question-answering prompt. */
  function AnswerQuestion(apiKey: Option<string>, messages: seq<WaMessage>, question: Option<string>,
                          custom: Option<string>, qaPrompt: string, complete: ChatRequest -> Completion): (r: string)
    ensures !Truthy(apiKey) ==> r == NotConfigured
    ensures Truthy(apiKey) && messages == [] ==> r == "No message context provided to answer the question."
    ensures Truthy(apiKey) && messages != [] && BlankQuestion(question) ==> r == "No question provided."
    ensures Truthy(apiKey) && messages != [] && !BlankQuestion(question) ==>
            r == Reply(complete(QuestionRequest(messages, question.value, custom, qaPrompt)),
                       "Sorry, I could not generate an answer.",
                       "An error occurred while generating the answer. Please try again later.")
  {
    if !Truthy(apiKey) then NotConfigured
    else if messages == [] then "No message context provided to answer the question."
    else if BlankQuestion(question) then "No question provided."
    else Reply(complete(QuestionRequest(messages, question.value, custom, qaPrompt)),
               "Sorry, I could not generate an answer.",
               "An error occurred while generating the answer. Please try again later.")
  }

  /** A question made only of white space is refused like a missing one. */
  lemma {:induction false} BlankQuestionIff(question: string)
    requires question != ""
    ensures BlankQuestion(Some(question)) <==> IsBlank(question)
  {
    TrimEmptyIffBlank(question);
  }
}
