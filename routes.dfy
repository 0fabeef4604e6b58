/**
 * The backend's HTTP routes: how each handler turns the request fields and the
 * WhatsApp session into a status code and a JSON body, and in which order it
 * checks its guards. Express, the HTML markup of the QR page and the transport
 * are not modelled; the services are the functions of `WhatsAppService` and
 * `AiService`, with their external answers passed through.
 */
module Routes {
  import opened Wrappers
  import opened JsText
  import opened WhatsAppService
  import opened AiService

  /** One message as the messages route returns it. */
  datatype MessageView = MessageView(id: string, body: string, timestamp: int, from: string,
                                     fromMe: bool, author: Option<string>)

  /** What `/auth/qr-page` shows under its status line. */
  datatype QrPageContent = Connected | ShowQr(qr: string) | WaitingForQr

  datatype Body =
    | StatusBody(ready: bool, message: string, qrCodeAvailable: bool)
    | QrCodeBody(qrCode: string)
    | MessageBody(message: string)
    | ErrorBody(error: string)
    | GroupsBody(groups: seq<Group>)
    | MessagesBody(messages: seq<MessageView>)
    | SummaryBody(summary: string)
    | AnswerBody(answer: string)
    | HealthBody(status: string, message: string, whatsappReady: bool, whatsappStatus: string)
    | QrPageBody(statusMessage: string, content: QrPageContent)

  datatype Response = Response(status: nat, body: Body)

  const NotReady := Response(503, ErrorBody("WhatsApp client not ready."))

  // ---------------------------------------------------------------------------
  // /auth/status, /auth/qr, /auth/qr-page, /health

  /** `GET /auth/status`. */
  function AuthStatus(s: SessionState): (r: Response)
    ensures r.status == 200 && r.body.StatusBody?
    ensures r.body.ready == s.ready && r.body.message == s.message
    ensures r.body.qrCodeAvailable <==> Truthy(s.qr) && !s.ready
  {
    Response(200, StatusBody(s.ready, s.message, Truthy(s.qr) && !s.ready))
  }

  /** `GET /auth/qr`. */
  function AuthQr(s: SessionState): (r: Response)
    ensures Truthy(s.qr) && !s.ready ==> r == Response(200, QrCodeBody(s.qr.value))
    ensures s.ready ==> r == Response(200, MessageBody("Client is already authenticated and ready."))
    ensures !Truthy(s.qr) && !s.ready ==> r == Response(404, ErrorBody("QR code not currently available."))
  {
    if Truthy(s.qr) && !s.ready then Response(200, QrCodeBody(s.qr.value))
    else if s.ready then Response(200, MessageBody("Client is already authenticated and ready."))
    else Response(404, ErrorBody("QR code not currently available."))
  }

  /** `/auth/qr` hands out a code exactly when `/auth/status` says one is available. */
  lemma AuthQrAgreesWithStatus(s: SessionState)
    ensures AuthQr(s).body.QrCodeBody? <==> AuthStatus(s).body.qrCodeAvailable
  {
  }

  /** `GET /auth/qr-page`: connected, the code to scan, or a waiting note. */
  function QrPage(s: SessionState): (r: Response)
    ensures r.status == 200 && r.body.QrPageBody? && r.body.statusMessage == s.message
    ensures s.ready ==> r.body.content == Connected
    ensures !s.ready && Truthy(s.qr) ==> r.body.content == ShowQr(s.qr.value)
    ensures !s.ready && !Truthy(s.qr) ==> r.body.content == WaitingForQr
  {
    var content := if s.ready then Connected else if Truthy(s.qr) then ShowQr(s.qr.value) else WaitingForQr;
    Response(200, QrPageBody(s.message, content))
  }

  /** Once the latest readiness event is `ready`, no route offers a QR code,
      whatever QR events came before. */
  lemma {:induction false} NoQrOnceReady(s: SessionState, events: seq<ClientEvent>)
    requires Latest(events, ReadinessEffect) == Some(true)
    ensures var st := Replay(s, events);
            !AuthStatus(st).body.qrCodeAvailable
            && AuthQr(st) == Response(200, MessageBody("Client is already authenticated and ready."))
            && QrPage(st).body.content == Connected
  {
    ReplayReadiness(s, events);
  }

  /** After `authenticated` or `disconnected` with no later `qr`, no QR code is offered. */
  lemma {:induction false} NoQrAfterClear(s: SessionState, events: seq<ClientEvent>)
    requires Latest(events, QrEffect) == Some(None)
    ensures var st := Replay(s, events);
            !AuthStatus(st).body.qrCodeAvailable && !AuthQr(st).body.QrCodeBody?
  {
    ReplayQr(s, events);
  }

  /** `GET /health`. */
  function Health(s: SessionState): (r: Response)
    ensures r.status == 200
    ensures r.body == HealthBody("UP", "Backend service is running.", s.ready, s.message)
  {
    Response(200, HealthBody("UP", "Backend service is running.", s.ready, s.message))
  }

  // ---------------------------------------------------------------------------
  // /groups

  /** `error.message || fallback`. */
  function ErrorText(message: string, fallback: string): (t: string)
    ensures message != "" ==> t == message
    ensures message == "" ==> t == fallback
  {
    if message != "" then message else fallback
  }

  /** `GET /groups`; `chats` is what `getChats()` answered. */
  function GroupsRoute(s: SessionState, hasClient: bool, chats: Result<seq<Chat>, string>): (r: Response)
    ensures !s.ready ==> r == NotReady
    ensures r.status == 200 <==> s.ready && hasClient && chats.Ok?
    ensures r.status == 200 ==> r.body == GroupsBody(GroupsOf(chats.value))
    ensures s.ready && hasClient && chats.Err? ==> r == Response(500, ErrorBody(ErrorText(chats.error, "Failed to fetch groups.")))
  {
    if !s.ready then NotReady
    else match GetGroups(s.ready, hasClient, chats)
      case Ok(groups) => Response(200, GroupsBody(groups))
      case Err(e) => Response(500, ErrorBody(ErrorText(e, "Failed to fetch groups.")))
  }

  // ---------------------------------------------------------------------------
  // /groups/:groupId/messages

  /** `messageCountParam ? parseInt(messageCountParam, 10) : 1000`; `None` is NaN. */
  function ParseCount(param: Option<string>): (n: Option<int>)
    ensures !Truthy(param) ==> n == Some(1000)
    ensures Truthy(param) ==> n == ParseInt(param.value)
  {
    if Truthy(param) then ParseInt(param.value) else Some(1000)
  }

  /** The count is refused when it is NaN or not positive. */
  predicate ValidCount(n: Option<int>) {
    n.Some? && n.value > 0
  }

  /** A written positive count is accepted as that number. */
  lemma {:induction false} ParseCountOfNumber(n: nat, rest: string)
    requires n > 0
    requires rest == [] || !IsDigit(rest[0])
    ensures ParseCount(Some(NatToString(n) + rest)) == Some(n) && ValidCount(ParseCount(Some(NatToString(n) + rest)))
  {
    ParseIntRoundTrip(n, rest);
    assert IntToString(n) == NatToString(n);
  }

  /** `fetchOnlyUnreadParam === 'true'`. */
  predicate FetchOnlyUnread(param: Option<string>) {
    param == Some("true")
  }

  /** The projection `{id, body, timestamp, from, fromMe, author}`. */
  function View(m: WaMessage): MessageView {
    MessageView(m.id, m.body, m.timestamp, m.from, m.fromMe, m.author)
  }

  function Project(messages: seq<WaMessage>): (views: seq<MessageView>)
    ensures |views| == |messages|
    ensures forall i :: 0 <= i < |messages| ==> views[i] == View(messages[i])
  {
    if messages == [] then [] else [View(messages[0])] + Project(messages[1..])
  }

  /** The projection drops nothing: every field of a message can be read back. */
  lemma ProjectLossless(a: seq<WaMessage>, b: seq<WaMessage>)
    requires Project(a) == Project(b)
    ensures a == b
  {
    assert |a| == |b|;
    forall i | 0 <= i < |a| ensures a[i] == b[i] {
      assert View(a[i]) == View(b[i]);
    }
  }

  /** The query of the messages route; absent parameters are `None`. */
  datatype MessagesQuery = MessagesQuery(groupId: string, count: Option<string>, startDate: Option<string>,
                                         endDate: Option<string>, fetchOnlyUnread: Option<string>)

  /** `GET /groups/:groupId/messages`. */
  function MessagesRoute(s: SessionState, hasClient: bool, q: MessagesQuery, lookup: ChatLookup,
                         fetch: int -> Option<seq<WaMessage>>, dayStart: CalendarDate -> Option<int>): (r: Response)
    ensures !s.ready ==> r == NotReady
    ensures s.ready && !ValidCount(ParseCount(q.count)) ==> r == Response(400, ErrorBody("Invalid message count specified."))
    ensures s.ready && ValidCount(ParseCount(q.count)) ==>
            var result := GetGroupMessages(true, hasClient, q.groupId, ParseCount(q.count).value, q.startDate, q.endDate,
                                           FetchOnlyUnread(q.fetchOnlyUnread), lookup, fetch, dayStart);
            (result.Ok? ==> r == Response(200, MessagesBody(Project(result.value))))
            && (result.Err? ==> r == Response(500, ErrorBody(ErrorText(result.error, FetchFailedError(q.groupId)))))
  {
    if !s.ready then NotReady
    else
      var count := ParseCount(q.count);
      if !ValidCount(count) then Response(400, ErrorBody("Invalid message count specified."))
      else match GetGroupMessages(s.ready, hasClient, q.groupId, count.value, q.startDate, q.endDate,
                                  FetchOnlyUnread(q.fetchOnlyUnread), lookup, fetch, dayStart)
        case Ok(messages) => Response(200, MessagesBody(Project(messages)))
        case Err(e) => Response(500, ErrorBody(ErrorText(e, FetchFailedError(q.groupId))))
  }

  // ---------------------------------------------------------------------------
  // /ai/summarize and /ai/ask

  /** The JSON body of the AI routes. `question` is `None` when it is absent or
      not a string; `fetchOnlyUnread` is its truthiness. `openaiApiKey` is
      read from the body but never used. */
  datatype AiRequest = AiRequest(chatId: Option<string>, question: Option<string>, startDate: Option<string>,
                                 endDate: Option<string>, fetchOnlyUnread: bool, customPromptText: Option<string>,
                                 openaiApiKey: Option<string>)

  /** Everything the AI routes read besides the request. */
  datatype AiContext = AiContext(session: SessionState, hasClient: bool, lookup: ChatLookup,
                                 fetch: int -> Option<seq<WaMessage>>, dayStart: CalendarDate -> Option<int>,
                                 apiKey: Option<string>, complete: ChatRequest -> Completion)

  /** The pool both AI routes ask for. */
  const AiPool := 1000

  function FetchForAi(req: AiRequest, ctx: AiContext): Result<seq<WaMessage>, string>
    requires req.chatId.Some?
  {
    GetGroupMessages(ctx.session.ready, ctx.hasClient, req.chatId.value, AiPool, req.startDate, req.endDate,
                     req.fetchOnlyUnread, ctx.lookup, ctx.fetch, ctx.dayStart)
  }

  /** `POST /ai/summarize`; `summaryPrompt` stands for the default summary prompt. */
  function Summarize(req: AiRequest, ctx: AiContext, summaryPrompt: (string, nat, string) -> string): (r: Response)
    ensures !Truthy(req.chatId) ==> r == Response(400, ErrorBody("Chat ID is required for summarization."))
    ensures Truthy(req.chatId) && !ctx.session.ready ==> r == NotReady
    ensures Truthy(req.chatId) && ctx.session.ready ==>
            var result := FetchForAi(req, ctx);
            (result.Err? ==> r == Response(500, ErrorBody(ErrorText(result.error, "Failed to generate summary."))))
            && (result.Ok? && result.value == [] ==>
                r == Response(404, ErrorBody("No messages found for the given criteria to summarize.")))
            && (result.Ok? && result.value != [] ==>
                r == Response(200, SummaryBody(GenerateSummary(ctx.apiKey, result.value, req.startDate, req.endDate,
                                                               req.customPromptText, summaryPrompt, ctx.complete))))
  {
    if !Truthy(req.chatId) then Response(400, ErrorBody("Chat ID is required for summarization."))
    else if !ctx.session.ready then NotReady
    else match FetchForAi(req, ctx)
      case Err(e) => Response(500, ErrorBody(ErrorText(e, "Failed to generate summary.")))
      case Ok(messages) =>
        if messages == [] then Response(404, ErrorBody("No messages found for the given criteria to summarize."))
        else Response(200, SummaryBody(GenerateSummary(ctx.apiKey, messages, req.startDate, req.endDate,
                                                       req.customPromptText, summaryPrompt, ctx.complete)))
  }

  /** `POST /ai/ask`; `qaPrompt` is the default question-answering prompt. */
  function Ask(req: AiRequest, ctx: AiContext, qaPrompt: string): (r: Response)
    ensures !Truthy(req.chatId) ==> r == Response(400, ErrorBody("Chat ID is required to answer a question."))
    ensures Truthy(req.chatId) && BlankQuestion(req.question) ==> r == Response(400, ErrorBody("A question is required."))
    ensures Truthy(req.chatId) && !BlankQuestion(req.question) && !ctx.session.ready ==> r == NotReady
    ensures Truthy(req.chatId) && !BlankQuestion(req.question) && ctx.session.ready ==>
            var result := FetchForAi(req, ctx);
            (result.Err? ==> r == Response(500, ErrorBody(ErrorText(result.error, "Failed to generate answer."))))
            && (result.Ok? && result.value == [] ==>
                r == Response(404, ErrorBody("No messages found for the given criteria to answer the question.")))
            && (result.Ok? && result.value != [] ==>
                r == Response(200, AnswerBody(AnswerQuestion(ctx.apiKey, result.value, req.question,
                                                             req.customPromptText, qaPrompt, ctx.complete))))
  {
    if !Truthy(req.chatId) then Response(400, ErrorBody("Chat ID is required to answer a question."))
    else if BlankQuestion(req.question) then Response(400, ErrorBody("A question is required."))
    else if !ctx.session.ready then NotReady
    else match FetchForAi(req, ctx)
      case Err(e) => Response(500, ErrorBody(ErrorText(e, "Failed to generate answer.")))
      case Ok(messages) =>
        if messages == [] then Response(404, ErrorBody("No messages found for the given criteria to answer the question."))
        else Response(200, AnswerBody(AnswerQuestion(ctx.apiKey, messages, req.question, req.customPromptText,
                                                     qaPrompt, ctx.complete)))
  }

  /** The `openaiApiKey` of the request body changes nothing in either AI route. */
  lemma AiRoutesIgnoreRequestKey(req: AiRequest, ctx: AiContext, key: Option<string>,
                                 summaryPrompt: (string, nat, string) -> string, qaPrompt: string)
    ensures Summarize(req.(openaiApiKey := key), ctx, summaryPrompt) == Summarize(req, ctx, summaryPrompt)
    ensures Ask(req.(openaiApiKey := key), ctx, qaPrompt) == Ask(req, ctx, qaPrompt)
  {
  }

  /** An answer is produced only for a request with a chat id and a non-blank
      question, a ready client and at least one message; in particular
      `answerQuestion`'s own blank-question guard is never reached from here. */
  lemma AskAnswerOnlyWhenAllGuardsPass(req: AiRequest, ctx: AiContext, qaPrompt: string)
    requires Ask(req, ctx, qaPrompt).body.AnswerBody?
    ensures Truthy(req.chatId) && !BlankQuestion(req.question) && ctx.session.ready
    ensures FetchForAi(req, ctx).Ok? && FetchForAi(req, ctx).value != []
  {
  }

  /** A summary is produced only for a request with a chat id, a ready client
      and at least one message. */
  lemma SummarizeOnlyWhenAllGuardsPass(req: AiRequest, ctx: AiContext, summaryPrompt: (string, nat, string) -> string)
    requires Summarize(req, ctx, summaryPrompt).body.SummaryBody?
    ensures Truthy(req.chatId) && ctx.session.ready
    ensures FetchForAi(req, ctx).Ok? && FetchForAi(req, ctx).value != []
  {
  }
}
