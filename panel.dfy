/**
 * The side panel's script: the chat selector built from the backend's group
 * list, the selection it keeps across refreshes, the enabled and shown state of
 * the AI controls, the dispatch on the backend's WhatsApp status, and the
 * guards in front of the summarize and ask buttons.
 *
 * Elements are reduced to the values the script sets on them; requests to the
 * backend are recorded in a log and their answers arrive as separate events.
 */
module Panel {
  import opened Wrappers
  import opened JsText
  import opened Routes
  import AiService

  /** One item of the `/groups` answer; an item is listed only when its `id` and `name` are both truthy. */
  datatype GroupItem = GroupItem(id: Option<string>, name: Option<string>)

  datatype SelectOption = SelectOption(value: string, caption: string)

  const SelectGroupLabel := "-- Select a Group --"
  const NoGroupsLabel := "-- No Groups Available --"

  /** The option for one item, when it has both an id and a name. */
  function OptionOf(g: GroupItem): Option<SelectOption> {
    if Truthy(g.id) && Truthy(g.name) then Some(SelectOption(g.id.value, g.name.value)) else None
  }

  /** The options for the items, in order. */
  function GroupOptions(groups: seq<GroupItem>): (opts: seq<SelectOption>)
    ensures |opts| <= |groups|
  {
    if groups == [] then []
    else
      var last := OptionOf(groups[|groups| - 1]);
      GroupOptions(groups[..|groups| - 1]) + (if last.Some? then [last.value] else [])
  }

  /** The selector's content: the placeholder, then one option per usable item. */
  function OptionsFor(groups: seq<GroupItem>): (opts: seq<SelectOption>)
    ensures |opts| >= 1 && opts[0].value == ""
    ensures opts[0].caption == if |groups| > 0 then SelectGroupLabel else NoGroupsLabel
    ensures opts[1..] == GroupOptions(groups)
  {
    [SelectOption("", if |groups| > 0 then SelectGroupLabel else NoGroupsLabel)] + GroupOptions(groups)
  }

  /** An option is offered exactly for an item with that non-empty id and name. */
  lemma {:induction false} GroupOptionsIff(groups: seq<GroupItem>, o: SelectOption)
    ensures o in GroupOptions(groups) <==>
            exists i :: 0 <= i < |groups| && groups[i] == GroupItem(Some(o.value), Some(o.caption)) && o.value != "" && o.caption != ""
  {
    if groups != [] {
      var init := groups[..|groups| - 1];
      GroupOptionsIff(init, o);
      assert forall i :: 0 <= i < |init| ==> init[i] == groups[i];
      var g := groups[|groups| - 1];
      if OptionOf(g) == Some(o) {
        assert groups[|groups| - 1] == GroupItem(Some(o.value), Some(o.caption));
      }
    }
  }

  /** The options keep the order of the items they come from. */
  lemma {:induction false} GroupOptionsAppend(a: seq<GroupItem>, b: seq<GroupItem>)
    ensures GroupOptions(a + b) == GroupOptions(a) + GroupOptions(b)
    decreases |b|
  {
    if b == [] {
      assert a + b == a;
    } else {
      var bInit := b[..|b| - 1];
      assert (a + b)[..|a + b| - 1] == a + bInit;
      GroupOptionsAppend(a, bInit);
    }
  }

  function Values(opts: seq<SelectOption>): (vs: seq<string>)
    ensures |vs| == |opts|
    ensures forall i :: 0 <= i < |opts| ==> vs[i] == opts[i].value
  {
    if opts == [] then [] else [opts[0].value] + Values(opts[1..])
  }

  /** `text.split(' (')[0]`: the text up to the first " (". */
  function NameBeforeParen(s: string): (r: string)
  {
    if |s| < 2 then s
    else if s[0] == ' ' && s[1] == '(' then ""
    else [s[0]] + NameBeforeParen(s[1..])
  }

  /** The name is a prefix of the caption with no " (" in it, and it is the whole
      caption or is followed by " (". */
  lemma {:induction false} NameBeforeParenSpec(s: string)
    ensures var r := NameBeforeParen(s);
            |r| <= |s| && s[..|r|] == r && !Contains(r, " (")
            && (r == s || (|r| + 2 <= |s| && s[|r|..|r| + 2] == " ("))
  {
    var r := NameBeforeParen(s);
    if |s| < 2 {
      NoParenInShort(s);
    } else if s[0] == ' ' && s[1] == '(' {
      NoParenInShort(r);
    } else {
      NameBeforeParenSpec(s[1..]);
      var t := NameBeforeParen(s[1..]);
      assert r == [s[0]] + t;
      NoParenCons(s[0], t, s[1..]);
      if t != s[1..] {
        assert s[|r|..|r| + 2] == s[1..][|t|..|t| + 2];
      }
    }
  }

  lemma NoParenInShort(s: string)
    requires |s| < 2
    ensures !Contains(s, " (")
  {
    if s != [] {
      assert s[1..] == [];
    }
  }

  /** Prepending a character to a prefix of what follows it keeps " (" out. */
  lemma NoParenCons(c: char, t: string, rest: string)
    requires !Contains(t, " (")
    requires |t| <= |rest| && rest[..|t|] == t
    requires !(c == ' ' && |rest| > 0 && rest[0] == '(')
    ensures !Contains([c] + t, " (")
  {
    var s := [c] + t;
    assert s[1..] == t;
    if c == ' ' && |t| >= 1 {
      assert t[0] == rest[..|t|][0] == rest[0];
      assert s[1] == t[0];
      assert s[..2][1] != '(';
    }
    if c != ' ' && |s| >= 2 {
      assert s[..2][0] != ' ';
    }
    assert !StartsWith(s, " (");
    assert Contains(s, " (") == (StartsWith(s, " (") || Contains(t, " ("));
  }

  /** Whether `hideAILoading` is run for the summarize or the ask control. */
  datatype Feature = SummaryFeature | AskFeature

  /** A line added to the panel's chat. */
  datatype ChatLine = UserLine(text: string) | AssistantError(reason: GuardError)

  datatype GuardError = NeedChatWithMessages | NeedQuestion

  /** Requests the panel sends to the backend. */
  datatype BackendRequest =
    | GroupsRequest
    | QrRequest
    | MessagesRequest(chatId: string, count: nat)
    | SummarizeRequest(body: AiRequest)
    | AskRequest(body: AiRequest)

  /** The `/auth/status` check: the backend unreachable, an error, or the status. */
  datatype StatusCheck = Unreachable | StatusError(message: string) | StatusOk(ready: bool, qrCodeAvailable: bool, message: string)

  const BackendDownForStatus := "Backend not connected. Cannot check WhatsApp status."
  const BackendDownForGroups := "Backend not connected. Cannot fetch groups."

  // ---------------------------------------------------------------------------
  // Requests to the AI routes

  /** The body the summarize button posts as written: `{ messages }`. The
      route reads `chatId`, `startDate`, `endDate`, `fetchOnlyUnread`,
      `customPromptText` and `openaiApiKey`, none of which is there. */
  function AsWrittenSummaryRequest(messages: seq<MessageView>): (r: AiRequest)
    ensures r.chatId == None
  {
    AiRequest(None, None, None, None, false, None, None)
  }

  /** The body the ask button posts as written: `{ messages, question }`. */
  function AsWrittenAskRequest(messages: seq<MessageView>, question: string): (r: AiRequest)
    ensures r.chatId == None && r.question == Some(question)
  {
    AiRequest(None, Some(question), None, None, false, None, None)
  }

  /** As written, every summarize and every ask request is refused for want of
      a chat id, whatever the backend's state. */
  lemma AsWrittenRequestsRejected(messages: seq<MessageView>, question: string, ctx: AiContext,
                                  summaryPrompt: (string, nat, string) -> string, qaPrompt: string)
    ensures Routes.Summarize(AsWrittenSummaryRequest(messages), ctx, summaryPrompt)
            == Response(400, ErrorBody("Chat ID is required for summarization."))
    ensures Routes.Ask(AsWrittenAskRequest(messages, question), ctx, qaPrompt)
            == Response(400, ErrorBody("Chat ID is required to answer a question."))
  {
  }

  /** The summarize body with the selected chat's id, which the route needs. */
  function SummaryBodyFor(chatId: string): (r: AiRequest)
    ensures r.chatId == Some(chatId)
  {
    AiRequest(Some(chatId), None, None, None, false, None, None)
  }

  function AskBodyFor(chatId: string, question: string): (r: AiRequest)
    ensures r.chatId == Some(chatId) && r.question == Some(question)
  {
    AiRequest(Some(chatId), Some(question), None, None, false, None, None)
  }

  /** With the chat id sent, a summary request for a selected chat passes the
      route's 400 guard, and once the client is ready the route works on that
      very chat: the messages it summarizes are the ones fetched for it. */
  lemma SummaryReachesSelectedChat(chatId: string, ctx: AiContext, summaryPrompt: (string, nat, string) -> string)
    requires chatId != ""
    ensures Routes.Summarize(SummaryBodyFor(chatId), ctx, summaryPrompt).status != 400
    ensures ctx.session.ready ==>
            FetchForAi(SummaryBodyFor(chatId), ctx)
            == WhatsAppService.GetGroupMessages(true, ctx.hasClient, chatId, AiPool, None, None, false,
                                                ctx.lookup, ctx.fetch, ctx.dayStart)
  {
    var req := SummaryBodyFor(chatId);
    assert Truthy(req.chatId);
  }

  /** With the chat id sent, a question that is not blank passes both of the ask
      route's 400 guards. */
  lemma AskReachesSelectedChat(chatId: string, question: string, ctx: AiContext, qaPrompt: string)
    requires chatId != "" && Trim(question) != ""
    ensures Routes.Ask(AskBodyFor(chatId, question), ctx, qaPrompt).status != 400
  {
    var req := AskBodyFor(chatId, question);
    assert question != "";
    assert Truthy(req.chatId) && !AiService.BlankQuestion(req.question);
  }

  // ---------------------------------------------------------------------------
  // The panel

  class PanelView {
    var backendConnected: bool
    var selectedChatId: Option<string>
    var selectedChatName: Option<string>
    var fetched: seq<MessageView>
    var options: seq<SelectOption>
    /** The selector's current value. */
    var selectValue: string
    var statusText: string
    var statusIsError: bool
    var qrAreaShown: bool
    var selectorShown: bool
    var summarizeShown: bool
    var inputAreaShown: bool
    var summarizeDisabled: bool
    var askDisabled: bool
    var inputDisabled: bool
    var chat: seq<ChatLine>
    var requests: seq<BackendRequest>

    constructor()
      ensures !backendConnected && selectedChatId == None && selectedChatName == None && fetched == []
      ensures options == [] && requests == [] && chat == []
    {
      backendConnected := false;
      selectedChatId := None;
      selectedChatName := None;
      fetched := [];
      options := [];
      selectValue := "";
      statusText := "";
      statusIsError := false;
      qrAreaShown := false;
      selectorShown := false;
      summarizeShown := false;
      inputAreaShown := false;
      summarizeDisabled := false;
      askDisabled := false;
      inputDisabled := false;
      chat := [];
      requests := [];
    }

    /** `populateChatSelector(groups)`. The previous selection stays when the new
        list offers it; otherwise the selected id becomes "". An empty list
        leaves the selected id alone. */
    method PopulateChatSelector(groups: seq<GroupItem>)
      modifies this`options, this`selectValue, this`selectedChatId
      ensures options == OptionsFor(groups)
      ensures var keep := |groups| > 0 && Truthy(old(selectedChatId));
              (keep && old(selectedChatId).value in Values(options) ==>
                 selectedChatId == old(selectedChatId) && selectValue == old(selectedChatId).value)
              && (keep && old(selectedChatId).value !in Values(options) ==>
                 selectedChatId == Some("") && selectValue == "")
              && (!keep ==> selectedChatId == old(selectedChatId) && selectValue == "")
    {
      var previous := selectedChatId;
      var caption := if |groups| > 0 then SelectGroupLabel else NoGroupsLabel;
      var opts := [SelectOption("", caption)];
      var i := 0;
      while i < |groups|
        invariant 0 <= i <= |groups|
        invariant opts == [SelectOption("", caption)] + GroupOptions(groups[..i])
      {
        var o := OptionOf(groups[i]);
        assert groups[..i + 1][..i] == groups[..i];
        if o.Some? {
          opts := opts + [o.value];
        }
        i := i + 1;
      }
      assert groups[..i] == groups;
      options := opts;
      selectValue := "";
      if |groups| > 0 && Truthy(previous) {
        if previous.value in Values(options) {
          selectValue := previous.value;
        } else {
          selectedChatId := Some("");
        }
      }
    }

    /** `hideAILoading(feature)`: the controls follow whether messages have been
        fetched and whether a chat is selected. */
    method HideAILoading(feature: Feature)
      modifies this`summarizeDisabled, this`askDisabled, this`inputDisabled, this`summarizeShown, this`inputAreaShown
      ensures summarizeDisabled <==> fetched == []
      ensures summarizeShown == inputAreaShown == Truthy(selectedChatId)
      ensures feature == AskFeature ==> (askDisabled <==> fetched == []) && (inputDisabled <==> fetched == [])
      ensures feature == SummaryFeature ==> askDisabled == old(askDisabled) && inputDisabled == old(inputDisabled)
    {
      var available := |fetched| > 0;
      if feature == AskFeature {
        askDisabled := !available;
        inputDisabled := !available;
      }
      inputAreaShown := Truthy(selectedChatId);
      summarizeShown := Truthy(selectedChatId);
      summarizeDisabled := !available;
    }

    /** Hides every control that needs a connected client. */
    method HideClientControls(hideQr: bool)
      modifies this`qrAreaShown, this`selectorShown, this`summarizeShown, this`inputAreaShown
      ensures !selectorShown && !summarizeShown && !inputAreaShown
      ensures qrAreaShown == (old(qrAreaShown) && !hideQr)
    {
      if hideQr {
        qrAreaShown := false;
      }
      selectorShown := false;
      summarizeShown := false;
      inputAreaShown := false;
    }

    /** `updateWhatsappConnectionStatus(message, isError)`: the status line; an
        error also hides the client controls and shows the QR area. */
    method ShowStatus(message: string, isError: bool)
      modifies this`statusText, this`statusIsError, this`qrAreaShown, this`selectorShown,
               this`summarizeShown, this`inputAreaShown
      ensures statusText == message && statusIsError == isError
      ensures isError ==> qrAreaShown && !selectorShown && !summarizeShown && !inputAreaShown
      ensures !isError ==>
              qrAreaShown == old(qrAreaShown) && selectorShown == old(selectorShown)
              && summarizeShown == old(summarizeShown) && inputAreaShown == old(inputAreaShown)
    {
      statusText, statusIsError := message, isError;
      if isError {
        selectorShown := false;
        qrAreaShown := true;
        summarizeShown := false;
        inputAreaShown := false;
      }
    }

    /** `fetchGroups()`: nothing is requested unless the backend is connected. */
    method FetchGroups()
      modifies this`statusText, this`statusIsError, this`requests, this`qrAreaShown, this`selectorShown,
               this`summarizeShown, this`inputAreaShown
      ensures !backendConnected ==>
              statusText == BackendDownForGroups && statusIsError && requests == old(requests)
              && qrAreaShown && !selectorShown && !summarizeShown && !inputAreaShown
      ensures backendConnected ==>
              statusText == "Fetching group list..." && !statusIsError && requests == old(requests) + [GroupsRequest]
              && qrAreaShown == old(qrAreaShown) && selectorShown == old(selectorShown)
              && summarizeShown == old(summarizeShown) && inputAreaShown == old(inputAreaShown)
    {
      if !backendConnected {
        ShowStatus(BackendDownForGroups, true);
        return;
      }
      ShowStatus("Fetching group list...", false);
      requests := requests + [GroupsRequest];
    }

    /** `checkBackendAndWhatsAppStatus()` once `/health` and `/auth/status` have
        answered: a ready client leads to the group list, an available QR code
        to the QR request (whose first step puts "Fetching QR code..." on the
        status line), anything else hides the controls. The reported status is
        an error exactly when the client is neither ready nor showing a QR code. */
    method OnStatus(check: StatusCheck)
      modifies this
      ensures backendConnected <==> !check.Unreachable?
      ensures check.Unreachable? ==>
              statusText == BackendDownForStatus && statusIsError && requests == old(requests)
              && !qrAreaShown && !selectorShown && !summarizeShown && !inputAreaShown
      ensures check.StatusError? ==>
              statusText == "Error checking WhatsApp: " + check.message && statusIsError && requests == old(requests)
              && !qrAreaShown && !selectorShown && !summarizeShown && !inputAreaShown
      ensures check.StatusOk? && check.ready ==>
              statusText == "Fetching group list..." && !statusIsError && requests == old(requests) + [GroupsRequest]
              && !qrAreaShown && selectorShown == old(selectorShown)
              && summarizeShown == old(summarizeShown) && inputAreaShown == old(inputAreaShown)
      ensures check.StatusOk? && !check.ready && check.qrCodeAvailable ==>
              statusText == "Fetching QR code..." && !statusIsError && requests == old(requests) + [QrRequest]
              && qrAreaShown == old(qrAreaShown) && !selectorShown && !summarizeShown && !inputAreaShown
      ensures check.StatusOk? && !check.ready && !check.qrCodeAvailable ==>
              statusText == check.message && statusIsError && requests == old(requests)
              && !qrAreaShown && !selectorShown && !summarizeShown && !inputAreaShown
      ensures selectedChatId == old(selectedChatId) && fetched == old(fetched) && options == old(options)
      ensures chat == old(chat)
    {
      match check
      case Unreachable =>
        backendConnected := false;
        ShowStatus(BackendDownForStatus, true);
        HideClientControls(true);
      case StatusError(m) =>
        backendConnected := true;
        ShowStatus("Error checking WhatsApp: " + m, true);
        HideClientControls(true);
      case StatusOk(ready, qr, m) =>
        backendConnected := true;
        ShowStatus(m, !ready && !qr);
        if ready {
          qrAreaShown := false;
          FetchGroups();
        } else if qr {
          HideClientControls(false);
          ShowStatus("Fetching QR code...", false);
          requests := requests + [QrRequest];
        } else {
          HideClientControls(true);
        }
    }

    /** The `/groups` answer arrives. */
    method OnGroups(result: Result<seq<GroupItem>, string>)
      modifies this
      ensures result.Ok? ==> options == OptionsFor(result.value) && selectorShown && !qrAreaShown && !statusIsError
      ensures result.Ok? && |result.value| > 0 ==> statusText == "WhatsApp Connected. Select a group."
      ensures result.Ok? && |result.value| == 0 ==> statusText == "WhatsApp Connected. No groups found or accessible."
      ensures result.Ok? ==> summarizeShown == old(summarizeShown) && inputAreaShown == old(inputAreaShown)
      ensures result.Err? ==>
              options == OptionsFor([]) && statusText == "Error fetching groups: " + result.error && statusIsError
              && selectedChatId == old(selectedChatId)
              && qrAreaShown && !selectorShown && !summarizeShown && !inputAreaShown
      ensures fetched == old(fetched) && requests == old(requests) && chat == old(chat)
    {
      match result
      case Ok(groups) =>
        PopulateChatSelector(groups);
        ShowStatus(if |groups| > 0 then "WhatsApp Connected. Select a group." else "WhatsApp Connected. No groups found or accessible.", false);
        selectorShown := true;
        qrAreaShown := false;
      case Err(e) =>
        ShowStatus("Error fetching groups: " + e, true);
        PopulateChatSelector([]);
    }

    /** The selector's `change` event, with the selector's value and the caption of
        the selected option (`None` when no option is selected). */
    method OnSelectionChange(value: string, caption: Option<string>)
      modifies this
      ensures selectedChatId == Some(value)
      ensures fetched == []
      ensures value != "" ==>
              selectedChatName == (if caption.Some? then Some(NameBeforeParen(caption.value)) else None)
              && summarizeShown && inputAreaShown && summarizeDisabled && askDisabled && inputDisabled
              && requests == old(requests) + [MessagesRequest(value, 1000)]
      ensures value == "" ==>
              selectedChatName == None && !summarizeShown && !inputAreaShown && requests == old(requests)
      ensures options == old(options) && chat == old(chat)
    {
      selectedChatId := Some(value);
      selectedChatName := if caption.Some? then Some(NameBeforeParen(caption.value)) else None;
      fetched := [];
      if value != "" {
        summarizeShown := true;
        inputAreaShown := true;
        HideAILoading(SummaryFeature);
        HideAILoading(AskFeature);
        requests := requests + [MessagesRequest(value, 1000)];
      } else {
        selectedChatName := None;
        summarizeShown := false;
        inputAreaShown := false;
      }
    }

    /** The messages of the selected chat arrive (or their fetch fails): the AI
        controls are enabled exactly when there is at least one message. */
    method OnMessages(result: Result<seq<MessageView>, string>)
      modifies this
      ensures fetched == (if result.Ok? then result.value else [])
      ensures summarizeDisabled == askDisabled == inputDisabled == (fetched == [])
      ensures summarizeShown == inputAreaShown == Truthy(selectedChatId)
      ensures selectedChatId == old(selectedChatId) && requests == old(requests) && chat == old(chat)
    {
      fetched := if result.Ok? then result.value else [];
      HideAILoading(SummaryFeature);
      HideAILoading(AskFeature);
    }

    /** The summarize button: a selected chat with messages is required. The
        request posted is the corrected body `SummaryBodyFor`, which carries the
        chat's id; the script as written posts `AsWrittenSummaryRequest`. */
    method OnSummarizeClick()
      modifies this
      ensures !Truthy(selectedChatId) || fetched == [] ==>
              chat == old(chat) + [AssistantError(NeedChatWithMessages)] && requests == old(requests)
      ensures Truthy(selectedChatId) && fetched != [] ==>
              requests == old(requests) + [SummarizeRequest(SummaryBodyFor(selectedChatId.value))]
              && summarizeDisabled
      ensures selectedChatId == old(selectedChatId) && fetched == old(fetched)
    {
      if !Truthy(selectedChatId) || |fetched| == 0 {
        chat := chat + [AssistantError(NeedChatWithMessages)];
        return;
      }
      chat := chat + [UserLine("summary")];
      summarizeDisabled := true;
      requests := requests + [SummarizeRequest(SummaryBodyFor(selectedChatId.value))];
    }

    /** The ask button: a non-blank question first, then a selected chat with
        messages. The request posted is the corrected body `AskBodyFor`; the
        script as written posts `AsWrittenAskRequest`. */
    method OnAskClick(input: string)
      modifies this
      ensures Trim(input) == "" ==>
              chat == old(chat) + [AssistantError(NeedQuestion)] && requests == old(requests)
      ensures Trim(input) != "" && (!Truthy(selectedChatId) || fetched == []) ==>
              chat == old(chat) + [AssistantError(NeedChatWithMessages)] && requests == old(requests)
      ensures Trim(input) != "" && Truthy(selectedChatId) && fetched != [] ==>
              requests == old(requests) + [AskRequest(AskBodyFor(selectedChatId.value, Trim(input)))]
              && askDisabled && inputDisabled
      ensures selectedChatId == old(selectedChatId) && fetched == old(fetched)
    {
      var question := Trim(input);
      if question == "" {
        chat := chat + [AssistantError(NeedQuestion)];
        return;
      }
      if !Truthy(selectedChatId) || |fetched| == 0 {
        chat := chat + [AssistantError(NeedChatWithMessages)];
        return;
      }
      chat := chat + [UserLine(question)];
      askDisabled := true;
      inputDisabled := true;
      requests := requests + [AskRequest(AskBodyFor(selectedChatId.value, question))];
    }
  }

  /** With the corrected request bodies, every summarize request the panel sends
      names a chat, so the route never refuses it for want of a chat id (the
      script as written is refused every time, see `AsWrittenRequestsRejected`). */
  method SummarizeNamesTheChat(p: PanelView, ctx: AiContext, summaryPrompt: (string, nat, string) -> string)
      returns (sent: bool, status: nat)
    modifies p
    ensures sent ==> status != 400
  {
    var before := |p.requests|;
    p.OnSummarizeClick();
    sent := |p.requests| > before;
    status := 0;
    if sent {
      var body := p.requests[before].body;
      SummaryReachesSelectedChat(body.chatId.value, ctx, summaryPrompt);
      status := Routes.Summarize(body, ctx, summaryPrompt).status;
    }
  }
}
