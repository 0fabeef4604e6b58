/**
 * The script that runs in the WhatsApp Web page: it tracks which chat has the
 * focus, guesses the chat's JID from the page, relays the panel's requests to
 * the background worker, and keeps the degraded-mode flag of
 * `safelySendMessageToBackground` (a function nothing in the script calls) and
 * the page reloads that clear it.
 *
 * The page is abstracted as a `Dom` record that holds, for each query the
 * script makes, what that query finds; the string tests and transforms applied
 * to what is found are modelled exactly. Messages to the background worker and
 * posts to the panel's frame are recorded in logs. Every direct
 * `chrome.runtime.sendMessage` call sits in a `try` that only logs, so each
 * sender takes a `sendThrows` flag under which nothing is sent.
 */
module Focus {
  import opened Wrappers
  import opened JsText

  // ---------------------------------------------------------------------------
  // The page

  /** `div#main > header` and the text of the chat-title element inside it. */
  datatype Header = Header(title: Option<string>)

  /** The `data-jid` and `data-id` attributes of one element. */
  datatype IdAttrs = IdAttrs(dataJid: Option<string>, dataId: Option<string>)

  datatype Dom = Dom(
    header: Option<Header>,
    /** `data-jid` of `header [data-jid]` (method 1). */
    headerDataJid: Option<string>,
    /** `data-id` of `#main header [data-id]` (method 2). */
    mainHeaderDataId: Option<string>,
    /** The first `[data-jid], [data-id]` element inside the conversation header (method 3). */
    conversationHeaderIds: Option<IdAttrs>,
    /** `#main [data-jid], #main [data-id]` in document order (method 4). */
    containers: seq<IdAttrs>,
    /** Texts of the spans of the chat-info drawer (method 5). */
    drawerSpans: seq<string>,
    /** Text of the first chat-title element anywhere in the page (method 6). */
    pageTitle: Option<string>,
    /** Whether the group-info drawer is open, and the `data-testid`s inside it (method 7). */
    groupDrawer: bool,
    groupTestIds: seq<string>,
    /** `data-id` of the selected chat-list cell, then of each of its ancestors (method 8). */
    activeItem: seq<Option<string>>,
    /** Text of `div#main > header span[dir="auto"]`, `data-id`s of all `[data-id]`
        elements, and texts of the conversation-info spans (`getDirectChatInfo`). */
    directTitle: Option<string>,
    dataIds: seq<Option<string>>,
    infoSpans: seq<string>
  )

  // ---------------------------------------------------------------------------
  // Searching

  /** The first hit of `f` along `xs`. */
  function FirstHit<T>(xs: seq<T>, f: T -> Option<string>): Option<string>
  {
    if xs == [] then None
    else if f(xs[0]).Some? then f(xs[0])
    else FirstHit(xs[1..], f)
  }

  /** A hit comes from some element, and there is none exactly when no element
      gives one. */
  lemma {:induction false} FirstHitSpec<T>(xs: seq<T>, f: T -> Option<string>)
    ensures FirstHit(xs, f).Some? ==> exists i :: 0 <= i < |xs| && f(xs[i]) == FirstHit(xs, f)
    ensures FirstHit(xs, f).None? <==> forall i :: 0 <= i < |xs| ==> f(xs[i]).None?
  {
    if xs != [] && f(xs[0]).None? {
      FirstHitSpec(xs[1..], f);
      assert forall i :: 1 <= i < |xs| ==> xs[1..][i - 1] == xs[i];
      if FirstHit(xs, f).Some? {
        var j :| 0 <= j < |xs[1..]| && f(xs[1..][j]) == FirstHit(xs, f);
        assert f(xs[j + 1]) == FirstHit(xs, f);
      }
    }
  }

  /** The `for ... of` loops with an early return. */
  method FindFirst<T>(xs: seq<T>, f: T -> Option<string>) returns (r: Option<string>)
    ensures r == FirstHit(xs, f)
  {
    var i := 0;
    while i < |xs|
      invariant 0 <= i <= |xs|
      invariant FirstHit(xs[i..], f) == FirstHit(xs, f)
    {
      if f(xs[i]).Some? {
        return f(xs[i]);
      }
      assert xs[i..][1..] == xs[i + 1..];
      i := i + 1;
    }
    assert xs[i..] == [];
    return None;
  }

  /** `a` when it is truthy, otherwise nothing. */
  function IfTruthy(a: Option<string>): (r: Option<string>)
    ensures r.Some? <==> Truthy(a)
    ensures r.Some? ==> r == a
  {
    if Truthy(a) then a else None
  }

  /** `a` when it holds something, otherwise `b`. */
  function Else(a: Option<string>, b: Option<string>): (r: Option<string>)
    ensures a.Some? ==> r == a
    ensures a.None? ==> r == b
  {
    if a.Some? then a else b
  }

  // ---------------------------------------------------------------------------
  // Phone numbers

  /** `/^\+\d{6,15}$/`. */
  predicate IsPlusPhone(s: string) {
    7 <= |s| <= 16 && s[0] == '+' && AllDigits(s[1..])
  }

  /** Method 5 on one span: a text that is a `+` and 6 to 15 digits once its white
      space is removed becomes `<digits>@c.us`. */
  function DrawerPhoneJid(text: string): (r: Option<string>)
    ensures r.Some? <==> IsPlusPhone(StripSpaces(text))
    ensures NonEmpty(r)
  {
    if text != "" && IsPlusPhone(StripSpaces(text)) then Some(Digits(text) + "@c.us") else None
  }

  /** Removing white space does not change the digits of a text. */
  lemma {:induction false} DigitsIgnoreSpaces(s: string)
    ensures Digits(StripSpaces(s)) == Digits(s)
  {
    if s != [] {
      DigitsIgnoreSpaces(s[1..]);
      var head := if IsSpace(s[0]) then [] else [s[0]];
      assert StripSpaces(s) == head + StripSpaces(s[1..]);
      DigitsAppend(head, StripSpaces(s[1..]));
    }
  }

  /** The JID method 5 derives is the phone number without its `+`. */
  lemma {:induction false} DrawerPhoneJidIsNumber(text: string)
    requires IsPlusPhone(StripSpaces(text))
    ensures DrawerPhoneJid(text) == Some(StripSpaces(text)[1..] + "@c.us")
    ensures 6 <= |Digits(text)| <= 15
  {
    var t := StripSpaces(text);
    DigitsIgnoreSpaces(text);
    assert t == [t[0]] + t[1..];
    assert Digits(t) == Digits(t[1..]);
    assert text != "";
  }

  /** `/\d[\d\s]{8,20}$/` from the start of `t`. */
  predicate PhoneBody(t: string) {
    9 <= |t| <= 21 && IsDigit(t[0]) && forall i :: 1 <= i < |t| ==> IsDigit(t[i]) || IsSpace(t[i])
  }

  /** `(?:\+\d{1,3})?`. */
  predicate CountryCode(p: string) {
    p == "" || (2 <= |p| <= 4 && p[0] == '+' && AllDigits(p[1..]))
  }

  predicate AllSpace(s: string) {
    forall i :: 0 <= i < |s| ==> IsSpace(s[i])
  }

  /** `name` split at `j` and `k` into a country code, white space and a phone body. */
  predicate PhoneSplit(name: string, j: int, k: int) {
    0 <= j <= k <= |name| && CountryCode(name[..j]) && AllSpace(name[j..k]) && PhoneBody(name[k..])
  }

  /** `/^(?:\+\d{1,3})?\s*\d[\d\s]{8,20}$/`. */
  predicate LooksLikePhone(name: string) {
    exists j, k | 0 <= j <= k <= |name| :: PhoneSplit(name, j, k)
  }

  /** Method 6: a chat name that looks like a phone number and has at least 8
      digits becomes `<digits>@c.us`. */
  function NameJid(name: Option<string>): (r: Option<string>)
    ensures r.Some? <==> Truthy(name) && LooksLikePhone(name.value) && |Digits(name.value)| >= 8
    ensures r.Some? ==> r.value == Digits(name.value) + "@c.us"
  {
    if Truthy(name) && LooksLikePhone(name.value) && |Digits(name.value)| >= 8 then Some(Digits(name.value) + "@c.us")
    else None
  }

  /** The pattern alone admits a single digit followed by spaces; the length
      test on the digits is what rejects it. */
  lemma PatternNeedsDigitCount()
    ensures LooksLikePhone("1        ")
    ensures NameJid(Some("1        ")) == None
  {
    var name := "1        ";
    assert PhoneSplit(name, 0, 0);
    assert Digits(name) == "1";
  }

  // ---------------------------------------------------------------------------
  // The JID guessers

  /** Method 4 on one element: `data-jid || data-id`, when it names a contact or a group. */
  function ContainerJid(a: IdAttrs): (r: Option<string>)
    ensures r.Some? <==>
              Truthy(Or(a.dataJid, a.dataId))
              && (Contains(Or(a.dataJid, a.dataId).value, "@c.us") || Contains(Or(a.dataJid, a.dataId).value, "@g.us"))
    ensures r.Some? ==> r == (if Truthy(a.dataJid) then a.dataJid else a.dataId)
  {
    var jid := Or(a.dataJid, a.dataId);
    if Truthy(jid) && (Contains(jid.value, "@c.us") || Contains(jid.value, "@g.us")) then jid else None
  }

  /** Method 7 on one `data-testid`: one containing `group-` whose last `-`-separated
      piece is longer than 5 characters becomes `<piece>@g.us`. */
  function GroupJid(testId: string): (r: Option<string>)
    ensures r.Some? <==> Contains(testId, "group-") && |LastPart(testId, '-')| > 5
    ensures r.Some? ==> r.value == LastPart(testId, '-') + "@g.us" && '-' !in LastPart(testId, '-')
  {
    if Contains(testId, "group-") then
      var piece := LastPart(testId, '-');
      if |piece| > 5 then Some(piece + "@g.us") else None
    else None
  }

  /** Method 8: the `data-id` of the selected cell or of one of its first ten ancestors. */
  function ActiveItemJid(chain: seq<Option<string>>): Option<string> {
    FirstHit(chain[..if |chain| < 11 then |chain| else 11], IfTruthy)
  }

  /** The walk up from the selected cell, at most ten steps. */
  method WalkUp(chain: seq<Option<string>>) returns (r: Option<string>)
    ensures r == ActiveItemJid(chain)
  {
    var limit := if |chain| < 11 then |chain| else 11;
    var i := 0;
    while i < |chain| && !Truthy(chain[i]) && i < 10
      invariant 0 <= i <= limit
      invariant forall j :: 0 <= j < i ==> !Truthy(chain[j])
    {
      i := i + 1;
    }
    var prefix := chain[..limit];
    if i < |chain| && Truthy(chain[i]) {
      r := chain[i];
      FirstHitAt(prefix, IfTruthy, i);
    } else {
      r := None;
      assert forall j :: 0 <= j < |prefix| ==> IfTruthy(prefix[j]).None?;
      FirstHitSpec(prefix, IfTruthy);
    }
  }

  /** When `i` is the first hit, it is the one `FirstHit` finds. */
  lemma {:induction false} FirstHitAt<T>(xs: seq<T>, f: T -> Option<string>, i: nat)
    requires i < |xs| && f(xs[i]).Some?
    requires forall j :: 0 <= j < i ==> f(xs[j]).None?
    ensures FirstHit(xs, f) == f(xs[i])
  {
    if i > 0 {
      assert xs[1..][i - 1] == xs[i];
      FirstHitAt(xs[1..], f, i - 1);
    }
  }

  /** The eight guesses of `extractJidFromDom`, taken in order; `cachedName` is
      the chat name the script last recorded. */
  function JidFromDom(dom: Dom, cachedName: Option<string>): Option<string> {
    var m1 := IfTruthy(dom.headerDataJid);
    var m2 := IfTruthy(dom.mainHeaderDataId);
    var m3 := match dom.conversationHeaderIds
      case None => None
      case Some(a) => IfTruthy(Or(a.dataJid, a.dataId));
    var m4 := FirstHit(dom.containers, ContainerJid);
    var m5 := FirstHit(dom.drawerSpans, DrawerPhoneJid);
    var title := match dom.pageTitle
      case None => None
      case Some(t) => Some(Trim(t));
    var m6 := NameJid(Or(cachedName, title));
    var m7 := if dom.groupDrawer then FirstHit(dom.groupTestIds, GroupJid) else None;
    var m8 := ActiveItemJid(dom.activeItem);
    Else(m1, Else(m2, Else(m3, Else(m4, Else(m5, Else(m6, Else(m7, m8)))))))
  }

  /** `extractJidFromDom()`. */
  method ExtractJidFromDom(dom: Dom, cachedName: Option<string>) returns (jid: Option<string>)
    ensures jid == JidFromDom(dom, cachedName)
  {
    if Truthy(dom.headerDataJid) {
      return dom.headerDataJid;
    }
    if Truthy(dom.mainHeaderDataId) {
      return dom.mainHeaderDataId;
    }
    if dom.conversationHeaderIds.Some? {
      var a := dom.conversationHeaderIds.value;
      var j := Or(a.dataJid, a.dataId);
      if Truthy(j) {
        return j;
      }
    }
    jid := FindFirst(dom.containers, ContainerJid);
    if jid.Some? {
      return;
    }
    jid := FindFirst(dom.drawerSpans, DrawerPhoneJid);
    if jid.Some? {
      return;
    }
    var title := if dom.pageTitle.Some? then Some(Trim(dom.pageTitle.value)) else None;
    jid := NameJid(Or(cachedName, title));
    if jid.Some? {
      return;
    }
    if dom.groupDrawer {
      jid := FindFirst(dom.groupTestIds, GroupJid);
      if jid.Some? {
        return;
      }
    }
    jid := WalkUp(dom.activeItem);
  }

  predicate NonEmpty(o: Option<string>) {
    o.None? || o.value != ""
  }

  lemma {:induction false} FirstHitNonEmpty<T>(xs: seq<T>, f: T -> Option<string>)
    requires forall i :: 0 <= i < |xs| ==> NonEmpty(f(xs[i]))
    ensures NonEmpty(FirstHit(xs, f))
  {
    FirstHitSpec(xs, f);
    if FirstHit(xs, f).Some? {
      var i :| 0 <= i < |xs| && f(xs[i]) == FirstHit(xs, f);
    }
  }

  /** Whatever guess succeeds, the JID is a non-empty string. */
  lemma JidFromDomNonEmpty(dom: Dom, cachedName: Option<string>)
    ensures NonEmpty(JidFromDom(dom, cachedName))
  {
    FirstHitNonEmpty(dom.containers, ContainerJid);
    FirstHitNonEmpty(dom.drawerSpans, DrawerPhoneJid);
    FirstHitNonEmpty(dom.groupTestIds, GroupJid);
    var n := if |dom.activeItem| < 11 then |dom.activeItem| else 11;
    FirstHitNonEmpty(dom.activeItem[..n], IfTruthy);
  }

  /** What `getCurrentChatInfo` returns when it finds a chat. */
  datatype ChatInfo = ChatInfo(chatName: string, chatJid: Option<string>)

  /** `getCurrentChatInfo()`: the trimmed title of the chat header, when there is
      a non-empty one, with the JID guessed from the page. */
  function CurrentChatInfo(dom: Dom, cachedName: Option<string>): (r: Option<ChatInfo>)
    ensures r.Some? <==> dom.header.Some? && dom.header.value.title.Some? && Trim(dom.header.value.title.value) != ""
    ensures r.Some? ==> r.value.chatName == Trim(dom.header.value.title.value)
                        && r.value.chatJid == JidFromDom(dom, cachedName)
  {
    match dom.header
    case None => None
    case Some(h) =>
      match h.title
      case None => None
      case Some(t) =>
        var name := Trim(t);
        if name == "" then None else Some(ChatInfo(name, JidFromDom(dom, cachedName)))
  }

  /** `getDirectChatInfo`'s second test: the digits of the text, read against
      `/^\+?\d{6,15}$/`. */
  predicate PlusOptionalPhone(s: string) {
    (1 <= |s| && s[0] == '+' && 7 <= |s| <= 16 && AllDigits(s[1..])) || (6 <= |s| <= 15 && AllDigits(s))
  }

  function DirectPhoneJid(text: string): (r: Option<string>)
    ensures r.Some? <==> 6 <= |Digits(text)| <= 15
    ensures r.Some? ==> r.value == Digits(text) + "@c.us"
  {
    var d := Digits(text);
    assert d != [] ==> IsDigit(d[0]);
    if PlusOptionalPhone(d) then Some(d + "@c.us") else None
  }

  /** `getDirectChatInfo`'s first test on one `data-id`. */
  function DataIdJid(id: Option<string>): (r: Option<string>)
    ensures r.Some? <==> Truthy(id) && (Contains(id.value, "@c.us") || Contains(id.value, "@g.us"))
    ensures r.Some? ==> r == id
  {
    if Truthy(id) && (Contains(id.value, "@c.us") || Contains(id.value, "@g.us")) then id else None
  }

  datatype DirectInfo = DirectInfo(chatName: Option<string>, chatJid: Option<string>)

  /** `getDirectChatInfo()`: a contact or group id found in the page, else a phone
      number found in the conversation-info header. */
  function DirectChatInfo(dom: Dom): (r: DirectInfo)
    ensures r.chatName == (if dom.directTitle.Some? then Some(Trim(dom.directTitle.value)) else None)
    ensures FirstHit(dom.dataIds, DataIdJid).Some? ==> r.chatJid == FirstHit(dom.dataIds, DataIdJid)
    ensures FirstHit(dom.dataIds, DataIdJid).None? ==> r.chatJid == FirstHit(dom.infoSpans, DirectPhoneJid)
  {
    var name := if dom.directTitle.Some? then Some(Trim(dom.directTitle.value)) else None;
    DirectInfo(name, Else(FirstHit(dom.dataIds, DataIdJid), FirstHit(dom.infoSpans, DirectPhoneJid)))
  }

  method GetDirectChatInfo(dom: Dom) returns (r: DirectInfo)
    ensures r == DirectChatInfo(dom)
  {
    var name := if dom.directTitle.Some? then Some(Trim(dom.directTitle.value)) else None;
    var jid := FindFirst(dom.dataIds, DataIdJid);
    if jid.None? {
      jid := FindFirst(dom.infoSpans, DirectPhoneJid);
    }
    r := DirectInfo(name, jid);
  }

  // ---------------------------------------------------------------------------
  // The relay of the panel's SEND_TO_BACKGROUND requests

  /** `message.requestId || Date.now()`. */
  datatype RequestId = PanelId(id: string) | ClockId(ms: nat)

  function RequestIdOf(given: Option<string>, now: nat): (r: RequestId)
    ensures Truthy(given) ==> r == PanelId(given.value)
    ensures !Truthy(given) ==> r == ClockId(now)
  {
    if Truthy(given) then PanelId(given.value) else ClockId(now)
  }

  /** The focused chat as the background worker reports it. */
  datatype FocusedChat = FocusedChat(name: Option<string>, jid: Option<string>, id: Option<string>)

  /** The background's answer: absent, or carrying a chat or not. */
  datatype BgReply = BgReply(chat: Option<FocusedChat>)

  /** How `chrome.runtime.sendMessage`'s callback is called. */
  datatype BgOutcome = RuntimeError(message: string) | Replied(response: Option<BgReply>)

  /** Where a CHAT_INFO post comes from; `HeaderChange` is the untagged post made
      when the header's title changes. */
  datatype InfoSource = Background | DomFallback | ManualSelection | FromDom | HeaderChange

  /** What the page posts to the panel's frame. */
  datatype PanelPost =
    | ChatInfoPost(chatName: Option<string>, chatJid: Option<string>, requestId: Option<RequestId>, origin: InfoSource)
    | ChatInfoError(errorText: string, requestId: Option<RequestId>)
    | BackgroundResponse(error: Option<string>, response: Option<BgReply>, requestId: Option<RequestId>, timedOut: bool)
    | FocusedChatUpdated(chat: FocusedChat)
    | ChatInfoFailed(reason: string, panelRequestId: Option<string>)
    | ContentDirect(originalType: string)
    | ExtensionError

  const NoChatInfo := "No chat info available"
  const RelayTimedOut := "Request timed out after 10 seconds"

  /** The DOM fallback reply for GET_FOCUSED_CHAT. */
  function Fallback(info: ChatInfo, rid: RequestId): PanelPost {
    ChatInfoPost(Some(info.chatName), info.chatJid, Some(rid), DomFallback)
  }

  /** The relay's reply once the background has answered a request of the given
      type; `domInfo` is what `getCurrentChatInfo` finds at that moment. */
  function RelayReply(isGetFocusedChat: bool, outcome: BgOutcome, domInfo: Option<ChatInfo>, rid: RequestId): (r: PanelPost)
    ensures (r.ChatInfoPost? || r.ChatInfoError? || r.BackgroundResponse?) && r.requestId == Some(rid)
    ensures r.ChatInfoPost? && r.origin == DomFallback <==>
            isGetFocusedChat && domInfo.Some?
            && (outcome.RuntimeError? || outcome.response.None? || outcome.response.value.chat.None?)
    ensures r.BackgroundResponse? <==>
            !isGetFocusedChat || (outcome.RuntimeError? && domInfo.None?)
    ensures r.BackgroundResponse? ==> (r.error.Some? <==> outcome.RuntimeError?) && (r.error.None? || r.response.None?)
    ensures r.ChatInfoError? <==>
            isGetFocusedChat && outcome.Replied? && domInfo.None?
            && (outcome.response.None? || outcome.response.value.chat.None?)
    // The payloads.
    ensures r.BackgroundResponse? ==>
              !r.timedOut
              && (outcome.RuntimeError? ==> r.error == Some(outcome.message) && r.response == None)
              && (outcome.Replied? ==> r.error == None && r.response == outcome.response)
    ensures r.ChatInfoPost? && r.origin == DomFallback ==>
              r.chatName == Some(domInfo.value.chatName) && r.chatJid == domInfo.value.chatJid
    ensures isGetFocusedChat && outcome.Replied? && outcome.response.Some? && outcome.response.value.chat.Some? ==>
              var chat := outcome.response.value.chat.value;
              r.ChatInfoPost? && r.origin == Background && r.chatName == chat.name
              && r.chatJid == (if Truthy(chat.jid) then chat.jid else chat.id)
    ensures r.ChatInfoError? ==> r.errorText == NoChatInfo
  {
    match outcome
    case RuntimeError(m) =>
      if isGetFocusedChat && domInfo.Some? then Fallback(domInfo.value, rid)
      else BackgroundResponse(Some(m), None, Some(rid), false)
    case Replied(response) =>
      if !isGetFocusedChat then BackgroundResponse(None, response, Some(rid), false)
      else if response.Some? && response.value.chat.Some? then
        var chat := response.value.chat.value;
        ChatInfoPost(chat.name, Or(chat.jid, chat.id), Some(rid), Background)
      else if domInfo.Some? then Fallback(domInfo.value, rid)
      else ChatInfoError(NoChatInfo, Some(rid))
  }

  // ---------------------------------------------------------------------------
  // The page script's state

  /** What the page sends to the background worker. */
  datatype BgMessage =
    | ChatSwitchedName(chatName: string)
    | ChatSwitched(chatName: string, chatJid: Option<string>)
    | Relayed(messageType: string)

  /** What a caller of `safelySendMessageToBackground` gets back through its callback. */
  datatype SendResult = SendFailed(error: string, fallback: bool) | SendReply(response: Option<BgReply>)

  const FallbackModeError := "Extension in fallback mode"
  const NoRuntimeError := "Chrome runtime not available"

  /** The `sendCurrentChatInfoToBackground` test. Its last disjunct is implied by
      the one before it. */
  predicate ShouldSend(force: bool, info: ChatInfo, cachedName: Option<string>, cachedJid: Option<string>) {
    force || Some(info.chatName) != cachedName || info.chatJid != cachedJid || (Truthy(info.chatJid) && !Truthy(cachedJid))
  }

  lemma ShouldSendIffChanged(force: bool, info: ChatInfo, cachedName: Option<string>, cachedJid: Option<string>)
    ensures ShouldSend(force, info, cachedName, cachedJid) <==> force || (Some(info.chatName), info.chatJid) != (cachedName, cachedJid)
  {
  }

  /** What a relayed request's timer and callback captured: the request id and
      the type of the relayed message. */
  datatype PendingRelay = PendingRelay(rid: RequestId, messageType: string)

  class FocusTracker {
    var currentChatName: Option<string>
    var currentChatJid: Option<string>
    /** The `whatsapp_ai_extension_context_invalidated` local-storage flag is `'true'`. */
    var degraded: bool
    /** The flag was set when the page loaded, so a `beforeunload` listener clears it. */
    var loadedDegraded: bool
    var toBackground: seq<BgMessage>
    var toPanel: seq<PanelPost>
    /** The handles of relay timers not yet fired or cleared. */
    var relayTimers: set<nat>
    /** What each relayed request's callback and timer captured, by handle. */
    var relayRequests: map<nat, PendingRelay>
    /** The handles whose `sendMessage` callback is still to come. */
    var relayCallbacks: set<nat>
    var callbackResults: seq<SendResult>

    /** The state of the script right after a page load with the flag as stored. */
    predicate Fresh(storedDegraded: bool)
      reads this
    {
      currentChatName == None && currentChatJid == None
      && degraded == storedDegraded && loadedDegraded == storedDegraded
      && toBackground == [] && toPanel == []
      && relayTimers == {} && relayRequests == map[] && relayCallbacks == {}
      && callbackResults == []
    }

    /** A page load: nothing cached yet, the degraded flag as stored. */
    constructor(storedDegraded: bool)
      ensures Fresh(storedDegraded)
    {
      currentChatName := None;
      currentChatJid := None;
      degraded := storedDegraded;
      loadedDegraded := storedDegraded;
      toBackground := [];
      toPanel := [];
      relayTimers := {};
      relayRequests := map[];
      relayCallbacks := {};
      callbackResults := [];
    }

    /** `sendCurrentChatInfoToBackground(force)`. The cache is updated before the
        send; `sendThrows` says that `chrome.runtime.sendMessage` throws, in which
        case the error is only logged and nothing is sent. */
    method SendCurrentChatInfo(dom: Dom, force: bool, sendThrows: bool)
      modifies this
      ensures var info := CurrentChatInfo(dom, old(currentChatName));
              info.Some? && ShouldSend(force, info.value, old(currentChatName), old(currentChatJid)) ==>
                currentChatName == Some(info.value.chatName) && currentChatJid == info.value.chatJid
                && toBackground == old(toBackground) + (if sendThrows then [] else [ChatSwitched(info.value.chatName, info.value.chatJid)])
      ensures var info := CurrentChatInfo(dom, old(currentChatName));
              !(info.Some? && ShouldSend(force, info.value, old(currentChatName), old(currentChatJid))) ==>
                currentChatName == old(currentChatName) && currentChatJid == old(currentChatJid)
                && toBackground == old(toBackground)
      ensures degraded == old(degraded) && loadedDegraded == old(loadedDegraded) && toPanel == old(toPanel)
      ensures relayTimers == old(relayTimers) && relayRequests == old(relayRequests) && relayCallbacks == old(relayCallbacks)
      ensures callbackResults == old(callbackResults)
    {
      var info := CurrentChatInfo(dom, currentChatName);
      if info.Some? && ShouldSend(force, info.value, currentChatName, currentChatJid) {
        var name, jid := info.value.chatName, info.value.chatJid;
        currentChatName := Some(name);
        currentChatJid := jid;
        if !sendThrows {
          toBackground := toBackground + [ChatSwitched(name, jid)];
        }
      }
    }

    /** `extractAndNotifyChatInfo(header)`: a new non-empty title replaces the
        cached name (the JID is left as it is), and is announced to the
        background (unless `sendMessage` throws inside
        `notifyBackgroundOfChatChange`, which only logs) and twice to the panel
        (the `chatChanged` listener, then the direct post) when the panel's
        frame exists. */
    method ExtractAndNotify(header: Option<Header>, frame: bool, sendThrows: bool)
      modifies this
      ensures var name := if header.Some? && header.value.title.Some? then Trim(header.value.title.value) else "";
              if name != "" && Some(name) != old(currentChatName) then
                currentChatName == Some(name)
                && toBackground == old(toBackground) + (if sendThrows then [] else [ChatSwitchedName(name)])
                && toPanel == old(toPanel) + (if frame then [ChatInfoPost(Some(name), None, None, HeaderChange), ChatInfoPost(Some(name), None, None, HeaderChange)] else [])
              else
                currentChatName == old(currentChatName) && toBackground == old(toBackground) && toPanel == old(toPanel)
      ensures currentChatJid == old(currentChatJid) && degraded == old(degraded) && loadedDegraded == old(loadedDegraded)
      ensures relayTimers == old(relayTimers) && relayRequests == old(relayRequests) && relayCallbacks == old(relayCallbacks)
      ensures callbackResults == old(callbackResults)
    {
      if header.None? || header.value.title.None? {
        return;
      }
      var name := Trim(header.value.title.value);
      if name == "" {
        return;
      }
      if Some(name) != currentChatName {
        currentChatName := Some(name);
        if !sendThrows {
          toBackground := toBackground + [ChatSwitchedName(name)];
        }
        if frame {
          toPanel := toPanel + [ChatInfoPost(Some(name), None, None, HeaderChange), ChatInfoPost(Some(name), None, None, HeaderChange)];
        }
      }
    }

    /** The FOCUSED_CHAT_UPDATED message from the background: a truthy name or
        JID (else id) replaces the cached one; the message is relayed to the
        panel's frame; the answer is always an acknowledgement. */
    method OnFocusedChatUpdated(chat: Option<FocusedChat>, frame: bool) returns (ack: bool)
      modifies this
      ensures ack
      ensures chat.None? ==> currentChatName == old(currentChatName) && currentChatJid == old(currentChatJid) && toPanel == old(toPanel)
      ensures chat.Some? ==>
              currentChatName == Or(chat.value.name, old(currentChatName))
              && currentChatJid == Or(chat.value.jid, Or(chat.value.id, old(currentChatJid)))
              && toPanel == old(toPanel) + (if frame then [FocusedChatUpdated(chat.value)] else [])
      ensures degraded == old(degraded) && loadedDegraded == old(loadedDegraded) && toBackground == old(toBackground)
      ensures relayTimers == old(relayTimers) && relayRequests == old(relayRequests) && relayCallbacks == old(relayCallbacks)
      ensures callbackResults == old(callbackResults)
    {
      if chat.Some? {
        currentChatName := Or(chat.value.name, currentChatName);
        currentChatJid := Or(chat.value.jid, Or(chat.value.id, currentChatJid));
        if frame {
          toPanel := toPanel + [FocusedChatUpdated(chat.value)];
        }
      }
      return true;
    }

    /** MANUAL_CHAT_SELECTED from the panel: a truthy name becomes the focused
        chat, with its JID when truthy, is sent to the background and, from the
        send's callback, confirmed to the panel. When `sendMessage` throws, the
        cache is still set but nothing is sent and no confirmation comes. */
    method OnManualChatSelected(chatName: Option<string>, chatJid: Option<string>, sendThrows: bool)
      modifies this
      ensures Truthy(chatName) ==>
              currentChatName == chatName && currentChatJid == IfTruthy(chatJid)
              && toBackground == old(toBackground) + (if sendThrows then [] else [ChatSwitched(chatName.value, IfTruthy(chatJid))])
              && toPanel == old(toPanel) + (if sendThrows then [] else [ChatInfoPost(chatName, IfTruthy(chatJid), None, ManualSelection)])
      ensures !Truthy(chatName) ==>
              currentChatName == old(currentChatName) && currentChatJid == old(currentChatJid)
              && toBackground == old(toBackground) && toPanel == old(toPanel)
      ensures degraded == old(degraded) && loadedDegraded == old(loadedDegraded)
      ensures relayTimers == old(relayTimers) && relayRequests == old(relayRequests) && relayCallbacks == old(relayCallbacks)
      ensures callbackResults == old(callbackResults)
    {
      if Truthy(chatName) {
        currentChatName := chatName;
        currentChatJid := IfTruthy(chatJid);
        if !sendThrows {
          toBackground := toBackground + [ChatSwitched(chatName.value, IfTruthy(chatJid))];
          toPanel := toPanel + [ChatInfoPost(chatName, IfTruthy(chatJid), None, ManualSelection)];
        }
      }
    }

    /** REQUEST_DOM_CHAT_INFO from the panel. The panel is answered before the
        send to the background, which a throwing `sendMessage` skips. */
    method OnRequestDomChatInfo(dom: Dom, panelRequestId: Option<string>, sendThrows: bool)
      modifies this
      ensures var info := CurrentChatInfo(dom, old(currentChatName));
              if info.Some? then
                currentChatName == Some(info.value.chatName) && currentChatJid == info.value.chatJid
                && toPanel == old(toPanel) + [ChatInfoPost(Some(info.value.chatName), info.value.chatJid, None, FromDom)]
                && toBackground == old(toBackground) + (if sendThrows then [] else [ChatSwitched(info.value.chatName, info.value.chatJid)])
              else
                currentChatName == old(currentChatName) && currentChatJid == old(currentChatJid)
                && toPanel == old(toPanel) + [ChatInfoFailed("Could not extract chat from DOM", panelRequestId)]
                && toBackground == old(toBackground)
      ensures degraded == old(degraded) && loadedDegraded == old(loadedDegraded)
      ensures relayTimers == old(relayTimers) && relayRequests == old(relayRequests) && relayCallbacks == old(relayCallbacks)
      ensures callbackResults == old(callbackResults)
    {
      var info := CurrentChatInfo(dom, currentChatName);
      if info.Some? {
        var name, jid := info.value.chatName, info.value.chatJid;
        currentChatName := Some(name);
        currentChatJid := jid;
        toPanel := toPanel + [ChatInfoPost(Some(name), jid, None, FromDom)];
        if !sendThrows {
          toBackground := toBackground + [ChatSwitched(name, jid)];
        }
      } else {
        toPanel := toPanel + [ChatInfoFailed("Could not extract chat from DOM", panelRequestId)];
      }
    }

    /** SEND_TO_BACKGROUND from the panel: a ten-second timer, with handle
        `handle`, is armed, and the wrapped message goes to the background. A
        throwing `sendMessage` is caught by the listener: the timer stays armed,
        nothing is sent and no callback will come. */
    method Relay(messageType: string, given: Option<string>, now: nat, handle: nat, sendThrows: bool)
      requires handle !in relayRequests
      modifies this
      ensures relayTimers == old(relayTimers) + {handle}
      ensures relayRequests == old(relayRequests)[handle := PendingRelay(RequestIdOf(given, now), messageType)]
      ensures relayCallbacks == old(relayCallbacks) + (if sendThrows then {} else {handle})
      ensures toBackground == old(toBackground) + (if sendThrows then [] else [Relayed(messageType)])
      ensures currentChatName == old(currentChatName) && currentChatJid == old(currentChatJid)
      ensures degraded == old(degraded) && loadedDegraded == old(loadedDegraded)
      ensures toPanel == old(toPanel) && callbackResults == old(callbackResults)
    {
      relayTimers := relayTimers + {handle};
      relayRequests := relayRequests[handle := PendingRelay(RequestIdOf(given, now), messageType)];
      if !sendThrows {
        relayCallbacks := relayCallbacks + {handle};
        toBackground := toBackground + [Relayed(messageType)];
      }
    }

    /** The relay timer fires: a timed-out response with the request's id. */
    method OnRelayTimeout(handle: nat)
      requires handle in relayTimers && handle in relayRequests
      modifies this
      ensures relayTimers == old(relayTimers) - {handle}
      ensures relayRequests == old(relayRequests) && relayCallbacks == old(relayCallbacks)
      ensures toPanel == old(toPanel) + [BackgroundResponse(Some(RelayTimedOut), None, Some(relayRequests[handle].rid), true)]
      ensures currentChatName == old(currentChatName) && currentChatJid == old(currentChatJid)
      ensures degraded == old(degraded) && loadedDegraded == old(loadedDegraded)
      ensures toBackground == old(toBackground) && callbackResults == old(callbackResults)
    {
      toPanel := toPanel + [BackgroundResponse(Some(RelayTimedOut), None, Some(relayRequests[handle].rid), true)];
      relayTimers := relayTimers - {handle};
    }

    /** The background's callback for a relayed request, called once: the timer
        is cleared (if it has not fired yet) and the reply for the relayed type
        is posted. Nothing stops a reply after the timeout, so one request can
        be answered twice. */
    method OnRelayReply(handle: nat, outcome: BgOutcome, dom: Dom)
      requires handle in relayCallbacks && handle in relayRequests
      modifies this
      ensures relayTimers == old(relayTimers) - {handle}
      ensures relayRequests == old(relayRequests) && relayCallbacks == old(relayCallbacks) - {handle}
      ensures var pending := relayRequests[handle];
              toPanel == old(toPanel) + [RelayReply(pending.messageType == "GET_FOCUSED_CHAT", outcome, CurrentChatInfo(dom, old(currentChatName)), pending.rid)]
      ensures currentChatName == old(currentChatName) && currentChatJid == old(currentChatJid)
      ensures degraded == old(degraded) && loadedDegraded == old(loadedDegraded)
      ensures toBackground == old(toBackground) && callbackResults == old(callbackResults)
    {
      relayTimers := relayTimers - {handle};
      relayCallbacks := relayCallbacks - {handle};
      var pending := relayRequests[handle];
      var info := CurrentChatInfo(dom, currentChatName);
      toPanel := toPanel + [RelayReply(pending.messageType == "GET_FOCUSED_CHAT", outcome, info, pending.rid)];
    }

    /** `safelySendMessageToBackground(message, callback)` up to the send.
        `runtime` tells whether `chrome.runtime.sendMessage` exists, and
        `throws` carries the message of an exception thrown by it. */
    method SafelySend(messageType: string, frame: bool, runtime: bool, throws: Option<string>) returns (sent: bool)
      modifies this
      ensures toPanel == old(toPanel) + (if frame then [ContentDirect(messageType)] else [])
      ensures old(degraded) ==>
                (!sent && degraded && toBackground == old(toBackground)
                 && callbackResults == old(callbackResults) + [SendFailed(FallbackModeError, true)])
      ensures !old(degraded) && !runtime ==>
                (!sent && !degraded && toBackground == old(toBackground)
                 && callbackResults == old(callbackResults) + [SendFailed(NoRuntimeError, false)])
      ensures !old(degraded) && runtime && throws.Some? ==>
                (!sent && degraded && toBackground == old(toBackground)
                 && callbackResults == old(callbackResults) + [SendFailed(throws.value, false)])
      ensures !old(degraded) && runtime && throws.None? ==>
                (sent && !degraded && toBackground == old(toBackground) + [Relayed(messageType)]
                 && callbackResults == old(callbackResults))
      ensures sent <==> !old(degraded) && runtime && throws.None?
      ensures currentChatName == old(currentChatName) && currentChatJid == old(currentChatJid) && loadedDegraded == old(loadedDegraded)
      ensures relayTimers == old(relayTimers) && relayRequests == old(relayRequests) && relayCallbacks == old(relayCallbacks)
    {
      if frame {
        toPanel := toPanel + [ContentDirect(messageType)];
      }
      if degraded {
        callbackResults := callbackResults + [SendFailed(FallbackModeError, true)];
        return false;
      }
      if !runtime {
        callbackResults := callbackResults + [SendFailed(NoRuntimeError, false)];
        return false;
      }
      if throws.Some? {
        degraded := true;
        callbackResults := callbackResults + [SendFailed(throws.value, false)];
        return false;
      }
      toBackground := toBackground + [Relayed(messageType)];
      return true;
    }

    /** The callback of a send made by `SafelySend`: an error mentioning
        "context invalidated" switches to degraded mode and tells the panel. */
    method OnSafeSendReply(frame: bool, outcome: BgOutcome)
      modifies this
      ensures outcome.Replied? ==>
              degraded == old(degraded) && toPanel == old(toPanel)
              && callbackResults == old(callbackResults) + [SendReply(outcome.response)]
      ensures outcome.RuntimeError? ==>
              callbackResults == old(callbackResults) + [SendFailed(outcome.message, false)]
              && degraded == (old(degraded) || Contains(outcome.message, "context invalidated"))
              && toPanel == old(toPanel) + (if frame && Contains(outcome.message, "context invalidated") then [ExtensionError] else [])
      ensures currentChatName == old(currentChatName) && currentChatJid == old(currentChatJid) && loadedDegraded == old(loadedDegraded)
      ensures relayTimers == old(relayTimers) && relayRequests == old(relayRequests) && relayCallbacks == old(relayCallbacks)
      ensures toBackground == old(toBackground)
    {
      match outcome
      case Replied(response) =>
        callbackResults := callbackResults + [SendReply(response)];
      case RuntimeError(m) =>
        if Contains(m, "context invalidated") {
          degraded := true;
          if frame {
            toPanel := toPanel + [ExtensionError];
          }
        }
        callbackResults := callbackResults + [SendFailed(m, false)];
    }

    /** The page is reloaded or navigated away from. The script's state is lost
        and it starts again on the new page; the `beforeunload` listener, added
        only when the page loaded with the flag set, clears the flag first. */
    method Reload()
      modifies this
      ensures Fresh(old(degraded) && !old(loadedDegraded))
    {
      degraded := degraded && !loadedDegraded;
      loadedDegraded := degraded;
      currentChatName := None;
      currentChatJid := None;
      toBackground := [];
      toPanel := [];
      relayTimers := {};
      relayRequests := map[];
      relayCallbacks := {};
      callbackResults := [];
    }

    /** The reload button of the error indicator, or REFRESH_PAGE from the
        panel: the flag is removed and the page reloads. */
    method ClearDegraded()
      modifies this
      ensures Fresh(false)
    {
      degraded := false;
      Reload();
    }
  }

  /** A reply that arrives after the relay's timeout is still posted: the panel
      receives two responses with the same request id. */
  method LateReplyAnsweredTwice(dom: Dom) returns (posts: seq<PanelPost>)
    ensures |posts| == 2
    ensures posts[0].BackgroundResponse? && posts[0].timedOut
    ensures posts[1].BackgroundResponse? && !posts[1].timedOut
    ensures posts[0].requestId == posts[1].requestId == Some(PanelId("r1"))
  {
    var t := new FocusTracker(false);
    t.Relay("GET_GROUPS", Some("r1"), 0, 7, false);
    t.OnRelayTimeout(7);
    t.OnRelayReply(7, Replied(None), dom);
    posts := t.toPanel;
  }

  /** On a page loaded in degraded mode, `safelySendMessageToBackground` sends
      nothing, however often it is called and whatever the runtime does: every
      caller gets the fallback-mode error. (The direct `chrome.runtime.sendMessage`
      calls of the relay and the chat notifications are not guarded by the flag.) */
  method DegradedSendsNothing(first: string, second: string, frame: bool, runtime: bool, throws: Option<string>)
      returns (sent: bool, results: seq<SendResult>, toBackground: seq<BgMessage>)
    ensures !sent
    ensures results == [SendFailed(FallbackModeError, true), SendFailed(FallbackModeError, true)]
    ensures toBackground == []
  {
    var t := new FocusTracker(true);
    var sent1 := t.SafelySend(first, frame, runtime, throws);
    var sent2 := t.SafelySend(second, frame, runtime, throws);
    sent := sent1 || sent2;
    results := t.callbackResults;
    toBackground := t.toBackground;
  }

  /** A relayed request whose `sendMessage` throws is answered only by its
      timer: nothing reaches the background and no callback is due. */
  method ThrownRelayOnlyTimesOut(messageType: string) returns (posts: seq<PanelPost>, sent: seq<BgMessage>, callbackDue: bool)
    ensures posts == [BackgroundResponse(Some(RelayTimedOut), None, Some(PanelId("r1")), true)]
    ensures sent == [] && !callbackDue
  {
    var t := new FocusTracker(false);
    t.Relay(messageType, Some("r1"), 0, 7, true);
    callbackDue := 7 in t.relayCallbacks;
    t.OnRelayTimeout(7);
    posts := t.toPanel;
    sent := t.toBackground;
  }

  /** The flag set during a session survives the next reload, since the page
      that set it registered no `beforeunload` listener; the page loaded in
      degraded mode then clears it when it is left. */
  method FlagSurvivesOneReload(messageType: string, error: string) returns (afterFirst: bool, afterSecond: bool)
    ensures afterFirst && !afterSecond
  {
    var t := new FocusTracker(false);
    var _ := t.SafelySend(messageType, false, true, Some(error));
    t.Reload();
    afterFirst := t.degraded;
    t.Reload();
    afterSecond := t.degraded;
  }
}
