/**
 * The extension's own content script: it injects the side panel into the
 * WhatsApp Web page once, keeps the panel's collapsed state (persisted in
 * local storage under `whatsappAiCopilotSidebarCollapsed`), lays the page out
 * around it, relays messages between the panel's frame and the background
 * worker, and polls for the page's chat list until the panel is in place.
 *
 * The page is reduced to what the script reads and writes: whether the panel
 * element and the `#app` element exist, the panel's width and the overrides set
 * on `#app`. Posts to the frame and messages to the background are logs.
 */
module Sidebar {
  import opened Wrappers
  import opened JsText

  const PanelWidth: nat := 375
  const CollapsedKey := "whatsappAiCopilotSidebarCollapsed"

  /** `FIXED_PANEL_WIDTH` written out in decimal. */
  lemma PanelWidthText()
    ensures NatToString(PanelWidth) == "375"
  {
    assert NatToString(3) == "3";
    assert NatToString(37) == NatToString(3) + [DigitChar(7)] == "37";
  }

  /** The panel's width for a collapsed state. */
  function WidthFor(collapsed: bool): (w: string)
    ensures collapsed <==> w == "0px"
    ensures !collapsed ==> w == "375px"
  {
    PanelWidthText();
    if collapsed then "0px" else NatToString(PanelWidth) + "px"
  }

  /** The overrides on `#app`: none yet, removed, or width and right margin set. */
  datatype AppLayout = Untouched | Cleared | Overridden(width: string, marginRight: string)

  function LayoutFor(collapsed: bool): (l: AppLayout)
    ensures collapsed <==> l == Cleared
    ensures !collapsed ==> l == Overridden("calc(100% - 375px)", "375px")
    ensures !collapsed ==> l.marginRight == WidthFor(false)
  {
    PanelWidthText();
    assert "calc(100% - " + "375" + "px)" == "calc(100% - 375px)";
    assert "375" + "px" == "375px";
    if collapsed then Cleared
    else Overridden("calc(100% - " + NatToString(PanelWidth) + "px)", NatToString(PanelWidth) + "px")
  }

  /** `localStorage.setItem(key, b)` stores the boolean's text. */
  function StoredText(b: bool): string {
    if b then "true" else "false"
  }

  /** The state read back at injection: stored value `=== 'true'`. */
  function LoadCollapsed(stored: Option<string>): (b: bool)
    ensures b <==> stored == Some("true")
  {
    stored == Some("true")
  }

  /** Saving a state and reading it back gives the state. */
  lemma SaveLoadRoundTrip(b: bool)
    ensures LoadCollapsed(Some(StoredText(b))) == b
  {
  }

  /** A value a reply may carry; objects are truthy, `undefined` is `None`. */
  datatype Payload = Payload(fields: map<string, string>)

  /** What the script posts to the panel's frame. */
  datatype FramePost =
    | UpdatePanelControls(isCollapsed: bool)
    | BackgroundResponse(error: Option<string>, response: Option<Payload>)
    | RelayError(relayError: string)
    | RelayResponse(relayResponse: Payload)
    | FromBackground(messageType: string)

  /** How the background answered a relayed message. */
  datatype RelayOutcome = LastError(message: string) | Answered(response: Option<Payload>)

  /** SEND_TO_BACKGROUND: the answer goes back as a BACKGROUND_RESPONSE carrying
      the error or the response, never both. */
  function SendToBackgroundReply(o: RelayOutcome): (p: FramePost)
    ensures p.BackgroundResponse?
    ensures p.error.Some? <==> o.LastError?
    ensures p.error.None? || p.response.None?
    ensures o.LastError? ==> p.error == Some(o.message)
    ensures o.Answered? ==> p.response == o.response
  {
    match o
    case LastError(m) => BackgroundResponse(Some(m), None)
    case Answered(r) => BackgroundResponse(None, r)
  }

  /** Any other typed message: an error is reported; a response is forwarded
      only when it is truthy. */
  function OtherRelayReply(o: RelayOutcome): (p: Option<FramePost>)
    ensures o.LastError? ==> p == Some(RelayError(o.message))
    ensures o.Answered? ==> (p.Some? <==> o.response.Some?)
    ensures p.Some? && o.Answered? ==> p.value == RelayResponse(o.response.value)
  {
    match o
    case LastError(m) => Some(RelayError(m))
    case Answered(r) => if r.Some? then Some(RelayResponse(r.value)) else None
  }

  /** A message from the panel's frame, as the window listener tells them apart. */
  datatype FrameMessage =
    | ToggleVisibility(isCollapsed: bool)
    | SendToBackground(inner: string)
    | Typed(messageType: string)
    | Untyped

  /** The action button's answer. */
  datatype ToggleReply = ToggleReply(success: bool, newCollapsedState: bool)

  class SidebarHost {
    /** The page has an element with the panel's id. */
    var elementPresent: bool
    /** The script's own `sidebarInjected` flag. */
    var injected: bool
    /** The page has an `#app` element. */
    var appPresent: bool
    var collapsed: bool
    var stored: Option<string>
    var width: string
    var appLayout: AppLayout
    var toFrame: seq<FramePost>
    var toBackground: seq<string>
    /** The relayed messages whose `sendMessage` callback is still to come, by
        handle: `true` for SEND_TO_BACKGROUND, `false` for any other type. */
    var pendingRelays: map<nat, bool>
    var intervalActive: bool
    var observerActive: bool

    /** After injection, the width and the layout of `#app` follow the collapsed state. */
    predicate Valid()
      reads this
    {
      injected ==> elementPresent && width == WidthFor(collapsed) && (appPresent ==> appLayout == LayoutFor(collapsed))
    }

    /** The script starts: nothing injected, polling and observing running, and
        the background told that the script is ready. */
    constructor(app: bool, storedValue: Option<string>)
      ensures Valid()
      ensures !elementPresent && !injected && appPresent == app && stored == storedValue
      ensures appLayout == Untouched && toFrame == [] && toBackground == ["CONTENT_SCRIPT_READY"] && pendingRelays == map[]
      ensures intervalActive && observerActive
    {
      elementPresent := false;
      injected := false;
      appPresent := app;
      collapsed := false;
      stored := storedValue;
      width := "";
      appLayout := Untouched;
      toFrame := [];
      toBackground := ["CONTENT_SCRIPT_READY"];
      pendingRelays := map[];
      intervalActive := true;
      observerActive := true;
    }

    /** `injectSidebar()`: once only; the collapsed state comes from storage. */
    method Inject()
      requires Valid()
      modifies this
      ensures Valid()
      ensures old(elementPresent || injected) ==>
              injected == old(injected) && elementPresent == old(elementPresent)
              && collapsed == old(collapsed) && width == old(width) && appLayout == old(appLayout)
      ensures !old(elementPresent || injected) ==>
              injected && elementPresent && collapsed == LoadCollapsed(stored)
              && width == WidthFor(collapsed) && appLayout == (if appPresent then LayoutFor(collapsed) else old(appLayout))
      ensures stored == old(stored) && appPresent == old(appPresent) && toFrame == old(toFrame)
      ensures toBackground == old(toBackground) && pendingRelays == old(pendingRelays)
      ensures intervalActive == old(intervalActive) && observerActive == old(observerActive)
    {
      if elementPresent || injected {
        return;
      }
      collapsed := LoadCollapsed(stored);
      ApplyCollapsed();
      elementPresent := true;
      injected := true;
    }

    /** `applySidebarStyling()` and `adjustWhatsAppLayout()`. */
    method ApplyCollapsed()
      modifies this
      ensures width == WidthFor(collapsed) && appLayout == (if appPresent then LayoutFor(collapsed) else old(appLayout))
      ensures elementPresent == old(elementPresent) && injected == old(injected) && appPresent == old(appPresent)
      ensures collapsed == old(collapsed) && stored == old(stored)
      ensures toFrame == old(toFrame) && toBackground == old(toBackground) && pendingRelays == old(pendingRelays)
      ensures intervalActive == old(intervalActive) && observerActive == old(observerActive)
    {
      width := WidthFor(collapsed);
      if appPresent {
        appLayout := LayoutFor(collapsed);
      }
    }

    /** The frame has loaded: it is told the current collapsed state. */
    method OnFrameLoad()
      requires injected
      modifies this
      ensures toFrame == old(toFrame) + [UpdatePanelControls(collapsed)]
      ensures elementPresent == old(elementPresent) && injected == old(injected) && appPresent == old(appPresent)
      ensures collapsed == old(collapsed) && stored == old(stored) && width == old(width) && appLayout == old(appLayout)
      ensures toBackground == old(toBackground) && pendingRelays == old(pendingRelays)
      ensures intervalActive == old(intervalActive) && observerActive == old(observerActive)
    {
      toFrame := toFrame + [UpdatePanelControls(collapsed)];
    }

    /** Sets the collapsed state, lays the page out, saves the state and tells the frame. */
    method SetCollapsed(c: bool)
      requires Valid() && injected
      modifies this
      ensures Valid()
      ensures collapsed == c && stored == Some(StoredText(c))
      ensures toFrame == old(toFrame) + [UpdatePanelControls(c)]
      ensures width == WidthFor(c) && appLayout == (if appPresent then LayoutFor(c) else old(appLayout))
      ensures elementPresent == old(elementPresent) && injected == old(injected) && appPresent == old(appPresent)
      ensures toBackground == old(toBackground) && pendingRelays == old(pendingRelays)
      ensures intervalActive == old(intervalActive) && observerActive == old(observerActive)
    {
      collapsed := c;
      ApplyCollapsed();
      stored := Some(StoredText(c));
      toFrame := toFrame + [UpdatePanelControls(c)];
    }

    /** TOGGLE_PANEL_VISIBILITY_FROM_ACTION. The listener exists only once the
        panel has been injected. */
    method OnToggleFromAction() returns (reply: ToggleReply)
      requires Valid() && injected
      modifies this
      ensures Valid()
      ensures collapsed == !old(collapsed) && stored == Some(StoredText(collapsed))
      ensures reply == ToggleReply(true, collapsed)
      ensures toFrame == old(toFrame) + [UpdatePanelControls(collapsed)]
      ensures elementPresent == old(elementPresent) && injected == old(injected) && appPresent == old(appPresent)
      ensures toBackground == old(toBackground) && pendingRelays == old(pendingRelays)
      ensures intervalActive == old(intervalActive) && observerActive == old(observerActive)
    {
      SetCollapsed(!collapsed);
      reply := ToggleReply(true, collapsed);
    }

    /** A message from the panel's frame. SEND_TO_BACKGROUND and any other typed
        message are sent to the background, and the send's callback, with handle
        `handle`, will answer the frame according to the kind of message.
        `sendThrows` says that `chrome.runtime.sendMessage` throws: the listener's
        catch only logs, so nothing is sent and the frame is never answered. */
    method OnFrameMessage(m: FrameMessage, handle: nat, sendThrows: bool)
      requires Valid() && injected
      requires m.SendToBackground? || m.Typed? ==> handle !in pendingRelays
      modifies this
      ensures Valid()
      ensures m.ToggleVisibility? ==>
              collapsed == m.isCollapsed && stored == Some(StoredText(m.isCollapsed))
              && toFrame == old(toFrame) + [UpdatePanelControls(m.isCollapsed)]
              && toBackground == old(toBackground) && pendingRelays == old(pendingRelays)
      ensures m.SendToBackground? ==>
              toBackground == old(toBackground) + (if sendThrows then [] else [m.inner])
              && pendingRelays == (if sendThrows then old(pendingRelays) else old(pendingRelays)[handle := true])
              && unchanged(this`collapsed, this`stored, this`toFrame)
      ensures m.Typed? ==>
              toBackground == old(toBackground) + (if sendThrows then [] else [m.messageType])
              && pendingRelays == (if sendThrows then old(pendingRelays) else old(pendingRelays)[handle := false])
              && unchanged(this`collapsed, this`stored, this`toFrame)
      ensures m.Untyped? ==> unchanged(this`collapsed, this`stored, this`toFrame, this`toBackground, this`pendingRelays)
      ensures elementPresent == old(elementPresent) && injected == old(injected) && appPresent == old(appPresent)
      ensures intervalActive == old(intervalActive) && observerActive == old(observerActive)
    {
      match m
      case ToggleVisibility(c) => SetCollapsed(c);
      case SendToBackground(inner) =>
        if !sendThrows {
          toBackground := toBackground + [inner];
          pendingRelays := pendingRelays[handle := true];
        }
      case Typed(t) =>
        if !sendThrows {
          toBackground := toBackground + [t];
          pendingRelays := pendingRelays[handle := false];
        }
      case Untyped =>
    }

    /** The background's answer to a relayed message reaches the frame, in the
        form the kind of the relayed message calls for; the callback is called once. */
    method OnRelayOutcome(handle: nat, o: RelayOutcome)
      requires handle in pendingRelays
      modifies this
      ensures pendingRelays == old(pendingRelays) - {handle}
      ensures old(pendingRelays)[handle] ==> toFrame == old(toFrame) + [SendToBackgroundReply(o)]
      ensures !old(pendingRelays)[handle] ==>
              toFrame == old(toFrame) + (var p := OtherRelayReply(o); if p.Some? then [p.value] else [])
      ensures elementPresent == old(elementPresent) && injected == old(injected) && appPresent == old(appPresent)
      ensures collapsed == old(collapsed) && stored == old(stored) && width == old(width) && appLayout == old(appLayout)
      ensures toBackground == old(toBackground)
      ensures intervalActive == old(intervalActive) && observerActive == old(observerActive)
    {
      if pendingRelays[handle] {
        toFrame := toFrame + [SendToBackgroundReply(o)];
      } else {
        var p := OtherRelayReply(o);
        if p.Some? {
          toFrame := toFrame + [p.value];
        }
      }
      pendingRelays := pendingRelays - {handle};
    }

    /** Any other message from the background is passed on to the frame and acknowledged. */
    method OnBackgroundMessage(messageType: string) returns (ack: bool)
      requires injected
      modifies this
      ensures ack
      ensures toFrame == old(toFrame) + [FromBackground(messageType)]
      ensures elementPresent == old(elementPresent) && injected == old(injected) && appPresent == old(appPresent)
      ensures collapsed == old(collapsed) && stored == old(stored) && width == old(width) && appLayout == old(appLayout)
      ensures toBackground == old(toBackground) && pendingRelays == old(pendingRelays)
      ensures intervalActive == old(intervalActive) && observerActive == old(observerActive)
    {
      toFrame := toFrame + [FromBackground(messageType)];
      ack := true;
    }

    /** A tick of the 1.5-second injection poll: inject when the chat list is
        there, and stop polling and observing once the panel exists. */
    method OnPollTick(bodyPresent: bool, chatListPresent: bool)
      requires Valid() && intervalActive
      modifies this
      ensures Valid()
      ensures !old(elementPresent) && bodyPresent && chatListPresent && !old(injected) ==>
                injected && elementPresent && collapsed == LoadCollapsed(stored)
      ensures !(!old(elementPresent) && bodyPresent && chatListPresent && !old(injected)) ==>
                injected == old(injected) && elementPresent == old(elementPresent)
                && collapsed == old(collapsed) && width == old(width) && appLayout == old(appLayout)
      ensures intervalActive <==> !elementPresent
      ensures observerActive == (old(observerActive) && !elementPresent)
      ensures stored == old(stored) && appPresent == old(appPresent) && toFrame == old(toFrame)
      ensures toBackground == old(toBackground) && pendingRelays == old(pendingRelays)
    {
      if bodyPresent && !elementPresent && chatListPresent {
        Inject();
      }
      if elementPresent {
        intervalActive := false;
        observerActive := false;
      }
    }

    /** The page changed while the observer runs: inject when the chat list is
        there and the panel is not. */
    method OnMutation(chatListPresent: bool)
      requires Valid() && observerActive
      modifies this
      ensures Valid()
      ensures !old(elementPresent) && chatListPresent && !old(injected) ==> injected && elementPresent
      ensures !chatListPresent || old(elementPresent) ==> unchanged(this)
      ensures stored == old(stored) && appPresent == old(appPresent) && toFrame == old(toFrame)
      ensures toBackground == old(toBackground) && pendingRelays == old(pendingRelays)
      ensures intervalActive == old(intervalActive) && observerActive == old(observerActive)
    {
      if chatListPresent && !elementPresent {
        Inject();
      }
    }

    /** Half a second after an injection from the observer: disconnect it if the panel exists. */
    method OnSettled()
      modifies this
      ensures observerActive == (old(observerActive) && !elementPresent)
      ensures elementPresent == old(elementPresent) && injected == old(injected) && appPresent == old(appPresent)
      ensures collapsed == old(collapsed) && stored == old(stored) && width == old(width) && appLayout == old(appLayout)
      ensures toFrame == old(toFrame) && toBackground == old(toBackground) && intervalActive == old(intervalActive) && pendingRelays == old(pendingRelays)
    {
      if elementPresent {
        observerActive := false;
      }
    }

    /** Thirty seconds after the script started: stop both, whatever happened. */
    method OnGiveUp()
      modifies this
      ensures !intervalActive && !observerActive
      ensures elementPresent == old(elementPresent) && injected == old(injected) && appPresent == old(appPresent)
      ensures collapsed == old(collapsed) && stored == old(stored) && width == old(width) && appLayout == old(appLayout)
      ensures toFrame == old(toFrame) && toBackground == old(toBackground) && pendingRelays == old(pendingRelays)
    {
      intervalActive := false;
      observerActive := false;
    }
  }

  /** Two presses of the action button leave the panel as it was. */
  method ToggleTwice(h: SidebarHost)
    requires h.Valid() && h.injected
    modifies h
    ensures h.Valid()
    ensures h.collapsed == old(h.collapsed) && h.width == old(h.width)
    ensures h.appPresent ==> h.appLayout == old(h.appLayout)
    ensures h.stored == Some(StoredText(old(h.collapsed)))
  {
    var _ := h.OnToggleFromAction();
    var _ := h.OnToggleFromAction();
  }

  /** Setting the same state twice is the same as setting it once, apart from
      the repeated notice to the frame. */
  method SetTwice(h: SidebarHost, c: bool)
    requires h.Valid() && h.injected
    modifies h
    ensures h.Valid()
    ensures h.collapsed == c && h.width == WidthFor(c) && h.stored == Some(StoredText(c))
    ensures h.toFrame == old(h.toFrame) + [UpdatePanelControls(c), UpdatePanelControls(c)]
  {
    h.OnFrameMessage(ToggleVisibility(c), 0, false);
    h.OnFrameMessage(ToggleVisibility(c), 0, false);
  }

  /** Injecting a second time changes nothing; a panel element already in the
      page (put there by another script) prevents injection altogether. */
  method InjectTwice(h: SidebarHost)
    requires h.Valid()
    modifies h
    ensures h.Valid() && h.elementPresent
    ensures h.injected <==> old(h.injected) || !old(h.elementPresent)
    ensures !old(h.elementPresent || h.injected) ==> h.collapsed == LoadCollapsed(h.stored)
  {
    h.Inject();
    ghost var afterFirst := h.collapsed;
    h.Inject();
    assert h.collapsed == afterFirst;
  }
}
